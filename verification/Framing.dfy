/**
 * What a byte stream means under a template: a list of whole frames and a remainder.
 * Everything here is about whole streams; buffers, segments and large blocks do not occur.
 */
module Framing {
  import opened Templates

  /** f is one whole frame: its header announces exactly the bytes that follow it. */
  ghost predicate WellFramed(t: Template, f: seq<Byte>) {
    && t.cb <= |f|
    && t.parser(f[..t.cb]) == Announces(|f| - t.cb)
    && |f| - t.cb <= MAXIMUM_PACKET_SIZE
  }

  /** s begins with a header that ends the link: refused, negative or above the limit. */
  ghost predicate BadHeader(t: Template, s: seq<Byte>) {
    && t.cb <= |s|
    && match t.parser(s[..t.cb]) {
      case Rejected => true
      case Announces(n) => n < 0 || n > MAXIMUM_PACKET_SIZE
    }
  }

  /** No frame can be cut from the front of s. */
  ghost predicate Stuck(t: Template, s: seq<Byte>) {
    forall k :: t.cb <= k <= |s| ==> !WellFramed(t, s[..k])
  }

  /** The declarative reading: frames and rest are a division of s that cannot be carried further. */
  ghost predicate IsFraming(t: Template, s: seq<Byte>, frames: seq<seq<Byte>>, rest: seq<Byte>) {
    && Flatten(frames) + rest == s
    && (forall i :: 0 <= i < |frames| ==> WellFramed(t, frames[i]))
    && Stuck(t, rest)
  }

  datatype Parsed = Parsed(frames: seq<seq<Byte>>, rest: seq<Byte>, bad: bool)

  /** Length of the frame that the header of s announces, when s holds a good header. */
  function Announced(t: Template, s: seq<Byte>): (r: Option<nat>) {
    if |s| < t.cb then None
    else match t.parser(s[..t.cb])
      case Rejected => None
      case Announces(n) => if n < 0 || n > MAXIMUM_PACKET_SIZE then None else Some(n + t.cb)
  }

  /** The executable reading: cut frames from the front until the bytes or the headers run out. */
  function Parse(t: Template, s: seq<Byte>): Parsed
    requires t.cb > 0
    decreases |s|
  {
    var a := Announced(t, s);
    if a.None? then Parsed([], s, |s| >= t.cb)
    else if |s| < a.value then Parsed([], s, false)
    else
      var p := Parse(t, s[a.value..]);
      p.(frames := [s[..a.value]] + p.frames)
  }

  /** Parse finds a division of the stream, and reports a bad header exactly when one stopped it. */
  lemma {:induction false} ParseIsFraming(t: Template, s: seq<Byte>)
    requires t.cb > 0
    ensures IsFraming(t, s, Parse(t, s).frames, Parse(t, s).rest)
    ensures Parse(t, s).bad <==> BadHeader(t, Parse(t, s).rest)
    decreases |s|
  {
    var a := Announced(t, s);
    if a.None? || |s| < a.value {
      StuckIfShort(t, s);
      assert Flatten([]) + s == s;
    } else {
      var f, r := s[..a.value], s[a.value..];
      ParseIsFraming(t, r);
      assert WellFramed(t, f) by { assert f[..t.cb] == s[..t.cb]; }
      assert s == f + r;
      FramingCons(t, f, r, Parse(t, r).frames, Parse(t, r).rest);
    }
  }

  lemma FramingCons(t: Template, f: seq<Byte>, s: seq<Byte>, frames: seq<seq<Byte>>, rest: seq<Byte>)
    requires WellFramed(t, f) && IsFraming(t, s, frames, rest)
    ensures IsFraming(t, f + s, [f] + frames, rest)
  {
    assert ([f] + frames)[1..] == frames;
    assert f + s == f + (Flatten(frames) + rest) == (f + Flatten(frames)) + rest;
  }

  lemma StuckIfShort(t: Template, s: seq<Byte>)
    requires var a := Announced(t, s); a.None? || |s| < a.value
    ensures Stuck(t, s)
  {
    forall k | t.cb <= k <= |s|
      ensures !WellFramed(t, s[..k])
    {
      assert s[..k][..t.cb] == s[..t.cb];
    }
  }

  /** The remainder holds no header, an unfinished frame, or a bad header. */
  lemma {:induction false} RestIsShort(t: Template, s: seq<Byte>)
    requires t.cb > 0
    ensures var p := Parse(t, s);
            match Announced(t, p.rest)
            case None => p.bad <==> t.cb <= |p.rest|
            case Some(n) => !p.bad && t.cb <= |p.rest| < n
    decreases |s|
  {
    var a := Announced(t, s);
    if a.Some? && a.value <= |s| {
      RestIsShort(t, s[a.value..]);
    }
  }

  /** A stream has at most one division: the header makes frames a prefix code. */
  lemma {:induction false} FramingUnique(t: Template, s: seq<Byte>,
                                         fs: seq<seq<Byte>>, r: seq<Byte>, gs: seq<seq<Byte>>, q: seq<Byte>)
    requires t.cb > 0
    requires IsFraming(t, s, fs, r) && IsFraming(t, s, gs, q)
    ensures fs == gs && r == q
    decreases |fs| + |gs|
  {
    if fs == [] && gs == [] {
      assert Flatten(fs) + r == r && Flatten(gs) + q == q;
    } else if fs == [] {
      assert s == r;
      FirstFrame(t, s, gs, q);
    } else if gs == [] {
      assert s == q;
      FirstFrame(t, s, fs, r);
    } else {
      FirstFrame(t, s, fs, r);
      FirstFrame(t, s, gs, q);
      assert fs[0][..t.cb] == s[..t.cb] == gs[0][..t.cb];
      assert fs[0] == gs[0];
      var n := |fs[0]|;
      FramingUnique(t, s[n..], fs[1..], r, gs[1..], q);
      assert fs == [fs[0]] + fs[1..] && gs == [gs[0]] + gs[1..];
    }
  }

  lemma FirstFrame(t: Template, s: seq<Byte>, fs: seq<seq<Byte>>, r: seq<Byte>)
    requires fs != [] && IsFraming(t, s, fs, r)
    ensures |fs[0]| <= |s| && s[..|fs[0]|] == fs[0] && WellFramed(t, fs[0])
    ensures IsFraming(t, s[|fs[0]|..], fs[1..], r)
  {
    assert s == fs[0] + (Flatten(fs[1..]) + r);
  }

  /** Parse computes the one and only division of the stream. */
  lemma ParseIsTheFraming(t: Template, s: seq<Byte>, frames: seq<seq<Byte>>, rest: seq<Byte>)
    requires t.cb > 0
    ensures IsFraming(t, s, frames, rest) <==> Parse(t, s).frames == frames && Parse(t, s).rest == rest
  {
    ParseIsFraming(t, s);
    if IsFraming(t, s, frames, rest) {
      FramingUnique(t, s, frames, rest, Parse(t, s).frames, Parse(t, s).rest);
    }
  }

  /** A header that is there does not change when more bytes come. */
  lemma AnnouncedStays(t: Template, s: seq<Byte>, x: seq<Byte>)
    requires t.cb <= |s|
    ensures Announced(t, s + x) == Announced(t, s)
  {
    assert (s + x)[..t.cb] == s[..t.cb];
  }

  /** The first frame of a longer stream is the same, and what follows it is longer by the same bytes. */
  lemma ParseFirst(t: Template, s: seq<Byte>, x: seq<Byte>)
    requires t.cb > 0
    requires Announced(t, s).Some? && Announced(t, s).value <= |s|
    ensures var n := Announced(t, s).value;
            var p := Parse(t, s[n..] + x);
            Parse(t, s + x) == Parsed([s[..n]] + p.frames, p.rest, p.bad)
  {
    var n := Announced(t, s).value;
    AnnouncedStays(t, s, x);
    assert (s + x)[..n] == s[..n];
    assert (s + x)[n..] == s[n..] + x;
  }

  /** Parsing may stop after any prefix and resume from its remainder. */
  lemma {:induction false} ParseResume(t: Template, s: seq<Byte>, x: seq<Byte>)
    requires t.cb > 0
    requires !Parse(t, s).bad
    ensures var p, q := Parse(t, s), Parse(t, Parse(t, s).rest + x);
            Parse(t, s + x) == Parsed(p.frames + q.frames, q.rest, q.bad)
    decreases |s|
  {
    var a := Announced(t, s);
    if a.None? || |s| < a.value {
      var q := Parse(t, s + x);
      assert [] + q.frames == q.frames;
    } else {
      ParseFirst(t, s, x);
      ParseResume(t, s[a.value..], x);
      Associate([s[..a.value]], Parse(t, s[a.value..]).frames, Parse(t, Parse(t, s[a.value..]).rest + x).frames);
    }
  }

  lemma Associate(a: seq<seq<Byte>>, b: seq<seq<Byte>>, c: seq<seq<Byte>>)
    ensures a + (b + c) == (a + b) + c
  {
  }

  /** A bad header is final: whatever follows it, the frames before it are all there will ever be. */
  lemma {:induction false} BadHeaderIsFinal(t: Template, s: seq<Byte>, x: seq<Byte>)
    requires t.cb > 0
    requires Parse(t, s).bad
    ensures Parse(t, s + x).bad && Parse(t, s + x).frames == Parse(t, s).frames
    ensures Parse(t, s + x).rest == Parse(t, s).rest + x
    decreases |s|
  {
    var a := Announced(t, s);
    if a.None? {
      AnnouncedStays(t, s, x);
    } else {
      ParseFirst(t, s, x);
      BadHeaderIsFinal(t, s[a.value..], x);
    }
  }

  /** Frames are delivered eagerly and never taken back: a longer stream only adds frames. */
  lemma FramesOnlyGrow(t: Template, s: seq<Byte>, x: seq<Byte>)
    requires t.cb > 0
    ensures Parse(t, s).frames <= Parse(t, s + x).frames
  {
    if Parse(t, s).bad {
      BadHeaderIsFinal(t, s, x);
    } else {
      ParseResume(t, s, x);
    }
  }

  /** Every byte of the stream is in exactly one delivered frame or in the remainder. */
  lemma {:induction false} ByteConservation(t: Template, s: seq<Byte>)
    requires t.cb > 0
    ensures |s| == TotalLength(Parse(t, s).frames) + |Parse(t, s).rest|
  {
    ParseIsFraming(t, s);
    FlattenLength(Parse(t, s).frames);
  }

  function TotalLength(frames: seq<seq<Byte>>): nat {
    if frames == [] then 0 else |frames[0]| + TotalLength(frames[1..])
  }

  lemma {:induction false} FlattenLength(frames: seq<seq<Byte>>)
    ensures |Flatten(frames)| == TotalLength(frames)
  {
    if frames != [] {
      FlattenLength(frames[1..]);
    }
  }

  /** A bad header is noticed as soon as its last byte is there. */
  lemma BadHeaderArrives(t: Template, s: seq<Byte>, n: nat)
    requires t.cb > 0 && Parse(t, s).bad && n <= |s|
    requires TotalLength(Parse(t, s).frames) + t.cb <= n
    ensures Parse(t, s[..n]).bad && Parse(t, s[..n]).frames == Parse(t, s).frames
  {
    var frames, rest := Parse(t, s).frames, Parse(t, s).rest;
    ParseIsFraming(t, s);
    FlattenLength(frames);
    var k := n - TotalLength(frames);
    assert s[..n] == Flatten(frames) + rest[..k];
    assert rest[..k][..t.cb] == rest[..t.cb];
    StuckIfShort(t, rest[..k]);
    assert IsFraming(t, s[..n], frames, rest[..k]);
    ParseIsTheFraming(t, s[..n], frames, rest[..k]);
    ParseIsFraming(t, s[..n]);
  }

  /** What a header that announces n bytes of user data makes of the stream: from 0 to 50 MiB, 52428800 bytes, it
      starts a frame; any other number is a bad header. */
  lemma SizeLimits(t: Template, header: seq<Byte>, n: int, body: seq<Byte>)
    requires |header| == t.cb > 0 && t.parser(header) == Announces(n)
    ensures 0 <= n <= 52428800 && |body| == n ==> Parse(t, header + body) == Parsed([header + body], [], false)
    ensures 0 <= n <= 52428800 && |body| < n ==> Parse(t, header + body) == Parsed([], header + body, false)
    ensures n < 0 || n > 52428800 ==> Parse(t, header + body) == Parsed([], header + body, true)
  {
    var s := header + body;
    assert s[..t.cb] == header;
    assert s[..|s|] == s && s[|s|..] == [];
    assert Parse(t, []) == Parsed([], [], false);
  }

  /** What the callback is handed for one frame: with LINKATTR_TCP_FULLY_RECEIVE a frame that was cut
      in place keeps its header, one that went through a large block does not (tcp.c:227-228, 321-327). */
  datatype Shape = Shape(cb: nat, capacity: nat, fullyReceive: bool)

  function Hand(v: Shape, frame: seq<Byte>): seq<Byte> {
    if v.fullyReceive && |frame| <= v.capacity then frame
    else if |frame| < v.cb then []
    else frame[v.cb..]
  }

  function Hands(v: Shape, frames: seq<seq<Byte>>): (handed: seq<seq<Byte>>)
    ensures |handed| == |frames|
    ensures forall i :: 0 <= i < |frames| ==> handed[i] == Hand(v, frames[i])
  {
    seq(|frames|, i requires 0 <= i < |frames| => Hand(v, frames[i]))
  }

  lemma HandsPrefix(v: Shape, xs: seq<seq<Byte>>, ys: seq<seq<Byte>>)
    requires xs <= ys
    ensures Hands(v, xs) <= Hands(v, ys)
  {
    assert forall i :: 0 <= i < |xs| ==> xs[i] == ys[i];
  }

  /** Without a header nothing is taken off: the user gets the chunks as they came. */
  lemma HandsWithoutHeader(v: Shape, chunks: seq<seq<Byte>>)
    requires v.cb == 0
    ensures Hands(v, chunks) == chunks
  {
  }

  /** A frame is handed over as it came, or without the cb bytes of its header and nothing else. */
  lemma HandsShow(v: Shape, frames: seq<seq<Byte>>)
    requires forall i :: 0 <= i < |frames| ==> v.cb <= |frames[i]|
    ensures forall i :: 0 <= i < |frames| ==>
              if v.fullyReceive && |frames[i]| <= v.capacity then Hands(v, frames)[i] == frames[i]
              else frames[i] == frames[i][..v.cb] + Hands(v, frames)[i]
    ensures v.fullyReceive && (forall f :: f in frames ==> |f| <= v.capacity) ==> Hands(v, frames) == frames
  {
    if v.fullyReceive && forall f :: f in frames ==> |f| <= v.capacity {
      assert forall i :: 0 <= i < |frames| ==> frames[i] in frames;
      assert Hands(v, frames) == frames;
    }
  }

  /** What the receiver must have handed to the user once the stream s has arrived. */
  function Delivered(t: Template, v: Shape, s: seq<Byte>): seq<seq<Byte>>
    requires t.cb > 0
  {
    Hands(v, Parse(t, s).frames)
  }

  /** The capacity separates two frames exactly when one capacity holds the frame and the other does not. */
  ghost predicate Separates(a: nat, b: nat, frame: seq<Byte>) {
    (|frame| <= a) != (|frame| <= b)
  }

  lemma HandsDiffer(fullyReceive: bool, cb: nat, a: nat, b: nat, frame: seq<Byte>)
    requires 0 < cb <= |frame|
    ensures Hand(Shape(cb, a, fullyReceive), frame) == Hand(Shape(cb, b, fullyReceive), frame)
       <==> !fullyReceive || !Separates(a, b, frame)
  {
    assert |frame[cb..]| == |frame| - cb;
  }

  /** The receive buffer's size can be observed exactly when LINKATTR_TCP_FULLY_RECEIVE is set and
      some frame fits one buffer and not the other. */
  lemma BufferSizeTransparency(t: Template, fullyReceive: bool, a: nat, b: nat, s: seq<Byte>)
    requires t.cb > 0
    ensures Delivered(t, Shape(t.cb, a, fullyReceive), s) == Delivered(t, Shape(t.cb, b, fullyReceive), s)
       <==> !fullyReceive || forall f :: f in Parse(t, s).frames ==> !Separates(a, b, f)
  {
    ParseIsFraming(t, s);
    HandsTransparency(t, fullyReceive, a, b, Parse(t, s).frames);
  }

  lemma HandsTransparency(t: Template, fullyReceive: bool, a: nat, b: nat, frames: seq<seq<Byte>>)
    requires t.cb > 0 && forall i :: 0 <= i < |frames| ==> t.cb <= |frames[i]|
    ensures Hands(Shape(t.cb, a, fullyReceive), frames) == Hands(Shape(t.cb, b, fullyReceive), frames)
       <==> !fullyReceive || forall f :: f in frames ==> !Separates(a, b, f)
  {
    var va, vb := Shape(t.cb, a, fullyReceive), Shape(t.cb, b, fullyReceive);
    var da, db := Hands(va, frames), Hands(vb, frames);
    forall i | 0 <= i < |frames|
      ensures da[i] == db[i] <==> !fullyReceive || !Separates(a, b, frames[i])
    {
      HandsDiffer(fullyReceive, t.cb, a, b, frames[i]);
    }
    if forall f :: f in frames ==> !Separates(a, b, f) {
      assert forall i :: 0 <= i < |frames| ==> frames[i] in frames;
      assert da == db;
    }
  }
}
