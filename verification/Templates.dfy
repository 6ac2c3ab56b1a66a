/** The protocol template of a TCP link (tst_t) and the byte layout it gives to a message. */
module Templates {

  type Byte = bv8

  datatype Option<+T> = None | Some(value: T)

  ghost function Count(b: bool): nat { if b then 1 else 0 }

  /** TCP_MAXIMUM_PACKET_SIZE, 50 MiB (tcp.c:17). */
  const MAXIMUM_PACKET_SIZE: int := 50 * 1024 * 1024

  /** TCP_MAXIMUM_SENDER_CACHED_CNT_PRE_LINK (tcp.c:30). */
  const MAXIMUM_SENDER_CACHED: int := 500

  /** What the user's parser says of a header: it refuses it, or it announces a user data size. */
  datatype Header = Rejected | Announces(size: int)

  /**
   * cb is the fixed header length. The parser sees exactly the cb header bytes; the builder, when there is
   * one, writes the header for a user data size or refuses that size (tcp.c:1319).
   */
  datatype Template = Template(cb: nat, parser: seq<Byte> -> Header, builder: Option<nat -> Option<seq<Byte>>>) {

    /** The header the builder writes for a user data size, if it writes one. */
    function Built(n: nat): Option<seq<Byte>> {
      if builder.None? then None else builder.value(n)
    }

    /** tcp_write can lay out n bytes of user data: there is no builder, or it does not refuse the size. */
    predicate Accepts(n: nat) {
      builder.None? || Built(n).Some?
    }

    /** The contract between the two user callbacks: a header that is built is cb bytes long and parses back. */
    ghost predicate Lawful() {
      && builder.Some?
      && forall n: nat :: 0 < n <= MAXIMUM_PACKET_SIZE && Built(n).Some? ==>
           && |Built(n).value| == cb
           && parser(Built(n).value) == Announces(n)
    }

    /** The bytes tcp_write lays out for user data of an accepted size (tcp.c:1298-1330). */
    function Encode(payload: seq<Byte>): seq<Byte> {
      var header := Built(|payload|);
      if header.None? then payload else header.value + payload
    }
  }

  /** A serializer is given the user data and told a number of bytes; it fails, or writes bytes into the buffer. */
  type Serializer = (seq<Byte>, int) -> Option<seq<Byte>>

  /** A block of memory after bytes have been written to its front. */
  function Overlay(written: seq<Byte>, heap: seq<Byte>): (block: seq<Byte>)
    ensures |block| == |heap|
  {
    if |written| >= |heap| then written[..|heap|] else written + heap[|written|..]
  }

  /** What tcp_write puts behind the header, in memory that held `heap` before (tcp.c:1305-1329). With a builder
      the serializer is told cb_ bytes less than there are (tcp.c:1324). */
  function Body(t: Template, origin: seq<Byte>, serializer: Option<Serializer>, heap: seq<Byte>): (b: Option<seq<Byte>>)
    requires |heap| == |origin|
    ensures b.Some? ==> |b.value| == |origin|
  {
    if serializer.None? then Some(origin)
    else
      var written := serializer.value(origin, if t.builder.None? then |origin| else |origin| - t.cb);
      if written.None? then None else Some(Overlay(written.value, heap))
  }

  // ----- the usual header: the size as a number of cb bytes, most significant byte first

  function Power256(cb: nat): (p: nat)
    ensures p > 0
  {
    if cb == 0 then 1 else 256 * Power256(cb - 1)
  }

  function Digits(cb: nat, n: nat): (h: seq<Byte>)
    ensures |h| == cb
  {
    if cb == 0 then [] else Digits(cb - 1, n / 256) + [(n % 256) as Byte]
  }

  function Number(h: seq<Byte>): nat {
    if h == [] then 0 else 256 * Number(h[..|h| - 1]) + h[|h| - 1] as int
  }

  /** The builder refuses the sizes that do not fit into the header. */
  function BigEndian(cb: nat): Template {
    Template(cb, h => Announces(Number(h)),
             Some((n: nat) => if n < Power256(cb) then Some(Digits(cb, n)) else None))
  }

  lemma ByteKeepsValue(m: nat)
    requires m < 256
    ensures (m as Byte) as int == m
  {
    if (m as Byte) as int < m {
      assert false;
    } else if (m as Byte) as int > m {
      assert false;
    }
  }

  lemma NumberSnoc(h: seq<Byte>, d: Byte)
    ensures Number(h + [d]) == 256 * Number(h) + d as int
  {
    assert (h + [d])[..|h|] == h;
  }

  lemma {:induction false} NumberOfDigits(cb: nat, n: nat)
    requires n < Power256(cb)
    ensures Number(Digits(cb, n)) == n
  {
    if cb > 0 {
      var h, d := Digits(cb - 1, n / 256), (n % 256) as Byte;
      NumberOfDigits(cb - 1, n / 256);
      ByteKeepsValue(n % 256);
      NumberSnoc(h, d);
    }
  }

  /** Headers of every length have lawful callbacks: a header of one byte accepts messages up to 255 bytes, one
      of two up to 65535, and from four bytes on none is refused. */
  lemma BigEndianIsLawful(cb: nat)
    ensures BigEndian(cb).Lawful()
    ensures forall n: nat :: BigEndian(cb).Accepts(n) <==> n < Power256(cb)
    ensures cb >= 4 ==> Power256(cb) > MAXIMUM_PACKET_SIZE
  {
    var t := BigEndian(cb);
    forall n: nat | t.Built(n).Some?
      ensures |t.Built(n).value| == cb && t.parser(t.Built(n).value) == Announces(n)
    {
      NumberOfDigits(cb, n);
    }
    if cb >= 4 {
      PowerOfFour(cb);
    }
  }

  lemma {:induction false} PowerOfFour(cb: nat)
    requires cb >= 4
    ensures Power256(cb) >= 256 * 256 * 256 * 256
  {
    if cb > 4 {
      PowerOfFour(cb - 1);
    } else {
      assert Power256(4) == 256 * Power256(3) && Power256(3) == 256 * Power256(2) && Power256(2) == 256 * Power256(1);
    }
  }

  /** Concatenation of a list of byte strings. */
  function Flatten(parts: seq<seq<Byte>>): seq<Byte> {
    if parts == [] then [] else parts[0] + Flatten(parts[1..])
  }

  lemma {:induction false} FlattenAppend(xs: seq<seq<Byte>>, ys: seq<seq<Byte>>)
    ensures Flatten(xs + ys) == Flatten(xs) + Flatten(ys)
  {
    if xs == [] {
      assert xs + ys == ys;
    } else {
      assert (xs + ys)[1..] == xs[1..] + ys;
      FlattenAppend(xs[1..], ys);
    }
  }

  lemma FlattenSnoc(xs: seq<seq<Byte>>, y: seq<Byte>)
    ensures Flatten(xs + [y]) == Flatten(xs) + y
  {
    FlattenAppend(xs, [y]);
    assert Flatten([y]) == y;
  }
}
