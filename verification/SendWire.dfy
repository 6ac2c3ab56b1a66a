/** What is on the wire, in terms of the packets that were submitted. */
module SendWire {
  import opened Templates
  import opened SendMachine
  import opened SendInvariants
  import opened SendOwnership

  /** The bytes of a list of packets, one after another. */
  function Bytes(t: Template, ps: seq<Packet>): seq<Byte> {
    if ps == [] then [] else Bytes(t, ps[..|ps| - 1]) + t.Encode(ps[|ps| - 1].payload)
  }

  lemma BytesSnoc(t: Template, ps: seq<Packet>, p: Packet)
    ensures Bytes(t, ps + [p]) == Bytes(t, ps) + t.Encode(p.payload)
  {
    assert (ps + [p])[..|ps|] == ps;
  }

  lemma PrefixLonger(a: seq<Byte>, b: seq<Byte>, c: seq<Byte>)
    requires a <= b
    ensures a <= b + c
  {
  }

  lemma {:induction false} BytesPrefix(t: Template, ps: seq<Packet>, qs: seq<Packet>)
    requires ps <= qs
    ensures Bytes(t, ps) <= Bytes(t, qs)
    decreases |qs|
  {
    if |ps| < |qs| {
      var front, last := qs[..|qs| - 1], qs[|qs| - 1];
      BytesPrefix(t, ps, front);
      PrefixLonger(Bytes(t, ps), Bytes(t, front), t.Encode(last.payload));
      assert qs == front + [last];
      BytesSnoc(t, front, last);
    } else {
      assert ps == qs;
    }
  }

  /** The list without the packets that failed before any byte of them had gone out. */
  ghost function Without(ps: seq<Packet>, skipped: set<Packet>): seq<Packet> {
    if ps == [] then []
    else Without(ps[..|ps| - 1], skipped) + (if ps[|ps| - 1] in skipped then [] else [ps[|ps| - 1]])
  }

  lemma WithoutSnoc(ps: seq<Packet>, p: Packet, skipped: set<Packet>)
    ensures Without(ps + [p], skipped) == Without(ps, skipped) + (if p in skipped then [] else [p])
  {
    assert (ps + [p])[..|ps|] == ps;
  }

  lemma {:induction false} WithoutOther(ps: seq<Packet>, p: Packet, skipped: set<Packet>)
    requires p !in ps
    ensures Without(ps, skipped + {p}) == Without(ps, skipped)
  {
    if ps != [] {
      WithoutOther(ps[..|ps| - 1], p, skipped);
    }
  }

  lemma {:induction false} WithoutNone(ps: seq<Packet>)
    ensures Without(ps, {}) == ps
  {
    if ps != [] {
      WithoutNone(ps[..|ps| - 1]);
    }
  }

  lemma {:induction false} WithoutPrefix(ps: seq<Packet>, qs: seq<Packet>, skipped: set<Packet>)
    requires ps <= qs
    ensures Without(ps, skipped) <= Without(qs, skipped)
    decreases |qs|
  {
    if |ps| < |qs| {
      WithoutPrefix(ps, qs[..|qs| - 1], skipped);
    } else {
      assert ps == qs;
    }
  }

  /** The packet in the kernel is the last one submitted, and nothing that was not submitted is skipped. */
  ghost predicate FlightInv(t: Template, s: State) {
    && (if s.kernel == [] then s.progress == 0 else s.progress <= |t.Encode(s.kernel[0].payload)|)
    && (s.h.token == InFlight ==>
         |s.kernel| == 1 && s.h.submitted != [] && s.h.submitted[|s.h.submitted| - 1] == s.kernel[0]
         && s.kernel[0] !in s.h.skipped)
    && (forall p :: p in s.h.skipped ==> p in s.h.submitted)
  }

  /** A packet that is about to be submitted has not been submitted before. */
  lemma PostedIsNew(t: Template, s: State, tid: Tid, ok: bool)
    requires Guards(s) && OrderInv(s) && AppendedInv(s) && Enabled(t, s, Run(tid, ok)) && s.threads[tid].Post?
    ensures s.threads[tid].next !in s.h.submitted
  {
    var a, n := s.h.submitted, |s.h.submitted|;
    HandAfter(t, s, tid, ok);
    assert s.h.appended[n] == s.threads[tid].next;
    assert forall i :: 0 <= i < n ==> s.h.appended[i] == a[i];
  }

  lemma FlightRun(t: Template, s: State, tid: Tid, ok: bool)
    requires Guards(s) && OrderInv(s) && AppendedInv(s) && FlightInv(t, s) && Enabled(t, s, Run(tid, ok))
    ensures FlightInv(t, Apply(t, s, Run(tid, ok)))
  {
    if s.threads[tid].Post? {
      PostedIsNew(t, s, tid, ok);
      assert HoldsToken(s.threads[tid]);
    }
  }

  lemma FlightElse(t: Template, s: State, step: Step)
    requires TokenInv(s) && FlightInv(t, s) && Enabled(t, s, step) && !step.Run?
    ensures FlightInv(t, Apply(t, s, step))
  {
  }

  /** What goes out of the submitted packets. */
  ghost function Outgoing(s: State): seq<Packet> {
    Without(s.h.submitted, s.h.skipped)
  }

  /** What the packet in the kernel still lacks is all that the wire lacks. */
  ghost predicate InTransit(t: Template, s: State) {
    && |s.kernel| == 1 && s.progress <= |t.Encode(s.kernel[0].payload)|
    && s.wire + t.Encode(s.kernel[0].payload)[s.progress..] == Bytes(t, Outgoing(s))
  }

  /** The submitted packets but for the one in the kernel. */
  ghost function Earlier(s: State): seq<Packet> {
    if s.h.token == InFlight && s.h.submitted != [] then s.h.submitted[..|s.h.submitted| - 1] else s.h.submitted
  }

  /** A packet that was cut short ends the wire, and nothing has gone out behind it. */
  ghost predicate EndsShort(t: Template, s: State) {
    && s.wire <= Bytes(t, Without(Earlier(s), s.h.skipped))
    && s.progress == 0
  }

  /** As long as no byte has gone out behind a packet that was cut short, the wire carries the packets that were not
      skipped, whole and in order; only the last one may be incomplete: while it is in flight, because it was
      cut short, or because it was the end of the link. */
  ghost predicate WireInv(t: Template, s: State) {
    !s.h.torn ==>
      if s.h.cutShort then EndsShort(t, s)
      else
        match s.h.token
        case InFlight => InTransit(t, s)
        case Lost => s.wire <= Bytes(t, Outgoing(s))
        case _ => s.wire == Bytes(t, Outgoing(s))
  }

  /** Nothing is skipped, and the wire stays a beginning, when more packets are submitted. */
  lemma StaysPrefix(t: Template, wire: seq<Byte>, ps: seq<Packet>, qs: seq<Packet>, skipped: set<Packet>)
    requires ps <= qs && wire <= Bytes(t, Without(ps, skipped))
    ensures wire <= Bytes(t, Without(qs, skipped))
  {
    WithoutPrefix(ps, qs, skipped);
    BytesPrefix(t, Without(ps, skipped), Without(qs, skipped));
  }

  /** The same, behind a packet that was cut short. */
  lemma ShortPost(t: Template, s: State, tid: Tid, ok: bool)
    requires Guards(s) && OrderInv(s) && AppendedInv(s) && FlightInv(t, s) && EndsShort(t, s)
    requires Enabled(t, s, Run(tid, ok)) && s.threads[tid].Post?
    ensures EndsShort(t, Apply(t, s, Run(tid, ok)))
  {
    var s', p := Apply(t, s, Run(tid, ok)), s.threads[tid].next;
    assert HoldsToken(s.threads[tid]) && Earlier(s) == s.h.submitted;
    if ok {
      assert s'.h.submitted[..|s'.h.submitted| - 1] == s.h.submitted;
    } else {
      StaysPrefix(t, s.wire, s.h.submitted, s.h.submitted + [p], s.h.skipped);
    }
  }

  /** A packet is submitted behind the others. */
  lemma WirePost(t: Template, s: State, tid: Tid, ok: bool)
    requires Guards(s) && OrderInv(s) && AppendedInv(s) && FlightInv(t, s) && WireInv(t, s) && !s.h.cutShort
    requires Enabled(t, s, Run(tid, ok)) && s.threads[tid].Post?
    ensures WireInv(t, Apply(t, s, Run(tid, ok)))
  {
    var p := s.threads[tid].next;
    var e := t.Encode(p.payload);
    PostedIsNew(t, s, tid, ok);
    assert HoldsToken(s.threads[tid]);
    WithoutSnoc(s.h.submitted, p, s.h.skipped);
    BytesSnoc(t, Outgoing(s), p);
    assert e[0..] == e;
  }

  /** The wire and the packets submitted and skipped are as before. */
  ghost predicate SameWire(s: State, s': State) {
    && s'.wire == s.wire && s'.progress == s.progress && s'.kernel == s.kernel && s'.h.submitted == s.h.submitted
    && s'.h.skipped == s.h.skipped && s'.h.cutShort == s.h.cutShort && s'.h.torn == s.h.torn
  }

  lemma WireKept(t: Template, s: State, s': State)
    requires WireInv(t, s) && SameWire(s, s')
    requires s'.h.token == InFlight <==> s.h.token == InFlight
    requires s.h.token == Lost ==> s'.h.token == Lost
    ensures WireInv(t, s')
  {
  }

  lemma OthersKeepWire(t: Template, s: State, tid: Tid, ok: bool)
    requires TokenInv(s) && PendingInv(s) && Enabled(t, s, Run(tid, ok)) && !s.threads[tid].Post?
    ensures var s' := Apply(t, s, Run(tid, ok));
            && SameWire(s, s') && (s'.h.token == InFlight <==> s.h.token == InFlight)
            && (s.h.token == Lost ==> s'.h.token == Lost)
  {
    if s.h.token == Lost {
      LostStays(s, tid, ok);
    } else if s.h.token == InFlight {
      assert !HoldsToken(s.threads[tid]);
    }
  }

  lemma WireRun(t: Template, s: State, tid: Tid, ok: bool)
    requires Guards(s) && OrderInv(s) && AppendedInv(s) && FlightInv(t, s) && WireInv(t, s)
    requires Enabled(t, s, Run(tid, ok))
    ensures WireInv(t, Apply(t, s, Run(tid, ok)))
  {
    if !s.threads[tid].Post? {
      OthersKeepWire(t, s, tid, ok);
      WireKept(t, s, Apply(t, s, Run(tid, ok)));
    } else if !s.h.cutShort {
      WirePost(t, s, tid, ok);
    } else if !s.h.torn {
      ShortPost(t, s, tid, ok);
    }
  }

  lemma OneByteOn(wire: seq<Byte>, e: seq<Byte>, n: nat)
    requires n < |e|
    ensures (wire + [e[n]]) + e[n + 1..] == wire + e[n..]
  {
  }

  lemma WireTransmit(t: Template, s: State)
    requires TokenInv(s) && WireInv(t, s) && Enabled(t, s, Transmit)
    ensures WireInv(t, Apply(t, s, Transmit))
  {
    OneByteOn(s.wire, t.Encode(s.kernel[0].payload), s.progress);
  }

  lemma SameEnd(a: seq<Byte>, b: seq<Byte>, e: seq<Byte>)
    requires a + e == b + e
    ensures a == b
  {
    assert a == (a + e)[..|a|] && b == (b + e)[..|b|];
  }

  /** Skipping the last packet leaves those in front of it. */
  lemma SkipIsFront(front: seq<Packet>, p: Packet, skipped: set<Packet>)
    requires p !in front
    ensures Without(front + [p], skipped + {p}) == Without(front, skipped)
  {
    WithoutSnoc(front, p, skipped + {p});
    WithoutOther(front, p, skipped);
  }

  lemma SkipLast(t: Template, front: seq<Packet>, p: Packet, skipped: set<Packet>)
    requires p !in front && p !in skipped
    ensures Bytes(t, Without(front + [p], skipped))
         == Bytes(t, Without(front + [p], skipped + {p})) + t.Encode(p.payload)
  {
    WithoutSnoc(front, p, skipped);
    SkipIsFront(front, p, skipped);
    BytesSnoc(t, Without(front, skipped), p);
  }

  lemma FrontAndLast(s: State)
    requires NoRepeats(s.h.submitted) && s.h.submitted != []
    ensures var n := |s.h.submitted| - 1;
            s.h.submitted == s.h.submitted[..n] + [s.h.submitted[n]] && s.h.submitted[n] !in s.h.submitted[..n]
  {
    var n := |s.h.submitted| - 1;
    assert forall i :: 0 <= i < n ==> s.h.submitted[i] != s.h.submitted[n];
  }

  /** A packet none of whose bytes had gone out is as if it had never been submitted. */
  lemma SkipLeavesWire(t: Template, s: State)
    requires FlightInv(t, s) && s.h.token == InFlight && InTransit(t, s) && s.progress == 0 && NoRepeats(s.h.submitted)
    ensures s.wire == Bytes(t, Without(s.h.submitted, s.h.skipped + {s.kernel[0]}))
  {
    var p := s.kernel[0];
    var e := t.Encode(p.payload);
    FrontAndLast(s);
    SkipLast(t, Earlier(s), p, s.h.skipped);
    assert e[0..] == e;
    SameEnd(s.wire, Bytes(t, Without(s.h.submitted, s.h.skipped + {p})), e);
  }

  lemma SubmittedOnce(s: State)
    requires OrderInv(s) && AppendedInv(s)
    ensures NoRepeats(s.h.submitted)
  {
    assert forall i :: 0 <= i < |s.h.submitted| ==> s.h.submitted[i] == s.h.appended[i];
  }

  lemma WireComplete(t: Template, s: State, tid: Tid, index: nat, outcome: Outcome)
    requires TokenInv(s) && OrderInv(s) && AppendedInv(s) && FlightInv(t, s) && WireInv(t, s) && !s.h.cutShort
    requires Enabled(t, s, Complete(tid, index, outcome))
    ensures WireInv(t, Apply(t, s, Complete(tid, index, outcome)))
  {
    if !s.h.torn {
      var e := t.Encode(s.kernel[0].payload);
      assert e[|e|..] == [] && s.wire + [] == s.wire;
      if s.progress == 0 {
        SubmittedOnce(s);
        SkipLeavesWire(t, s);
      }
    }
  }

  /** Behind a packet that was cut short, the packet in the kernel may be skipped or count as submitted. */
  lemma ShortSettles(t: Template, s: State, skipped: set<Packet>)
    requires EndsShort(t, s) && s.h.token == InFlight && NoRepeats(s.h.submitted) && s.h.submitted != []
    requires skipped == s.h.skipped || skipped == s.h.skipped + {s.h.submitted[|s.h.submitted| - 1]}
    ensures s.wire <= Bytes(t, Without(s.h.submitted, skipped))
  {
    if skipped == s.h.skipped {
      StaysPrefix(t, s.wire, Earlier(s), s.h.submitted, skipped);
    } else {
      FrontAndLast(s);
      SkipIsFront(Earlier(s), s.h.submitted[|s.h.submitted| - 1], s.h.skipped);
    }
  }

  /** The packet behind one that was cut short completes: nothing of it had gone out. */
  lemma ShortComplete(t: Template, s: State, tid: Tid, index: nat, outcome: Outcome)
    requires TokenInv(s) && OrderInv(s) && AppendedInv(s) && FlightInv(t, s) && EndsShort(t, s)
    requires Enabled(t, s, Complete(tid, index, outcome))
    ensures EndsShort(t, Apply(t, s, Complete(tid, index, outcome)))
  {
    SubmittedOnce(s);
    ShortSettles(t, s, Apply(t, s, Complete(tid, index, outcome)).h.skipped);
  }

  lemma WireElse(t: Template, s: State, step: Step)
    requires TokenInv(s) && OrderInv(s) && AppendedInv(s) && FlightInv(t, s) && WireInv(t, s)
    requires Enabled(t, s, step) && !step.Run?
    ensures WireInv(t, Apply(t, s, step))
  {
    match step
    case Transmit => WireTransmit(t, s);
    case Complete(tid, index, outcome) =>
      if !s.h.cutShort {
        WireComplete(t, s, tid, index, outcome);
      } else if !s.h.torn {
        ShortComplete(t, s, tid, index, outcome);
      }
    case _ =>
  }

  /** The wire never carries anything but a beginning of what goes out. */
  lemma WireIsPrefix(t: Template, s: State)
    requires WireInv(t, s) && !s.h.torn
    ensures s.wire <= Bytes(t, Outgoing(s))
  {
    if s.h.cutShort {
      StaysPrefix(t, s.wire, Earlier(s), s.h.submitted, s.h.skipped);
    }
  }
}
