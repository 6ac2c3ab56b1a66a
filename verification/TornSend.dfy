/**
 * Why the end-to-end theorems speak of runs in which nothing went out behind a packet that was cut short. A send
 * that completes with an error that does not end the link may have put part of its packet on the wire; the next
 * packet is sent behind it all the same (tcp.c:843-849), and the receiver takes its first bytes for the missing
 * ones.
 */
module TornSend {
  import opened Templates
  import opened Framing
  import opened SendMachine
  import opened SendOwnership
  import opened SendTheorems
  import opened SendWire
  import opened SendProgress
  import opened EndToEnd

  /** It returns the token and frees the packet, */
  lemma FailureReleases(t: Template, o: State, s: State, tid: Tid, p: Packet) returns (s': State)
    requires From(t, o, s) && s.threads == map[tid := Failed(p, false)] && !s.unloading
    ensures From(t, o, s') && s'.threads == map[tid := FailedFree(p)]
    ensures SameOutside(s, s') && s'.queue == s.queue && s'.lock == s.lock && s'.h.appended == s.h.appended
  {
    s' := Advance(t, o, s, tid);
    s' := Advance(t, o, s', tid);
  }

  /** finds nothing to send, */
  lemma FailureLooks(t: Template, o: State, s: State, tid: Tid, p: Packet) returns (s': State)
    requires From(t, o, s) && s.threads == map[tid := FailedFree(p)] && s.lock.None? && s.queue == []
    ensures From(t, o, s') && s'.threads == map[tid := CheckQueue(Handler)] && s'.queue == []
    ensures SameOutside(s, s') && s'.h.appended == s.h.appended
  {
    s' := Advance(t, o, s, tid);
    s' := Advance(t, o, s', tid);
  }

  /** and goes. */
  lemma FailureLeaves(t: Template, o: State, s: State, tid: Tid) returns (s': State)
    requires From(t, o, s) && s.threads == map[tid := CheckQueue(Handler)] && s.queue == []
    ensures From(t, o, s') && s'.threads == map[tid := Return(Handler)]
    ensures SameOutside(s, s') && s'.h.appended == s.h.appended
  {
    s' := Advance(t, o, s, tid);
    s' := Advance(t, o, s', tid);
  }

  /** A send fails and leaves the link alive. The link comes to rest open, with what has gone out of the packet on the
      wire; the packet counts as skipped if that is nothing, and as cut short if it is a part of it. */
  lemma FailureEnds(t: Template, o: State, s: State) returns (s': State)
    requires From(t, o, s) && s.threads == map[] && |s.kernel| == 1 && !s.closed && s.queue == []
    ensures From(t, o, s') && s'.threads == map[] && s'.kernel == []
    ensures s'.wire == s.wire && !s'.closed && s'.h.appended == s.h.appended && s'.h.torn == s.h.torn
    ensures s'.h.cutShort == (s.h.cutShort || 0 < s.progress < |t.Encode(s.kernel[0].payload)|)
    ensures s'.h.skipped == if s.progress == 0 then s.h.skipped + {s.kernel[0]} else s.h.skipped
  {
    ReachableFrom(t, o, s);
    RestState(t, s);
    s' := PickUp(t, o, s, Error(false));
    s' := FailureReleases(t, o, s', 0, s.kernel[0]);
    s' := FailureLooks(t, o, s', 0, s.kernel[0]);
    s' := FailureLeaves(t, o, s', 0);
    s' := AloneReturns(t, o, s', 0, Handler);
  }

  /** A message is written on a link at rest, and n bytes of its packet go out. */
  lemma SendPart(t: Template, o: State, s: State, payload: seq<Byte>, n: nat) returns (s': State)
    requires From(t, o, s) && s.threads == map[] && s.kernel == [] && !s.closed && Encodable(t, payload)
    requires n <= |t.Encode(payload)|
    ensures From(t, o, s') && s'.threads == map[] && s'.queue == [] && !s'.closed
    ensures s'.kernel == [Packet(s.nextId, payload)] && s'.progress == n
    ensures s'.wire == s.wire + t.Encode(payload)[..n]
    ensures s'.h.appended == s.h.appended + [Packet(s.nextId, payload)]
    ensures s'.h.cutShort == s.h.cutShort && s'.h.skipped == s.h.skipped
    ensures s'.h.torn == (s.h.torn || (n > 0 && s.h.cutShort))
  {
    s' := IdleLinkSends(t, o, s, 0, payload);
    SentSlice(s.wire, t.Encode(payload), 0, n);
    assert t.Encode(payload)[0..n] == t.Encode(payload)[..n];
    s' := TransmitMany(t, o, s', n);
  }

  /** Two messages of one length, the first of them cut off behind its header; of the second as many bytes are
      on the wire as the first one lacks. */
  lemma TornRun(t: Template, a: seq<Byte>, b: seq<Byte>) returns (s: State)
    requires t.Lawful() && t.cb > 0 && Encodable(t, a) && |a| == |b|
    ensures Reachable(t, s) && s.h.torn && s.h.skipped == {}
    ensures var h := t.Built(|a|).value; s.wire == h + (h + b)[..|b|]
    ensures |s.h.appended| == 2 && s.h.appended[0].payload == a && s.h.appended[1].payload == b
  {
    var h := t.Built(|a|).value;
    LeadsNowhere(t, INITIAL);
    s := SendPart(t, INITIAL, INITIAL, a, t.cb);
    assert [] + (h + a)[..t.cb] == h;
    s := FailureEnds(t, INITIAL, s);
    s := SendPart(t, INITIAL, s, b, |b|);
  }

  /** With a header of any length and any lawful callbacks, for every message size that can be sent there is a
      run in which one packet is cut short and another goes out behind it, after which the receiver is handed
      something else than what was appended. */
  lemma TornSendBreaksOrder(t: Template, v: Shape, n: nat) returns (s: State)
    requires t.Lawful() && t.cb > 0 && v.cb == t.cb && !v.fullyReceive
    requires 0 < n <= MAXIMUM_PACKET_SIZE && t.Accepts(n)
    ensures Reachable(t, s) && s.h.torn && s.h.skipped == {}
    ensures !(Delivered(t, v, s.wire) <= Payloads(s.h.appended))
  {
    var h := t.Built(n).value;
    var a, b := seq(n, i => h[0] + 1), seq(n, i => 0);
    s := TornRun(t, a, b);
    var got := (h + b)[..n];
    RoundTrip(t, v, got);
    assert t.Encode(got) == s.wire;
    assert Delivered(t, v, s.wire)[0][0] == h[0] != a[0] == Payloads(s.h.appended)[0][0];
  }

  lemma CleanFailureRun(t: Template, a: seq<Byte>, b: seq<Byte>, all: bool) returns (s: State)
    requires Encodable(t, a) && Encodable(t, b) && t.Encode(a) != []
    ensures Reachable(t, s) && AtRest(s) && !s.h.torn && !s.h.cutShort
    ensures |s.h.appended| == 2 && s.h.appended[0].payload == a && s.h.appended[1].payload == b
    ensures s.h.skipped == if all then {} else {s.h.appended[0]}
  {
    LeadsNowhere(t, INITIAL);
    s := SendPart(t, INITIAL, INITIAL, a, if all then |t.Encode(a)| else 0);
    s := FailureEnds(t, INITIAL, s);
    s := WriteReachesWire(t, INITIAL, s, b);
  }

  /** A failed send of which nothing, or everything, has gone out does no harm: there is a run with such a send at its
      beginning and a message behind it, in which the receiver is handed exactly the messages that went out. */
  lemma CleanFailureKeepsOrder(t: Template, v: Shape, a: seq<Byte>, b: seq<Byte>, all: bool) returns (s: State)
    requires t.Lawful() && t.cb > 0 && v.cb == t.cb && !v.fullyReceive && Encodable(t, a) && Encodable(t, b)
    ensures Reachable(t, s) && !s.h.torn && !s.h.cutShort
    ensures |s.h.appended| == 2 && s.h.appended[0].payload == a && s.h.appended[1].payload == b
    ensures Delivered(t, v, s.wire) == if all then [a, b] else [b]
  {
    EncodedIsFrame(t, a);
    s := CleanFailureRun(t, a, b, all);
    AppendedOnce(t, s);
    ExpectedOfPair(t, s);
    WholeWireDelivers(t, v, s);
  }

  lemma ExpectedOfPair(t: Template, s: State)
    requires Reachable(t, s) && |s.h.appended| == 2 && s.h.appended[1] !in s.h.skipped
    ensures Payloads(Expected(s)) == if s.h.appended[0] in s.h.skipped then [s.h.appended[1].payload]
                                     else [s.h.appended[0].payload, s.h.appended[1].payload]
  {
    WithoutPair(s.h.appended, s.h.skipped);
  }

  lemma AppendedOnce(t: Template, s: State)
    requires Reachable(t, s)
    ensures NoRepeats(s.h.appended)
  {
    InvReachable(t, s);
  }

  lemma WithoutPair(ps: seq<Packet>, skipped: set<Packet>)
    requires |ps| == 2 && ps[1] !in skipped
    ensures Without(ps, skipped) == if ps[0] in skipped then [ps[1]] else ps
  {
    assert ps == [] + [ps[0]] + [ps[1]];
    WithoutSnoc([], ps[0], skipped);
    WithoutSnoc([ps[0]], ps[1], skipped);
  }
}
