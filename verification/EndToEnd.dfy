/** From tcp_write on one side to the user callback on the other. */
module EndToEnd {
  import opened Templates
  import Runs
  import opened Framing
  import opened ControlBlock
  import opened Reassembly
  import opened SendMachine
  import opened SendOwnership
  import opened SendWire
  import opened SendTheorems
  import opened SendProgress
  import opened SendWork

  // ----- one message

  /** A message laid out by tcp_write is one frame, and the receiver takes its header off again. */
  lemma RoundTrip(t: Template, v: Shape, payload: seq<Byte>)
    requires t.Lawful() && t.cb > 0 && v.cb == t.cb && Encodable(t, payload)
    ensures Parse(t, t.Encode(payload)) == Parsed([t.Encode(payload)], [], false)
    ensures Hand(v, t.Encode(payload)) == payload || v.fullyReceive
    ensures Delivered(t, v, t.Encode(payload)) == [payload] <==> !v.fullyReceive || t.cb + |payload| > v.capacity
  {
    var e := t.Encode(payload);
    EncodedIsFrame(t, payload);
    assert e[..|e|] == e && e[|e|..] == [];
    assert e[t.cb..] == payload;
    assert Parse(t, []) == Parsed([], [], false);
    assert Delivered(t, v, e) == [Hand(v, e)];
    assert Delivered(t, v, e) == [payload] ==> Delivered(t, v, e)[0] == payload;
  }

  lemma EncodedIsFrame(t: Template, payload: seq<Byte>)
    requires t.Lawful() && Encodable(t, payload)
    ensures WellFramed(t, t.Encode(payload)) && Announced(t, t.Encode(payload)) == Some(|t.Encode(payload)|)
    ensures |t.Encode(payload)| == t.cb + |payload|
  {
    assert t.Encode(payload)[..t.cb] == t.Built(|payload|).value;
  }

  /** A serializer that copies as many bytes as it is told. */
  const COPIES: Serializer := (origin, told) =>
    Some(if told < 0 then [] else if told > |origin| then origin else origin[..told])

  /** With a builder the last cb bytes of the message are not copied. */
  predicate CopiesPart(t: Template, payload: seq<Byte>, heap: seq<Byte>)
    requires |heap| == |payload|
  {
    var n := if t.builder.None? then |payload| else if |payload| < t.cb then 0 else |payload| - t.cb;
    Body(t, payload, Some(COPIES), heap) == Some(payload[..n] + heap[n..])
  }

  lemma CopyOfPart(t: Template, payload: seq<Byte>, heap: seq<Byte>)
    requires |heap| == |payload| > 0
    ensures CopiesPart(t, payload, heap)
    ensures t.builder.None? || t.cb == 0 ==> Body(t, payload, Some(COPIES), heap) == Some(payload)
  {
    var n := |payload|;
    assert payload[..n] == payload && heap[n..] == [] && payload + [] == payload && payload[..0] == [];
  }

  /** With a builder the memory shows through in the last cb bytes. So such a serializer leaves the whole message in
      the buffer, whatever the memory held before, exactly when there is no builder or no header. */
  lemma SerializerRoundTrip(t: Template, payload: seq<Byte>)
    requires Sendable(payload)
    ensures forall heap: seq<Byte> :: |heap| == |payload| ==> CopiesPart(t, payload, heap)
    ensures (forall heap: seq<Byte> :: |heap| == |payload| ==> Body(t, payload, Some(COPIES), heap) == Some(payload))
       <==> t.builder.None? || t.cb == 0
  {
    forall heap: seq<Byte> | |heap| == |payload|
      ensures CopiesPart(t, payload, heap)
      ensures t.builder.None? || t.cb == 0 ==> Body(t, payload, Some(COPIES), heap) == Some(payload)
    {
      CopyOfPart(t, payload, heap);
    }
    if t.builder.Some? && t.cb > 0 {
      var heap := CopyDiffers(t, payload);
    }
  }

  lemma CopyDiffers(t: Template, payload: seq<Byte>) returns (heap: seq<Byte>)
    requires Sendable(payload) && t.builder.Some? && t.cb > 0
    ensures |heap| == |payload| && Body(t, payload, Some(COPIES), heap) != Some(payload)
  {
    var n := |payload|;
    heap := seq(n, i requires 0 <= i < n => payload[i] + 1);
    CopyOfPart(t, payload, heap);
    assert Body(t, payload, Some(COPIES), heap).value[n - 1] == heap[n - 1] != payload[n - 1];
  }

  // ----- many messages

  function Encodings(t: Template, ps: seq<Packet>): (es: seq<seq<Byte>>)
    ensures |es| == |ps|
    ensures forall i :: 0 <= i < |ps| ==> es[i] == t.Encode(ps[i].payload)
  {
    seq(|ps|, i requires 0 <= i < |ps| => t.Encode(ps[i].payload))
  }

  function Payloads(ps: seq<Packet>): (xs: seq<seq<Byte>>)
    ensures |xs| == |ps|
    ensures forall i :: 0 <= i < |ps| ==> xs[i] == ps[i].payload
  {
    seq(|ps|, i requires 0 <= i < |ps| => ps[i].payload)
  }

  lemma EncodingsSnoc(t: Template, ps: seq<Packet>, p: Packet)
    ensures Encodings(t, ps + [p]) == Encodings(t, ps) + [t.Encode(p.payload)]
  {
  }

  lemma {:induction false} BytesAreFlat(t: Template, ps: seq<Packet>)
    ensures Bytes(t, ps) == Flatten(Encodings(t, ps))
  {
    if ps != [] {
      var front, p := ps[..|ps| - 1], ps[|ps| - 1];
      assert ps == front + [p];
      BytesAreFlat(t, front);
      BytesSnoc(t, front, p);
      EncodingsSnoc(t, front, p);
      FlattenSnoc(Encodings(t, front), t.Encode(p.payload));
    }
  }

  /** The bytes of whole messages divide into exactly those messages. */
  lemma ManyFrames(t: Template, ps: seq<Packet>)
    requires t.Lawful() && t.cb > 0 && forall p :: p in ps ==> Encodable(t, p.payload)
    ensures Parse(t, Bytes(t, ps)) == Parsed(Encodings(t, ps), [], false)
  {
    var es, s := Encodings(t, ps), Bytes(t, ps);
    BytesAreFlat(t, ps);
    forall i | 0 <= i < |es|
      ensures WellFramed(t, es[i])
    {
      assert ps[i] in ps;
      EncodedIsFrame(t, ps[i].payload);
    }
    assert Flatten(es) + [] == s;
    assert IsFraming(t, s, es, []);
    ParseIsTheFraming(t, s, es, []);
    RestIsShort(t, s);
  }

  lemma PartOfFrames(t: Template, whole: seq<Byte>, part: seq<Byte>)
    requires t.cb > 0 && part <= whole && !Parse(t, whole).bad
    ensures Parse(t, part).frames <= Parse(t, whole).frames && !Parse(t, part).bad
  {
    var rest := whole[|part|..];
    assert whole == part + rest;
    FramesOnlyGrow(t, part, rest);
    if Parse(t, part).bad {
      BadHeaderIsFinal(t, part, rest);
    }
  }

  /** What has arrived of a list of messages is, whole, the first of them. */
  lemma ArrivedFrames(t: Template, ps: seq<Packet>, received: seq<Byte>)
    requires t.Lawful() && t.cb > 0 && forall p :: p in ps ==> Encodable(t, p.payload)
    requires received <= Bytes(t, ps)
    ensures Parse(t, received).frames <= Encodings(t, ps) && !Parse(t, received).bad
  {
    ManyFrames(t, ps);
    PartOfFrames(t, Bytes(t, ps), received);
  }

  // ----- two links

  /** An open link on which nothing is under way. */
  ghost predicate AtRest(s: State) {
    s.threads == map[] && s.kernel == [] && !s.closed
  }

  /** What one tcp_write on a link at rest puts on the wire: the header that the builder writes, if there is one, and
      the user data behind it. */
  lemma WriteReachesWire(t: Template, o: State, s: State, payload: seq<Byte>) returns (s': State)
    requires From(t, o, s) && AtRest(s) && Encodable(t, payload)
    ensures From(t, o, s') && AtRest(s')
    ensures s'.wire == s.wire + (if t.builder.None? then [] else t.builder.value(|payload|).value) + payload
    ensures s'.h.appended == s.h.appended + [Packet(s.nextId, payload)]
    ensures SameFailures(s, s') && (!s.h.cutShort ==> s'.h.torn == s.h.torn)
  {
    ReachableFrom(t, o, s);
    QuiescentIsEmpty(t, s);
    s' := IdleLinkSends(t, o, s, 0, payload);
    var sent := s';
    s' := Completes(t, o, s');
    ReachableFrom(t, o, s');
    NothingBehind(t, sent, s');
    assert t.Encode(payload)[0..] == t.Encode(payload) && s.wire + [] == s.wire;
  }

  lemma NothingBehind(t: Template, s: State, s': State)
    requires Reachable(t, s') && s'.h.appended == s.h.appended == s.h.submitted
    requires s'.kernel == [] || |s'.h.submitted| > |s.h.submitted|
    ensures s'.kernel == []
  {
    FifoSubmission(t, s');
  }

  /** The messages are written one after another, and no send fails. */
  lemma {:induction false} EveryMessageGoesOut(t: Template, payloads: seq<seq<Byte>>) returns (s: State)
    requires forall i :: 0 <= i < |payloads| ==> Encodable(t, payloads[i])
    ensures From(t, INITIAL, s) && AtRest(s) && !s.h.torn && !s.h.cutShort && s.h.skipped == {}
    ensures Payloads(s.h.appended) == payloads
  {
    if payloads == [] {
      LeadsNowhere(t, INITIAL);
      s := INITIAL;
    } else {
      var n := |payloads| - 1;
      var before := EveryMessageGoesOut(t, payloads[..n]);
      s := WriteReachesWire(t, INITIAL, before, payloads[n]);
      assert payloads == payloads[..n] + [payloads[n]];
    }
  }

  /** Every list of messages that can be sent can be delivered: there is a run in which they are written one after
      another, no send fails, and the wire of the link at rest means exactly these messages. */
  lemma EveryMessageCanArrive(t: Template, v: Shape, payloads: seq<seq<Byte>>) returns (s: State)
    requires t.Lawful() && t.cb > 0 && v.cb == t.cb && !v.fullyReceive
    requires forall i :: 0 <= i < |payloads| ==> Encodable(t, payloads[i])
    ensures Reachable(t, s) && AtRest(s) && !s.h.torn && !s.h.cutShort && s.h.skipped == {}
    ensures Payloads(s.h.appended) == payloads && Delivered(t, v, s.wire) == payloads
  {
    s := EveryMessageGoesOut(t, payloads);
    ReachableFrom(t, INITIAL, s);
    ExpectedEncodable(t, s);
    WholeWireDelivers(t, v, s);
  }

  /** TCP delivers a byte stream in order (section 2.2 of RFC 9293): the receiver has some beginning of the wire. */
  ghost predicate Connected(s: State, ncb: Ncb)
    reads ncb
  {
    ncb.received <= s.wire
  }

  /** The packets that were appended, but for those whose send failed before any byte of them had gone out. */
  ghost function Expected(s: State): seq<Packet> {
    Without(s.h.appended, s.h.skipped)
  }

  lemma {:induction false} WithoutChooses(ps: seq<Packet>, skipped: set<Packet>)
    ensures forall p :: p in Without(ps, skipped) <==> p in ps && p !in skipped
  {
    if ps != [] {
      WithoutChooses(ps[..|ps| - 1], skipped);
      assert ps == ps[..|ps| - 1] + [ps[|ps| - 1]];
    }
  }

  lemma ExpectedEncodable(t: Template, s: State)
    requires Reachable(t, s)
    ensures forall p :: p in Expected(s) ==> Encodable(t, p.payload)
    ensures s.h.skipped == {} ==> Expected(s) == s.h.appended
  {
    InvReachable(t, s);
    WithoutChooses(s.h.appended, s.h.skipped);
    WithoutNone(s.h.appended);
  }

  lemma WireOfAppended(t: Template, s: State)
    requires Reachable(t, s) && !s.h.torn
    ensures s.wire <= Bytes(t, Expected(s))
  {
    InvReachable(t, s);
    FifoSubmission(t, s);
    WireIsPrefix(t, s);
    WithoutPrefix(s.h.submitted, s.h.appended, s.h.skipped);
    BytesPrefix(t, Outgoing(s), Expected(s));
  }

  lemma HandsPayloads(t: Template, v: Shape, ps: seq<Packet>)
    requires t.Lawful() && v.cb == t.cb && !v.fullyReceive && forall p :: p in ps ==> Encodable(t, p.payload)
    ensures Hands(v, Encodings(t, ps)) == Payloads(ps)
  {
    forall i | 0 <= i < |ps|
      ensures Hand(v, Encodings(t, ps)[i]) == ps[i].payload
    {
      assert ps[i] in ps;
      EncodedIsFrame(t, ps[i].payload);
      assert t.Encode(ps[i].payload)[t.cb..] == ps[i].payload;
    }
  }

  /**
   * End to end. Any number of threads write, in any interleaving and with any outcome of the outside calls.
   * As long as no byte has gone out behind a packet that was cut short, whatever beginning of the wire a receiver
   * has got, with a buffer of any size, it must hand over the expected frames in the order of the list appends,
   * each whole and once, up to some point; and without LINKATTR_TCP_FULLY_RECEIVE their payloads.
   */
  lemma DeliveredInOrder(t: Template, v: Shape, s: State, received: seq<Byte>)
    requires t.Lawful() && t.cb > 0 && v.cb == t.cb
    requires Reachable(t, s) && !s.h.torn && received <= s.wire
    ensures Parse(t, received).frames <= Encodings(t, Expected(s))
    ensures Delivered(t, v, received) <= Hands(v, Encodings(t, Expected(s)))
    ensures !v.fullyReceive ==> Delivered(t, v, received) <= Payloads(Expected(s))
  {
    WireOfAppended(t, s);
    ExpectedEncodable(t, s);
    ArrivedFrames(t, Expected(s), received);
    HandsPrefix(v, Parse(t, received).frames, Encodings(t, Expected(s)));
    if !v.fullyReceive {
      HandsPayloads(t, v, Expected(s));
    }
  }

  /** The same of a receiving link: the bytes arrive in segments of any length, and the link may have ended. */
  lemma MessagesInOrder(s: State, ncb: Ncb, packet: RecvPacket)
    requires ncb.tst.Lawful() && ncb.tst.cb > 0 && !ncb.fullyReceive
    requires Reachable(ncb.tst, s) && !s.h.torn
    requires Faithful(ncb, packet, ncb.received) && Connected(s, ncb)
    ensures ncb.handed <= Payloads(Expected(s))
  {
    HandedIsDelivered(ncb, packet);
    DeliveredInOrder(ncb.tst, ShapeOf(ncb, packet), s, ncb.received);
  }

  /** With LINKATTR_TCP_FULLY_RECEIVE the same holds of the frames, and each is handed over as its size asks. */
  lemma FramesInOrder(s: State, ncb: Ncb, packet: RecvPacket)
    requires ncb.tst.Lawful() && ncb.tst.cb > 0
    requires Reachable(ncb.tst, s) && !s.h.torn
    requires Faithful(ncb, packet, ncb.received) && Connected(s, ncb)
    ensures ncb.cut <= Encodings(ncb.tst, Expected(s))
    ensures ncb.handed <= Hands(ShapeOf(ncb, packet), Encodings(ncb.tst, Expected(s)))
  {
    HandedIsDelivered(ncb, packet);
    DeliveredInOrder(ncb.tst, ShapeOf(ncb, packet), s, ncb.received);
  }

  /** Without a builder, or with an empty header, the bytes on the wire are those of the messages and nothing else. */
  lemma {:induction false} BytesAreRaw(t: Template, ps: seq<Packet>)
    requires t.builder.None? || (t.Lawful() && t.cb == 0 && forall p :: p in ps ==> Encodable(t, p.payload))
    ensures Bytes(t, ps) == Flatten(Payloads(ps))
  {
    if ps != [] {
      var front, p := ps[..|ps| - 1], ps[|ps| - 1];
      assert ps == front + [p] && p in ps;
      BytesAreRaw(t, front);
      BytesSnoc(t, front, p);
      assert Payloads(ps) == Payloads(front) + [p.payload];
      FlattenSnoc(Payloads(front), p.payload);
      assert t.Encode(p.payload) == p.payload;
    }
  }

  /** Without a template the bytes of the messages arrive in the order of the list appends; and when the sender has come
      to rest and everything has arrived, it is exactly those. */
  lemma BytesInOrder(s: State, ncb: Ncb, packet: RecvPacket)
    requires ncb.tst.cb == 0 && (ncb.tst.builder.None? || ncb.tst.Lawful())
    requires Reachable(ncb.tst, s) && !s.h.torn
    requires Faithful(ncb, packet, ncb.received) && Connected(s, ncb)
    ensures Flatten(ncb.handed) <= Flatten(Payloads(Expected(s)))
    ensures ncb.received == s.wire && AtRest(s) && !s.h.cutShort ==>
              Flatten(ncb.handed) == Flatten(Payloads(Expected(s)))
  {
    WireOfAppended(ncb.tst, s);
    ExpectedEncodable(ncb.tst, s);
    BytesAreRaw(ncb.tst, Expected(s));
    HandedIsDelivered(ncb, packet);
    if AtRest(s) && !s.h.cutShort {
      WholeWire(ncb.tst, s);
    }
  }

  /** The wire of a sender at rest carries all that was expected. */
  lemma WholeWire(t: Template, s: State)
    requires Reachable(t, s) && !s.h.torn && !s.h.cutShort && AtRest(s)
    ensures s.wire == Bytes(t, Expected(s))
  {
    InvReachable(t, s);
    QuiescentIsEmpty(t, s);
  }

  /** A receiver never meets a bad header from such a sender. */
  lemma NoBadHeader(t: Template, s: State, received: seq<Byte>)
    requires t.Lawful() && t.cb > 0
    requires Reachable(t, s) && !s.h.torn && received <= s.wire
    ensures !Parse(t, received).bad
  {
    WireOfAppended(t, s);
    ExpectedEncodable(t, s);
    ArrivedFrames(t, Expected(s), received);
  }

  /** Nothing is held back: when the sender has come to rest, its wire means all that was ever accepted. */
  lemma WholeWireDelivers(t: Template, v: Shape, s: State)
    requires t.Lawful() && t.cb > 0 && v.cb == t.cb
    requires Reachable(t, s) && !s.h.torn && !s.h.cutShort && AtRest(s)
    ensures Parse(t, s.wire).rest == [] && Delivered(t, v, s.wire) == Hands(v, Encodings(t, Expected(s)))
    ensures !v.fullyReceive ==> Delivered(t, v, s.wire) == Payloads(Expected(s))
  {
    WholeWire(t, s);
    ExpectedEncodable(t, s);
    ManyFrames(t, Expected(s));
    if !v.fullyReceive {
      HandsPayloads(t, v, Expected(s));
    }
  }

  /**
   * Every run comes to rest: one without new requests takes no more steps than there was work to do, and when it
   * cannot go on, has left the link open and has cut no packet short, the wire means everything that was expected.
   */
  lemma EveryRunDelivers(t: Template, v: Shape, path: seq<State>)
    requires t.Lawful() && t.cb > 0 && v.cb == t.cb && !v.fullyReceive
    requires Runs.IsRun(InnerNext(t), path) && Reachable(t, path[0])
    ensures |path| <= Work(t, path[0]) + 1
    ensures var s := path[|path| - 1];
            !s.closed && !s.h.cutShort && !s.h.torn && (forall step :: Inner(step) ==> !Enabled(t, s, step)) ==>
              Delivered(t, v, s.wire) == Payloads(Expected(s)) && s.h.submitted == s.h.appended
  {
    var s := path[|path| - 1];
    EveryRunRests(t, path);
    WorkAlong(t, path, |path| - 1);
    if !s.closed && !s.h.cutShort && !s.h.torn && forall step :: Inner(step) ==> !Enabled(t, s, step) {
      WholeWireDelivers(t, v, s);
    }
  }

  /**
   * And some run gets there: from every state of an open link with no thread about to close it and no packet cut
   * short, one brings the wire to mean everything that was appended, but for what had been skipped before.
   */
  lemma CanDeliverEverything(t: Template, v: Shape, s: State) returns (s': State)
    requires t.Lawful() && t.cb > 0 && v.cb == t.cb && !v.fullyReceive
    requires Reachable(t, s) && !s.h.torn && !s.h.cutShort && Calm(s)
    ensures Leads(t, s, s') && AtRest(s') && s.h.appended <= s'.h.appended && s'.h.skipped == s.h.skipped
    ensures Delivered(t, v, s'.wire) == Payloads(Expected(s'))
  {
    s' := CanComeToRest(t, s);
    WholeWireDelivers(t, v, s');
  }

  /** Once everything has arrived, every payload that was ever accepted has been handed over. */
  lemma EverythingArrives(s: State, ncb: Ncb, packet: RecvPacket)
    requires ncb.tst.Lawful() && ncb.tst.cb > 0 && !ncb.fullyReceive
    requires Reachable(ncb.tst, s) && !s.h.torn && !s.h.cutShort && AtRest(s)
    requires Faithful(ncb, packet, ncb.received) && ncb.received == s.wire
    ensures ncb.handed == Payloads(Expected(s))
  {
    HandedIsDelivered(ncb, packet);
    WholeWireDelivers(ncb.tst, ShapeOf(ncb, packet), s);
  }

  /**
   * A whole run. A link is opened and receives what has arrived of a sender's wire, in segments of any length and
   * with any outcome of its own outside calls. What it hands over are the expected payloads, in order, up to some
   * point. When its calls go well it stays open and takes all that has arrived; and if that is the wire of a sender
   * at rest, every expected payload has been handed over.
   */
  method Transfer(t: Template, capacity: nat, ghost s: State, arrived: seq<Byte>, wants: nat -> nat,
                  completions: nat -> Completion) returns (ncb: Ncb, posted: bool)
    requires t.Lawful() && t.cb > 0 && Reachable(t, s) && !s.h.torn && arrived <= s.wire
    ensures ncb.tst == t && Connected(s, ncb) && ncb.handed <= Payloads(Expected(s))
    ensures RunsWell(wants, completions) && 0 < t.cb <= capacity ==>
              posted && !ncb.closed && ncb.received == arrived
    ensures (forall i: nat :: Refers(completions(i))) ==> ncb.closed == !posted
    ensures RunsWell(wants, completions) && 0 < t.cb <= capacity && arrived == s.wire && AtRest(s) && !s.h.cutShort ==>
              ncb.handed == Payloads(Expected(s))
  {
    var packet;
    ncb, packet := Open(t, false, capacity, true, true);
    assert [] + arrived == arrived;
    NoBadHeader(t, s, arrived);
    var left;
    posted, left := Receive(ncb, packet, arrived, wants, completions);
    assert ncb.received + left == arrived && (left == [] ==> ncb.received == arrived);
    MessagesInOrder(s, ncb, packet);
    if ncb.received == s.wire && AtRest(s) && !s.h.cutShort {
      EverythingArrives(s, ncb, packet);
    }
  }
}
