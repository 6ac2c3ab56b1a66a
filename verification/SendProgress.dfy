/** The send side does send: what runs there are from a state of the machine. */
module SendProgress {
  import opened Templates
  import Runs
  import opened SendMachine
  import opened SendInvariants
  import opened SendOwnership
  import opened SendWire
  import opened SendTheorems

  /** Some run leads from o, a state of some run, to s. */
  ghost predicate From(t: Template, o: State, s: State) {
    Reachable(t, o) && Leads(t, o, s)
  }

  lemma InvFrom(t: Template, o: State, s: State)
    requires From(t, o, s)
    ensures Inv(t, s)
  {
    InvReachable(t, o);
    InvLeads(t, o, s);
  }

  lemma ReachableFrom(t: Template, o: State, s: State)
    requires From(t, o, s)
    ensures Reachable(t, s)
  {
    Runs.LeadsThrough(Next(t), INITIAL, o, s);
  }

  // ----- every thread can be run to its end

  /** The link is open, and no thread is about to close it. */
  ghost predicate Calm(s: State) {
    !s.closed && forall i :: i in s.threads ==> !WillClose(s.threads[i])
  }

  /** The thread may still link a packet. */
  predicate MayLink(pc: Pc) {
    pc.PreCheck? || pc.Build? || Unlinked(pc)
  }

  /** No send has failed in between. */
  ghost predicate SameFailures(s: State, s': State) {
    s'.h.skipped == s.h.skipped && s'.h.cutShort == s.h.cutShort
  }

  /** No send was dropped in between, and what was appended and submitted has at most grown. */
  ghost predicate Goes(s: State, s': State) {
    && SameFailures(s, s') && s'.h.torn == s.h.torn && s'.wire == s.wire
    && s.h.appended <= s'.h.appended
    && |s.h.submitted| <= |s'.h.submitted|
    && (|s.h.submitted| == |s'.h.submitted| ==> s'.kernel == s.kernel && s'.progress == s.progress)
    && !s'.closed
  }

  /** The operation goes well: memory is there, the link is referenced, the post succeeds. */
  function Well(t: Template, pc: Pc): bool {
    pc.Build? ==> t.Accepts(|pc.payload|)
  }

  lemma WellPc(t: Template, s: State, tid: Tid)
    requires tid in s.threads && (s.threads[tid].Pop? ==> s.queue != []) && !WillClose(s.threads[tid])
    ensures var pc, pc' := s.threads[tid], NextPc(s, tid, Well(t, s.threads[tid]));
            && (pc'.Some? ==> !WillClose(pc'.value))
            && (pc'.Some? && MayLink(pc'.value) ==> MayLink(pc))
            && !pc.Shut?
  {
  }

  lemma WellEnabled(t: Template, o: State, s: State, tid: Tid)
    requires From(t, o, s) && Calm(s) && tid in s.threads && (s.lock.None? || s.lock == Some(tid))
    ensures Enabled(t, s, Run(tid, Well(t, s.threads[tid])))
  {
    InvFrom(t, o, s);
  }

  lemma WellCalm(t: Template, s: State, tid: Tid)
    requires Calm(s) && tid in s.threads && Enabled(t, s, Run(tid, Well(t, s.threads[tid])))
    ensures Calm(RunThread(s, tid, Well(t, s.threads[tid])))
  {
    WellPc(t, s, tid);
  }

  lemma WellGoes(t: Template, s: State, tid: Tid)
    requires Calm(s) && tid in s.threads && Enabled(t, s, Run(tid, Well(t, s.threads[tid])))
    ensures var s' := RunThread(s, tid, Well(t, s.threads[tid]));
            Goes(s, s') && (!MayLink(s.threads[tid]) ==> s'.h.appended == s.h.appended)
  {
  }

  lemma WellShrinks(t: Template, o: State, s: State, tid: Tid)
    requires From(t, o, s) && tid in s.threads && Enabled(t, s, Run(tid, Well(t, s.threads[tid])))
    ensures var pc' := NextPc(s, tid, Well(t, s.threads[tid])); pc'.Some? ==> Rank(pc'.value) < Rank(s.threads[tid])
  {
    ReachableFrom(t, o, s);
    CallsAreBounded(t, s, tid, Well(t, s.threads[tid]));
  }

  lemma WellStep(t: Template, o: State, s: State, tid: Tid) returns (s': State)
    requires From(t, o, s) && Calm(s) && tid in s.threads && (s.lock.None? || s.lock == Some(tid))
    ensures From(t, o, s') && Calm(s') && Goes(s, s') && (s'.lock.None? || s'.lock == Some(tid))
    ensures s'.threads == if tid in s'.threads then s.threads[tid := s'.threads[tid]] else s.threads - {tid}
    ensures !MayLink(s.threads[tid]) ==> s'.h.appended == s.h.appended
    ensures tid in s'.threads ==> Rank(s'.threads[tid]) < Rank(s.threads[tid])
    ensures tid in s'.threads && MayLink(s'.threads[tid]) ==> MayLink(s.threads[tid])
  {
    var ok := Well(t, s.threads[tid]);
    WellEnabled(t, o, s, tid);
    WellPc(t, s, tid);
    WellCalm(t, s, tid);
    WellGoes(t, s, tid);
    WellShrinks(t, o, s, tid);
    LeadsOn(t, o, s, Run(tid, ok));
    s' := RunThread(s, tid, ok);
  }

  /** One thread alone runs to the end of its call. */
  lemma {:induction false} RunOut(t: Template, o: State, s: State, tid: Tid) returns (s': State)
    requires From(t, o, s) && Calm(s) && tid in s.threads && (s.lock.None? || s.lock == Some(tid))
    ensures From(t, o, s') && Calm(s') && Goes(s, s') && s'.lock.None?
    ensures s'.threads == s.threads - {tid}
    ensures !MayLink(s.threads[tid]) ==> s'.h.appended == s.h.appended
    decreases Rank(s.threads[tid])
  {
    s' := WellStep(t, o, s, tid);
    if tid in s'.threads {
      var s1 := s';
      s' := RunOut(t, o, s1, tid);
      assert s'.threads == s.threads - {tid};
    } else {
      InvFrom(t, o, s');
    }
  }

  lemma OneLess(m: map<Tid, Pc>, tid: Tid)
    requires tid in m
    ensures |m - {tid}| < |m|
  {
    assert (m - {tid}).Keys == m.Keys - {tid};
  }

  /** All threads run to the end of their calls, one after another, the lock holder first. */
  lemma {:induction false} AllRunOut(t: Template, o: State, s: State) returns (s': State)
    requires From(t, o, s) && Calm(s)
    ensures From(t, o, s') && Calm(s') && Goes(s, s') && s'.threads == map[]
    decreases |s.threads|
  {
    s' := s;
    if s.threads != map[] {
      InvFrom(t, o, s);
      var tid: Tid;
      if s.lock.Some? {
        tid := s.lock.value;
      } else {
        tid :| tid in s.threads;
      }
      var s1 := RunOut(t, o, s, tid);
      OneLess(s.threads, tid);
      s' := AllRunOut(t, o, s1);
    }
  }

  // ----- the packet in the kernel goes out

  /** The wire when n more bytes of a packet are on it. */
  ghost function Sent(wire: seq<Byte>, packet: seq<Byte>, from: nat, n: nat): seq<Byte>
    requires from + n <= |packet|
  {
    if n == 0 then wire else Sent(wire, packet, from, n - 1) + [packet[from + n - 1]]
  }

  lemma {:induction false} SentSlice(wire: seq<Byte>, packet: seq<Byte>, from: nat, n: nat)
    requires from + n <= |packet|
    ensures Sent(wire, packet, from, n) == wire + packet[from..from + n]
  {
    if n == 0 {
      assert packet[from..from] == [];
    } else {
      SentSlice(wire, packet, from, n - 1);
      assert packet[from..from + n] == packet[from..from + n - 1] + [packet[from + n - 1]];
    }
  }

  lemma TransmitOne(t: Template, o: State, s: State) returns (s': State)
    requires From(t, o, s) && |s.kernel| == 1 && s.progress < |t.Encode(s.kernel[0].payload)|
    ensures From(t, o, s')
    ensures s' == s.(wire := s.wire + [t.Encode(s.kernel[0].payload)[s.progress]], progress := s.progress + 1,
                     h := s.h.(torn := s.h.torn || s.h.cutShort))
  {
    LeadsOn(t, o, s, Transmit);
    s' := Apply(t, s, Transmit);
  }

  lemma {:induction false} TransmitMany(t: Template, o: State, s: State, n: nat) returns (s': State)
    requires From(t, o, s) && |s.kernel| == 1 && s.progress + n <= |t.Encode(s.kernel[0].payload)|
    ensures From(t, o, s')
    ensures s' == s.(wire := Sent(s.wire, t.Encode(s.kernel[0].payload), s.progress, n), progress := s.progress + n,
                     h := s.h.(torn := s.h.torn || (n > 0 && s.h.cutShort)))
  {
    s' := s;
    if n > 0 {
      s' := TransmitMany(t, o, s, n - 1);
      s' := TransmitOne(t, o, s');
    }
  }

  lemma PickUp(t: Template, o: State, s: State, outcome: Outcome) returns (s': State)
    requires From(t, o, s) && s.threads == map[] && |s.kernel| == 1
    requires outcome.Sent? ==> s.progress == |t.Encode(s.kernel[0].payload)|
    ensures From(t, o, s') && s' == CompleteSend(t, s, 0, 0, outcome)
  {
    LeadsOn(t, o, s, Complete(0, 0, outcome));
    s' := Apply(t, s, Complete(0, 0, outcome));
  }

  lemma TransmitRest(t: Template, o: State, s: State) returns (s': State)
    requires From(t, o, s) && |s.kernel| == 1 && s.progress <= |t.Encode(s.kernel[0].payload)|
    ensures From(t, o, s') && s'.progress == |t.Encode(s.kernel[0].payload)|
    ensures s'.wire == s.wire + t.Encode(s.kernel[0].payload)[s.progress..]
    ensures s' == s.(wire := s'.wire, progress := s'.progress, h := s.h.(torn := s'.h.torn))
    ensures !s.h.cutShort ==> s'.h.torn == s.h.torn
  {
    var e := t.Encode(s.kernel[0].payload);
    var n := |e| - s.progress;
    SentSlice(s.wire, e, s.progress, n);
    assert e[s.progress..s.progress + n] == e[s.progress..];
    s' := TransmitMany(t, o, s, n);
  }

  /** The packet in the kernel goes out whole, and a thread is told. */
  lemma GoesOut(t: Template, o: State, s: State) returns (s': State)
    requires From(t, o, s) && Calm(s) && s.threads == map[] && s.kernel != []
    ensures From(t, o, s') && Calm(s') && s'.threads == map[0 := SendDone(s.kernel[0])] && s'.lock.None?
    ensures s'.kernel == [] && s'.h.submitted == s.h.submitted && s'.h.appended == s.h.appended
    ensures s.progress <= |t.Encode(s.kernel[0].payload)|
    ensures s'.wire == s.wire + t.Encode(s.kernel[0].payload)[s.progress..]
    ensures SameFailures(s, s') && (!s.h.cutShort ==> s'.h.torn == s.h.torn)
  {
    InvFrom(t, o, s);
    s' := TransmitRest(t, o, s);
    s' := PickUp(t, o, s', Outcome.Sent);
  }

  /** That thread runs to its end; if it has found a packet, it has submitted it. */
  lemma Completes(t: Template, o: State, s: State) returns (s': State)
    requires From(t, o, s) && Calm(s) && s.threads == map[] && s.kernel != []
    ensures From(t, o, s') && Calm(s') && s'.threads == map[]
    ensures SameFailures(s, s') && (!s.h.cutShort ==> s'.h.torn == s.h.torn) && s'.h.appended == s.h.appended
    ensures s'.kernel == [] || |s'.h.submitted| > |s.h.submitted|
    ensures s.progress <= |t.Encode(s.kernel[0].payload)|
    ensures s'.wire == s.wire + t.Encode(s.kernel[0].payload)[s.progress..]
  {
    s' := GoesOut(t, o, s);
    s' := RunOut(t, o, s', 0);
  }

  lemma {:induction false} AllSent(t: Template, o: State, s: State) returns (s': State)
    requires From(t, o, s) && Calm(s) && s.threads == map[]
    ensures From(t, o, s') && Calm(s') && s'.threads == map[] && s'.kernel == []
    ensures SameFailures(s, s') && (!s.h.cutShort ==> s'.h.torn == s.h.torn) && s'.h.appended == s.h.appended
    decreases |s.h.appended| - |s.h.submitted|
  {
    s' := s;
    if s.kernel != [] {
      var s1 := Completes(t, o, s);
      if s1.kernel == [] {
        s' := s1;
      } else {
        ReachableFrom(t, o, s1);
        FifoSubmission(t, s1);
        s' := AllSent(t, o, s1);
      }
    }
  }

  /**
   * From every state of an open link with no thread about to close it, some run without a failing send brings
   * the link to rest, open, with everything appended submitted and nothing left in the kernel.
   */
  lemma CanComeToRest(t: Template, s: State) returns (s': State)
    requires Reachable(t, s) && Calm(s)
    ensures Leads(t, s, s') && Reachable(t, s')
    ensures s'.threads == map[] && s'.kernel == [] && s'.queue == [] && !s'.closed
    ensures s.h.appended <= s'.h.appended == s'.h.submitted
    ensures SameFailures(s, s') && (!s.h.cutShort ==> s'.h.torn == s.h.torn)
  {
    LeadsNowhere(t, s);
    s' := AllRunOut(t, s, s);
    s' := AllSent(t, s, s');
    ReachableFrom(t, s, s');
    QuiescentIsEmpty(t, s');
  }

  // ----- a single write on a link at rest

  lemma Advance(t: Template, o: State, s: State, tid: Tid) returns (s': State)
    requires From(t, o, s) && Enabled(t, s, Run(tid, true))
    ensures From(t, o, s') && s' == RunThread(s, tid, true)
  {
    LeadsOn(t, o, s, Run(tid, true));
    s' := RunThread(s, tid, true);
  }

  /** Nothing but the thread itself, the list, its counter, the lock and the allocations has changed. */
  ghost predicate SameOutside(s: State, s': State) {
    && s'.kernel == s.kernel && s'.wire == s.wire && s'.progress == s.progress
    && s'.closed == s.closed && s'.unloading == s.unloading && s'.h.submitted == s.h.submitted
    && SameFailures(s, s') && s'.h.torn == s.h.torn
  }

  lemma AloneBuilds(t: Template, o: State, s: State, tid: Tid, payload: seq<Byte>) returns (s': State)
    requires From(t, o, s) && s.threads == map[] && !s.unloading && s.listSize < MAXIMUM_SENDER_CACHED
    requires Encodable(t, payload)
    ensures From(t, o, s') && s'.threads == map[tid := EnterWith(Packet(s.nextId, payload))]
    ensures s' == s.(threads := s'.threads, nextId := s'.nextId, h := s'.h)
    ensures SameOutside(s, s') && s'.h.appended == s.h.appended
  {
    LeadsOn(t, o, s, Write(tid, payload));
    s' := Apply(t, s, Write(tid, payload));
    s' := Advance(t, o, s', tid);
    s' := Advance(t, o, s', tid);
  }

  lemma AloneCounts(t: Template, o: State, s: State, tid: Tid, p: Packet) returns (s': State)
    requires From(t, o, s) && s.threads == map[tid := EnterWith(p)] && s.lock.None?
    requires s.listSize + 1 < MAXIMUM_SENDER_CACHED
    ensures From(t, o, s') && s'.threads == map[tid := Append(p)]
    ensures s' == s.(threads := s'.threads, lock := Some(tid), listSize := s.listSize + 1, h := s'.h)
    ensures SameOutside(s, s') && s'.h.appended == s.h.appended
  {
    s' := Advance(t, o, s, tid);
    s' := Advance(t, o, s', tid);
  }

  lemma AloneLinks(t: Template, o: State, s: State, tid: Tid, p: Packet) returns (s': State)
    requires From(t, o, s) && s.threads == map[tid := Append(p)]
    ensures From(t, o, s') && s'.threads == map[tid := Probe(Writer, 0)]
    ensures s' == s.(threads := s'.threads, queue := s.queue + [p], h := s'.h)
    ensures SameOutside(s, s') && s'.h.appended == s.h.appended + [p]
  {
    s' := Advance(t, o, s, tid);
  }

  lemma AloneUnlinks(t: Template, o: State, s: State, tid: Tid, p: Packet) returns (s': State)
    requires From(t, o, s) && s.threads == map[tid := Probe(Writer, 0)] && s.queue == [p] && s.pending == 0
    ensures From(t, o, s') && s'.threads == map[tid := Discount(Writer, p)] && s'.queue == []
    ensures SameOutside(s, s') && s'.h.appended == s.h.appended
  {
    s' := Advance(t, o, s, tid);
    s' := Advance(t, o, s', tid);
  }

  lemma AloneLeaves(t: Template, o: State, s: State, tid: Tid, p: Packet) returns (s': State)
    requires From(t, o, s) && s.threads == map[tid := Discount(Writer, p)]
    ensures From(t, o, s') && s'.threads == map[tid := Post(Writer, p)] && s'.queue == s.queue && s'.lock.None?
    ensures SameOutside(s, s') && s'.h.appended == s.h.appended
  {
    s' := Advance(t, o, s, tid);
    s' := Advance(t, o, s', tid);
  }

  lemma AlonePosts(t: Template, o: State, s: State, tid: Tid, p: Packet) returns (s': State)
    requires From(t, o, s) && s.threads == map[tid := Post(Writer, p)] && s.kernel == []
    ensures From(t, o, s') && s'.threads == map[tid := Return(Writer)]
    ensures s' == s.(threads := s'.threads, kernel := [p], h := s'.h)
    ensures s'.h.submitted == s.h.submitted + [p] && s'.h.appended == s.h.appended
    ensures SameFailures(s, s') && s'.h.torn == s.h.torn
  {
    s' := Advance(t, o, s, tid);
  }

  lemma AloneReleases(t: Template, o: State, s: State, tid: Tid) returns (s': State)
    requires From(t, o, s) && s.threads == map[tid := Release]
    ensures From(t, o, s') && s'.threads == map[] && s'.queue == s.queue && s'.lock == s.lock
    ensures SameOutside(s, s') && s'.h == s.h
  {
    s' := Advance(t, o, s, tid);
  }

  lemma ToRelease(t: Template, o: State, s: State, tid: Tid, c: Caller) returns (s': State)
    requires From(t, o, s) && s.threads == map[tid := Return(c)]
    ensures From(t, o, s') && s'.threads == map[tid := Release] && s'.queue == s.queue && s'.lock == s.lock
    ensures SameOutside(s, s') && s'.h.appended == s.h.appended
    ensures !c.Completion? ==> s'.h.place == s.h.place && s'.h.freed == s.h.freed
  {
    s' := Advance(t, o, s, tid);
  }

  lemma AloneReturns(t: Template, o: State, s: State, tid: Tid, c: Caller) returns (s': State)
    requires From(t, o, s) && s.threads == map[tid := Return(c)]
    ensures From(t, o, s') && s'.threads == map[] && s'.queue == s.queue && s'.lock == s.lock
    ensures SameOutside(s, s') && s'.h.appended == s.h.appended
    ensures !c.Completion? ==> s'.h.place == s.h.place && s'.h.freed == s.h.freed
  {
    s' := ToRelease(t, o, s, tid, c);
    s' := AloneReleases(t, o, s', tid);
  }

  /** On an open link at rest a single tcp_write gets as far as posting its packet. */
  lemma AlonePrepares(t: Template, o: State, s: State, tid: Tid, payload: seq<Byte>) returns (s': State)
    requires From(t, o, s) && s.threads == map[] && s.kernel == [] && !s.closed && Encodable(t, payload)
    ensures From(t, o, s') && s'.threads == map[tid := Post(Writer, Packet(s.nextId, payload))]
    ensures s'.queue == [] && s'.lock.None? && SameOutside(s, s')
    ensures s'.h.appended == s.h.appended + [Packet(s.nextId, payload)]
  {
    ReachableFrom(t, o, s);
    QuiescentIsEmpty(t, s);
    RestState(t, s);
    var p := Packet(s.nextId, payload);
    s' := AloneBuilds(t, o, s, tid, payload);
    s' := AloneCounts(t, o, s', tid, p);
    s' := AloneLinks(t, o, s', tid, p);
    s' := AloneUnlinks(t, o, s', tid, p);
    s' := AloneLeaves(t, o, s', tid, p);
  }

  /** On an open link at rest a single tcp_write gets its packet to the kernel. */
  lemma IdleLinkSends(t: Template, o: State, s: State, tid: Tid, payload: seq<Byte>) returns (s': State)
    requires From(t, o, s) && s.threads == map[] && s.kernel == [] && !s.closed && Encodable(t, payload)
    ensures From(t, o, s') && s'.threads == map[] && s'.queue == [] && s'.lock.None? && !s'.closed
    ensures s'.kernel == [Packet(s.nextId, payload)] && s'.progress == 0 && s'.wire == s.wire
    ensures s'.h.submitted == s.h.submitted + [Packet(s.nextId, payload)]
    ensures s'.h.appended == s.h.appended + [Packet(s.nextId, payload)]
    ensures SameFailures(s, s') && s'.h.torn == s.h.torn
  {
    ReachableFrom(t, o, s);
    RestState(t, s);
    var p := Packet(s.nextId, payload);
    s' := AlonePrepares(t, o, s, tid, payload);
    s' := AlonePosts(t, o, s', tid, p);
    s' := AloneReturns(t, o, s', tid, Writer);
  }

  lemma RestState(t: Template, s: State)
    requires Reachable(t, s) && s.threads == map[]
    ensures s.lock.None? && (s.unloading ==> s.closed) && (s.kernel == [] ==> s.progress == 0)
  {
    InvReachable(t, s);
  }

  // ----- the queue fills up

  lemma AloneYields(t: Template, o: State, s: State, tid: Tid) returns (s': State)
    requires From(t, o, s) && s.threads == map[tid := Probe(Writer, 0)] && s.pending == 1
    ensures From(t, o, s') && s'.threads == map[tid := LeaveIdle(Writer)]
    ensures s' == s.(threads := s'.threads, h := s'.h)
    ensures SameOutside(s, s') && s'.h.appended == s.h.appended
  {
    s' := Advance(t, o, s, tid);
    s' := Advance(t, o, s', tid);
  }

  lemma AloneUnlocks(t: Template, o: State, s: State, tid: Tid) returns (s': State)
    requires From(t, o, s) && s.threads == map[tid := LeaveIdle(Writer)]
    ensures From(t, o, s') && s'.threads == map[tid := Return(Writer)] && s'.queue == s.queue
    ensures SameOutside(s, s') && s'.h.appended == s.h.appended
  {
    s' := Advance(t, o, s, tid);
  }

  lemma BusyState(t: Template, s: State)
    requires Reachable(t, s) && s.threads == map[] && s.kernel != [] && !s.closed
    ensures s.lock.None? && !s.unloading && s.pending == 1 && s.listSize == |s.queue|
  {
    RestState(t, s);
    CounterIsLength(t, s);
    PendingAccounting(t, s);
  }

  /** While a send is in the kernel a tcp_write adds its packet to the queue. */
  lemma BusyLinkQueues(t: Template, o: State, s: State, payload: seq<Byte>) returns (s': State)
    requires From(t, o, s) && s.threads == map[] && s.kernel != [] && !s.closed
    requires |s.queue| + 1 < MAXIMUM_SENDER_CACHED && Encodable(t, payload)
    ensures From(t, o, s') && s'.threads == map[] && s'.queue == s.queue + [Packet(s.nextId, payload)]
    ensures SameOutside(s, s')
  {
    ReachableFrom(t, o, s);
    BusyState(t, s);
    s' := AloneBuilds(t, o, s, 0, payload);
    s' := AloneCounts(t, o, s', 0, Packet(s.nextId, payload));
    s' := AloneLinks(t, o, s', 0, Packet(s.nextId, payload));
    s' := AloneYields(t, o, s', 0);
    s' := AloneUnlocks(t, o, s', 0);
    s' := AloneReturns(t, o, s', 0, Writer);
  }

  lemma {:induction false} QueueFills(t: Template, o: State, s: State, payload: seq<Byte>, n: nat) returns (s': State)
    requires From(t, o, s) && s.threads == map[] && s.kernel != [] && !s.closed && s.queue == []
    requires n < MAXIMUM_SENDER_CACHED && Encodable(t, payload)
    ensures From(t, o, s') && s'.threads == map[] && |s'.queue| == n && SameOutside(s, s')
  {
    s' := s;
    if n > 0 {
      var before := QueueFills(t, o, s, payload, n - 1);
      s' := BusyLinkQueues(t, o, before, payload);
    }
  }

  /** With 499 packets queued a writer counts itself in, finds the counter full, and is about to count itself out. */
  lemma WriterFindsFull(t: Template, o: State, s: State, payload: seq<Byte>) returns (s': State)
    requires From(t, o, s) && s.threads == map[] && s.kernel != [] && !s.closed
    requires |s.queue| == MAXIMUM_SENDER_CACHED - 1 && Encodable(t, payload)
    ensures From(t, o, s') && s'.threads == map[0 := CountBack(Packet(s.nextId, payload))]
    ensures s'.queue == s.queue && s'.listSize == MAXIMUM_SENDER_CACHED && !s'.unloading
  {
    ReachableFrom(t, o, s);
    BusyState(t, s);
    s' := AloneBuilds(t, o, s, 0, payload);
    s' := Advance(t, o, s', 0);
    s' := Advance(t, o, s', 0);
  }

  /** Meanwhile another writer is turned away before the lock. */
  lemma OtherFindsFull(t: Template, o: State, s: State, payload: seq<Byte>) returns (s': State)
    requires From(t, o, s) && 1 !in s.threads && !s.unloading && s.listSize == MAXIMUM_SENDER_CACHED
    requires Sendable(payload)
    ensures From(t, o, s') && s'.threads == s.threads[1 := Release] && s'.queue == s.queue
  {
    LeadsOn(t, o, s, Write(1, payload));
    s' := Apply(t, s, Write(1, payload));
    s' := Advance(t, o, s', 1);
  }

  /** The refusals do occur: for every message that can be sent there is a run in which 499 packets are queued, one
      writer is turned away under the lock and, while it is, another one before it. */
  lemma RefusalsOccur(t: Template, payload: seq<Byte>) returns (s: State)
    requires Encodable(t, payload)
    ensures Reachable(t, s) && |s.queue| == 499
    ensures s.threads.Keys == {0, 1} && s.threads[0].CountBack? && s.threads[1] == Release
  {
    LeadsNowhere(t, INITIAL);
    s := IdleLinkSends(t, INITIAL, INITIAL, 0, payload);
    s := QueueFills(t, INITIAL, s, payload, MAXIMUM_SENDER_CACHED - 1);
    s := WriterFindsFull(t, INITIAL, s, payload);
    s := OtherFindsFull(t, INITIAL, s, payload);
  }

  // ----- the link ends

  /** A completion of zero bytes, or with a disconnect or reset status: the packet is freed and the link closed. */
  lemma CompletionCloses(t: Template, o: State, s: State, outcome: Outcome) returns (s': State)
    requires From(t, o, s) && s.threads == map[] && |s.kernel| == 1 && !s.closed
    requires outcome.ZeroLength? || (outcome.Error? && outcome.fatal)
    ensures From(t, o, s') && s'.threads == map[] && s'.kernel == [] && s'.closed && s'.queue == s.queue
    ensures s'.wire == s.wire && s'.h.submitted == s.h.submitted && s.kernel[0] in s'.h.freed
    ensures s'.h.place.Keys == s.h.place.Keys + {s.kernel[0]} && SameFailures(s, s')
  {
    ReachableFrom(t, o, s);
    RestState(t, s);
    s' := PickUp(t, o, s, outcome);
    if outcome.Error? {
      s' := Advance(t, o, s', 0);
    }
    s' := ShutsDown(t, o, s', 0, s.kernel[0]);
  }

  /** tcp_shutdown_by_packet, and the end of the handler. */
  lemma ShutsDown(t: Template, o: State, s: State, tid: Tid, p: Packet) returns (s': State)
    requires From(t, o, s) && p in s.h.place
    requires s.threads == map[tid := Shut(p, None)] || s.threads == map[tid := Shut(p, Some(Handler))]
          || s.threads == map[tid := Shut(p, Some(Writer))]
    ensures From(t, o, s') && s'.threads == map[] && s'.closed && p in s'.h.freed
    ensures s'.queue == s.queue && s'.kernel == s.kernel && s'.wire == s.wire && s'.h.place.Keys == s.h.place.Keys
    ensures s'.h.submitted == s.h.submitted && SameFailures(s, s')
  {
    var after := s.threads[tid].after;
    s' := Advance(t, o, s, tid);
    if after.Some? {
      s' := AloneReturns(t, o, s', tid, after.value);
    }
  }

  lemma PosterHolds(t: Template, o: State, s: State, p: Packet)
    requires From(t, o, s) && s.threads == map[0 := Post(Writer, p)]
    ensures p in s.h.place
  {
    InvFrom(t, o, s);
    assert p in Held(s.threads[0]);
  }

  lemma FailsToPost(t: Template, o: State, s: State, p: Packet) returns (s': State)
    requires From(t, o, s) && s.threads == map[0 := Post(Writer, p)]
    ensures From(t, o, s') && s'.threads == map[0 := Shut(p, Some(Writer))] && p in s'.h.place
    ensures s'.queue == s.queue && s'.kernel == s.kernel && s'.wire == s.wire
  {
    PosterHolds(t, o, s, p);
    LeadsOn(t, o, s, Run(0, false));
    s' := RunThread(s, 0, false);
  }

  /** A write whose post fails: the packet is freed and the link closed, and nothing has gone out. */
  lemma FailedPostCloses(t: Template, o: State, s: State, payload: seq<Byte>) returns (s': State)
    requires From(t, o, s) && s.threads == map[] && s.kernel == [] && !s.closed && Encodable(t, payload)
    ensures From(t, o, s') && s'.threads == map[] && s'.kernel == [] && s'.closed && s'.wire == s.wire
    ensures Packet(s.nextId, payload) in s'.h.freed
  {
    s' := AlonePrepares(t, o, s, 0, payload);
    s' := FailsToPost(t, o, s', Packet(s.nextId, payload));
    s' := ShutsDown(t, o, s', 0, Packet(s.nextId, payload));
  }

  lemma OneDrained(t: Template, o: State, s: State) returns (s': State)
    requires From(t, o, s) && s.unloading && s.threads == map[] && s.kernel == [] && s.queue != []
    ensures From(t, o, s') && s'.unloading && s'.threads == map[] && s'.kernel == [] && s'.queue == s.queue[1..]
    ensures s'.h.place.Keys == s.h.place.Keys
  {
    InvFrom(t, o, s);
    assert s.queue[0] in s.queue;
    LeadsOn(t, o, s, Drain);
    s' := Apply(t, s, Drain);
  }

  lemma {:induction false} AllDrained(t: Template, o: State, s: State) returns (s': State)
    requires From(t, o, s) && s.unloading && s.threads == map[] && s.kernel == []
    ensures From(t, o, s') && s'.unloading && s'.threads == map[] && s'.kernel == [] && s'.queue == []
    ensures s'.h.place.Keys == s.h.place.Keys
    decreases |s.queue|
  {
    s' := s;
    if s.queue != [] {
      s' := OneDrained(t, o, s);
      s' := AllDrained(t, o, s');
    }
  }

  /** A link on which nothing is under way can be closed by anyone; then it is unloaded, and whatever is still queued
      is freed, so that every packet ever made has been. */
  lemma CanBeUnloaded(t: Template, o: State, s: State) returns (s': State)
    requires From(t, o, s) && s.threads == map[] && s.kernel == []
    ensures From(t, o, s') && s'.closed && s'.unloading && s'.queue == []
    ensures s'.h.place.Keys == s.h.place.Keys && forall p :: p in s.h.place ==> p in s'.h.freed
  {
    LeadsOn(t, o, s, Close);
    s' := Apply(t, s, Close);
    if !s'.unloading {
      LeadsOn(t, o, s', BeginUnload);
      s' := Apply(t, s', BeginUnload);
    }
    s' := AllDrained(t, o, s');
    ReachableFrom(t, o, s');
    RestState(t, s');
    NothingLeaks(t, s');
  }

  /** A run in which a link ends with a packet queued: its send fails, the link is closed, and the queued packet, which
      was never submitted, is freed by tcp_unload together with the one that failed. */
  lemma UnloadFreesQueued(t: Template, a: seq<Byte>, b: seq<Byte>, outcome: Outcome) returns (s: State, s': State)
    requires Encodable(t, a) && Encodable(t, b)
    requires outcome.ZeroLength? || (outcome.Error? && outcome.fatal)
    ensures Reachable(t, s) && s.closed && s.threads == map[] && s.kernel == [] && s.h.submitted == [Packet(0, a)]
    ensures |s.queue| == 1 && s.queue[0].payload == b
    ensures Leads(t, s, s') && s'.unloading && s'.queue == [] && s.queue[0] in s'.h.freed && Packet(0, a) in s'.h.freed
  {
    LeadsNowhere(t, INITIAL);
    s := IdleLinkSends(t, INITIAL, INITIAL, 0, a);
    s := BusyLinkQueues(t, INITIAL, s, b);
    s := CompletionCloses(t, INITIAL, s, outcome);
    OnlyAllocatedPackets(t, s);
    LeadsNowhere(t, s);
    s' := CanBeUnloaded(t, s, s);
  }
}
