/**
 * The functions of the send side in the form the source gives them, run by one thread among others. Each
 * statement is one operation of the send machine; before each, the other threads and the kernel may take
 * any steps. So the program counters of the machine are positions in these bodies.
 */
module SendProgram {
  import opened Templates
  import opened SendMachine
  import opened SendInvariants
  import opened SendOwnership
  import opened SendTheorems

  /** The error code for a link that cannot be referenced. */
  const ENOENT := 2

  /** What was linked has been linked, what was freed has been freed, and a closed link stays closed. */
  ghost predicate Grows(s: State, s': State) {
    && (forall p :: p in s.h.appended ==> p in s'.h.appended)
    && (forall p :: p in s.h.freed ==> p in s'.h.freed)
    && (s.closed ==> s'.closed)
  }

  ghost function TrailOf(s: State, tid: Tid): seq<Mark> {
    Trail(s.h.trail, tid)
  }

  /** What the steps of others leave alone, seen from thread tid. */
  ghost predicate Elsewhere(s: State, s': State, tid: Tid) {
    && (tid in s.threads <==> tid in s'.threads)
    && (tid in s.threads ==> s'.threads[tid] == s.threads[tid])
    && TrailOf(s', tid) == TrailOf(s, tid)
    && Grows(s, s')
  }

  predicate Mine(step: Step, tid: Tid) {
    match step
    case Write(i, _) => i == tid
    case Run(i, _) => i == tid
    case Complete(i, _, _) => i == tid
    case _ => false
  }

  /** Every step of another thread or of the kernel is of that kind. */
  lemma OthersAreElsewhere(t: Template, s: State, step: Step, tid: Tid)
    requires Enabled(t, s, step) && !Mine(step, tid)
    ensures Elsewhere(s, Apply(t, s, step), tid)
  {
  }

  lemma ElsewhereComposes(s: State, s1: State, s2: State, tid: Tid)
    requires Elsewhere(s, s1, tid) && Elsewhere(s1, s2, tid)
    ensures Elsewhere(s, s2, tid)
  {
  }

  ghost function PcOf(s: State, tid: Tid): Option<Pc> {
    if tid in s.threads then Some(s.threads[tid]) else None
  }

  /** What thread tid's own operation has done, as far as the thread or its caller can tell: it is where NextPc
      says, and what an interlocked operation leaves in its variable is what it returned. */
  ghost predicate Ran(s: State, s': State, tid: Tid, pc: Pc, ok: bool) {
    && PcOf(s, tid) == Some(pc)
    && (pc.Pop? ==> s.queue != [])
    && PcOf(s', tid) == PcAfter(pc, s, ok)
    && (pc.CountUp? ==> s'.listSize == s.listSize + 1)
    && (pc.Probe? ==> s'.pending == s.pending + 1)
    && (pc.Retract? ==> s'.pending == s.pending - 1)
    && (pc.CheckQueue? ==> s'.queue == s.queue)
    && (pc.Append? ==> pc.packet in s'.h.appended)
    && (pc.Shut? ==> s'.closed)
    && (Frees(pc).Some? ==> Frees(pc).value in s'.h.freed)
  }

  function Extended(trail: seq<Mark>, mark: Option<Mark>): seq<Mark> {
    if mark.None? then trail else trail + [mark.value]
  }

  lemma RunRan(t: Template, s: State, tid: Tid, ok: bool)
    requires Enabled(t, s, Run(tid, ok))
    ensures var s' := Apply(t, s, Run(tid, ok));
            && Ran(s, s', tid, s.threads[tid], ok) && Grows(s, s')
            && TrailOf(s', tid) == Extended(TrailOf(s, tid), MarkOf(s.threads[tid], s))
  {
  }

  lemma RefusedIsUnlinked(t: Template, s: State, tid: Tid)
    requires Reachable(t, s) && tid in s.threads && s.threads[tid].Refused?
    ensures s.threads[tid].packet !in s.h.appended
  {
    InvReachable(t, s);
  }

  lemma UnloadingIsClosed(t: Template, s: State)
    requires Reachable(t, s)
    ensures s.unloading ==> s.closed
  {
    InvReachable(t, s);
  }

  /** Operations the lock holder has left at most. */
  ghost function LockRank(s: State): nat {
    if s.lock.Some? && s.lock.value in s.threads then 1 + Rank(s.threads[s.lock.value]) else 0
  }

  /** The lock holder can always go on, and every operation brings the lock closer to being free. */
  lemma LockHolderRuns(t: Template, s: State)
    requires Reachable(t, s) && s.lock.Some?
    ensures var holder := s.lock.value;
            && holder in s.threads && InsideLock(s.threads[holder])
            && Enabled(t, s, Run(holder, true))
            && var s' := Apply(t, s, Run(holder, true));
               s'.lock.None? || (s'.lock == s.lock && LockRank(s') < LockRank(s))
  {
    InvReachable(t, s);
    CallsAreBounded(t, s, s.lock.value, true);
  }

  /** A thread's trail behind tcp_try_write's post, if it came to that. */
  function Posted(trail: seq<Mark>, posted: bool, postOk: bool): seq<Mark> {
    if !posted then trail else if postOk then trail + [Submits] else trail + [Submits] + [Closes]
  }

  /** A completion thread's trail behind the token and the next packet: the token is returned before the list is
      looked at. */
  function WentOn(trail: seq<Mark>, posted: bool, postOk: bool): seq<Mark> {
    Posted(trail + [Returns] + [Looked], posted, postOk)
  }

  class Link {
    const tst: Template
    var s: State

    constructor (tst: Template)
      ensures this.tst == tst && Reachable(tst, s) && s == INITIAL
    {
      this.tst, s := tst, INITIAL;
      new;
      LeadsNowhere(tst, INITIAL);
    }

    /** One step of the machine. */
    method Do(step: Step)
      requires Reachable(tst, s) && Enabled(tst, s, step)
      modifies this
      ensures s == Apply(tst, old(s), step) && Reachable(tst, s)
    {
      LeadsOn(tst, INITIAL, s, step);
      s := Apply(tst, s, step);
    }

    /** The others take any steps they like; that is what the contract says to the caller. The body may
        take none. OthersAreElsewhere shows that no step of theirs breaks the contract. */
    method Others(tid: Tid)
      requires Reachable(tst, s)
      modifies this
      ensures Reachable(tst, s) && Elsewhere(old(s), s, tid)
    {
    }

    /** Thread tid's next operation, after any steps of others, which lead to `before`. */
    method Next(tid: Tid, ok: bool) returns (ghost before: State)
      requires Reachable(tst, s) && tid in s.threads
      requires !s.threads[tid].EnterWith? && !s.threads[tid].EnterEmpty?
      requires !s.threads[tid].SendDone? && !s.threads[tid].Failed?
      requires s.threads[tid].Build? && ok ==> tst.Accepts(|s.threads[tid].payload|)
      modifies this
      ensures Reachable(tst, s) && Ran(before, s, tid, old(s).threads[tid], ok) && Grows(old(s), s)
      ensures TrailOf(s, tid) == Extended(TrailOf(old(s), tid), MarkOf(old(s).threads[tid], before))
      ensures old(s).threads[tid].Probe? && old(s).threads[tid].retries == 1 ==> s.pending <= 1
    {
      Others(tid);
      before := s;
      NeverStuck(tst, s);
      if s.threads[tid].Probe? {
        SecondProbeWins(tst, s, tid, ok);
      }
      RunRan(tst, s, tid, ok);
      Do(Run(tid, ok));
    }

    /** A thread waits for the lock. Whoever is inside leaves after finitely many of its own operations. */
    method AwaitLock(tid: Tid)
      requires Reachable(tst, s) && tid in s.threads && (s.threads[tid].EnterWith? || s.threads[tid].EnterEmpty?)
      modifies this
      ensures Reachable(tst, s) && s.lock.None? && Elsewhere(old(s), s, tid)
    {
      Others(tid);
      while s.lock.Some?
        invariant Reachable(tst, s) && Elsewhere(old(s), s, tid)
        decreases LockRank(s)
      {
        var holder := s.lock.value;
        LockHolderRuns(tst, s);
        ghost var before := s;
        Do(Run(holder, true));
        OthersAreElsewhere(tst, before, Run(holder, true), tid);
        ElsewhereComposes(old(s), before, s, tid);
      }
    }

    /** EnterCriticalSection. */
    method EnterLock(tid: Tid)
      requires Reachable(tst, s) && tid in s.threads && (s.threads[tid].EnterWith? || s.threads[tid].EnterEmpty?)
      modifies this
      ensures Reachable(tst, s) && tid in s.threads && s.lock == Some(tid)
      ensures s.threads[tid] == if old(s).threads[tid].EnterWith? then CountUp(old(s).threads[tid].packet)
                                else CheckQueue(old(s).threads[tid].caller)
      ensures Grows(old(s), s) && TrailOf(s, tid) == TrailOf(old(s), tid)
    {
      AwaitLock(tid);
      Do(Run(tid, true));
    }

    /** InterlockedIncrement of the counter, and the look at what it returned (tcp.c:124). */
    method CountIn(tid: Tid, p: Packet) returns (room: bool)
      requires Reachable(tst, s) && tid in s.threads && s.threads[tid] == CountUp(p)
      modifies this
      ensures Reachable(tst, s) && tid in s.threads && Grows(old(s), s)
      ensures s.threads[tid] == if room then Append(p) else CountBack(p)
      ensures TrailOf(s, tid) == Extended(TrailOf(old(s), tid), if room then None else Some(FoundFull))
    {
      ghost var before := Next(tid, true);
      room := s.listSize < MAXIMUM_SENDER_CACHED;
    }

    /** The counter is taken back and the lock left (tcp.c:125, 158). */
    method CountOut(tid: Tid, p: Packet)
      requires Reachable(tst, s) && tid in s.threads && s.threads[tid] == CountBack(p)
      modifies this
      ensures Reachable(tst, s) && tid in s.threads && s.threads[tid] == Refused(p) && Grows(old(s), s)
      ensures TrailOf(s, tid) == TrailOf(old(s), tid)
    {
      ghost var before := Next(tid, true);                // 125: InterlockedDecrement
      before := Next(tid, true);                          // 158: LeaveCriticalSection
    }

    /** Linking the packet, or refusing it because the counter was found full (tcp.c:122-131, 158). */
    method Enqueue(tid: Tid, p: Packet) returns (linked: bool)
      requires Reachable(tst, s) && tid in s.threads && s.threads[tid] == CountUp(p)
      modifies this
      ensures Reachable(tst, s) && tid in s.threads && Grows(old(s), s)
      ensures s.threads[tid] == if linked then Probe(Writer, 0) else Refused(p)
      ensures linked ==> p in s.h.appended
      ensures TrailOf(s, tid) == Extended(TrailOf(old(s), tid), if linked then None else Some(FoundFull))
    {
      linked := CountIn(tid, p);                          // 124
      if !linked {
        CountOut(tid, p);                                 // 125, 158
        return;
      }
      ghost var before := Next(tid, true);                // 131: list_add_tail
    }

    /** InterlockedIncrement in the loop's guard (tcp.c:144). */
    method ProbeOnce(tid: Tid, caller: Caller, retries: nat) returns (value: int)
      requires Reachable(tst, s) && tid in s.threads && s.threads[tid] == Probe(caller, retries)
      modifies this
      ensures Reachable(tst, s) && tid in s.threads && Grows(old(s), s)
      ensures s.threads[tid] == if value > 1 then Retract(caller, retries) else Pop(caller)
      ensures TrailOf(s, tid) == TrailOf(old(s), tid) && (retries == 1 ==> value <= 1)
    {
      ghost var before := Next(tid, true);
      value := s.pending;
    }

    /** InterlockedDecrement in its body, and leaving the lock if somebody else has the token (tcp.c:145-147). */
    method StepBack(tid: Tid, caller: Caller) returns (again: bool)
      requires Reachable(tst, s) && tid in s.threads && s.threads[tid] == Retract(caller, 0)
      modifies this
      ensures Reachable(tst, s) && tid in s.threads && Grows(old(s), s)
      ensures s.threads[tid] == if again then Probe(caller, 1) else Return(caller)
      ensures TrailOf(s, tid) == TrailOf(old(s), tid)
    {
      ghost var before := Next(tid, true);
      again := s.pending <= 0;
      if !again {
        before := Next(tid, true);
      }
    }

    /** The increment and decrement loop (tcp.c:144-149). */
    method TakeToken(tid: Tid, caller: Caller) returns (taken: bool)
      requires Reachable(tst, s) && tid in s.threads && s.threads[tid] == Probe(caller, 0)
      modifies this
      ensures Reachable(tst, s) && tid in s.threads && Grows(old(s), s)
      ensures s.threads[tid] == if taken then Pop(caller) else Return(caller)
      ensures TrailOf(s, tid) == TrailOf(old(s), tid)
    {
      var value := ProbeOnce(tid, caller, 0);
      while value > 1
        invariant Reachable(tst, s) && tid in s.threads && Grows(old(s), s)
        invariant s.threads[tid] == if value > 1 then Retract(caller, 0) else Pop(caller)
        invariant TrailOf(s, tid) == TrailOf(old(s), tid)
        decreases if value > 1 then 1 else 0
      {
        var again := StepBack(tid, caller);
        if !again {
          return false;
        }
        value := ProbeOnce(tid, caller, 1);
      }
      return true;
    }

    method Unlink(tid: Tid, caller: Caller)
      requires Reachable(tst, s) && tid in s.threads && s.threads[tid] == Pop(caller)
      modifies this
      ensures Reachable(tst, s) && tid in s.threads && Grows(old(s), s)
      ensures s.threads[tid].Discount? && s.threads[tid].caller == caller && TrailOf(s, tid) == TrailOf(old(s), tid)
    {
      ghost var before := Next(tid, true);
    }

    /** Unlinking the next packet and leaving the lock (tcp.c:152-158). */
    method PopNext(tid: Tid, caller: Caller)
      requires Reachable(tst, s) && tid in s.threads && s.threads[tid] == Pop(caller)
      modifies this
      ensures Reachable(tst, s) && tid in s.threads && Grows(old(s), s)
      ensures s.threads[tid].Post? && s.threads[tid].caller == caller
      ensures TrailOf(s, tid) == TrailOf(old(s), tid)
    {
      Unlink(tid, caller);                                // 152-153: list_del_init
      ghost var before := Next(tid, true);                // 155: InterlockedDecrement
      before := Next(tid, true);                          // 158: LeaveCriticalSection
    }

    /** Posting outside the lock; a link whose post failed is closed (tcp.c:168-170). */
    method PostNext(tid: Tid, caller: Caller, postOk: bool)
      requires Reachable(tst, s) && tid in s.threads && s.threads[tid].Post? && s.threads[tid].caller == caller
      modifies this
      ensures Reachable(tst, s) && tid in s.threads && Grows(old(s), s)
      ensures s.threads[tid] == Return(caller)
      ensures TrailOf(s, tid) == Posted(TrailOf(old(s), tid), true, postOk)
      ensures !postOk ==> s.closed
    {
      ghost var before := Next(tid, postOk);              // 168: asio_tcp_send
      if !postOk {
        before := Next(tid, true);                        // 169: tcp_shutdown_by_packet
      }
    }

    /** From the loop to the return (tcp.c:144-172). `posted` tells whether the thread took the token. */
    method SubmitNext(tid: Tid, caller: Caller, postOk: bool) returns (ghost posted: bool)
      requires Reachable(tst, s) && tid in s.threads && s.threads[tid] == Probe(caller, 0)
      modifies this
      ensures Reachable(tst, s) && tid in s.threads && Grows(old(s), s)
      ensures s.threads[tid] == Return(caller)
      ensures TrailOf(s, tid) == Posted(TrailOf(old(s), tid), posted, postOk)
      ensures posted && !postOk ==> s.closed
    {
      var taken := TakeToken(tid, caller);
      posted := taken;
      if taken {
        PopNext(tid, caller);
        PostNext(tid, caller, postOk);
      }
    }

    /** list_empty (tcp.c:134). */
    method LookOnce(tid: Tid, caller: Caller) returns (found: bool)
      requires Reachable(tst, s) && tid in s.threads && s.threads[tid] == CheckQueue(caller)
      modifies this
      ensures Reachable(tst, s) && tid in s.threads && Grows(old(s), s)
      ensures s.threads[tid] == if found then Probe(caller, 0) else LeaveIdle(caller)
      ensures TrailOf(s, tid) == TrailOf(old(s), tid) + [Looked]
    {
      ghost var before := Next(tid, true);
      found := s.queue != [];
    }

    /** The list is looked at without a packet to add, and left alone if it is empty (tcp.c:134-136, 158). */
    method Look(tid: Tid, caller: Caller) returns (found: bool)
      requires Reachable(tst, s) && tid in s.threads && s.threads[tid] == CheckQueue(caller)
      modifies this
      ensures Reachable(tst, s) && tid in s.threads && Grows(old(s), s)
      ensures s.threads[tid] == if found then Probe(caller, 0) else Return(caller)
      ensures TrailOf(s, tid) == TrailOf(old(s), tid) + [Looked]
    {
      found := LookOnce(tid, caller);
      if !found {
        ghost var before := Next(tid, true);              // 158: LeaveCriticalSection
      }
    }

    /**
     * tcp_try_write (tcp.c:105-173). The contract on the result is the one the source states (tcp.c:100-104):
     * -1 leaves the packet with the caller, 0 means that the caller must not free it. postOk says whether
     * asio_tcp_send succeeds, should it be called, and `posted` whether it was. With a packet, -1 means that the
     * counter was found full.
     */
    method TryWrite(tid: Tid, packet: Option<Packet>, caller: Caller, postOk: bool)
      returns (retval: int, ghost posted: bool)
      requires Reachable(tst, s) && tid in s.threads
      requires packet.Some? ==> s.threads[tid] == EnterWith(packet.value) && caller == Writer
      requires packet.None? ==> s.threads[tid] == EnterEmpty(caller)
      modifies this
      ensures Reachable(tst, s) && tid in s.threads && -1 <= retval <= 0 && Grows(old(s), s)
      ensures s.threads[tid] == if retval < 0 && packet.Some? then Refused(packet.value) else Return(caller)
      ensures packet.Some? && retval < 0 ==> packet.value in Held(s.threads[tid]) && packet.value !in s.h.appended
      ensures packet.Some? && retval == 0 ==> packet.value !in Held(s.threads[tid]) && packet.value in s.h.appended
      ensures var mark := if packet.None? then Some(Looked) else if retval < 0 then Some(FoundFull) else None;
              TrailOf(s, tid) == Posted(Extended(TrailOf(old(s), tid), mark), posted, postOk)
      ensures (retval < 0 ==> !posted) && (posted && !postOk ==> s.closed)
    {
      posted := false;
      EnterLock(tid);                                     // 118
      if packet.Some? {
        var linked := Enqueue(tid, packet.value);
        if !linked {
          RefusedIsUnlinked(tst, s, tid);
          return -1, false;
        }
      } else {
        var found := Look(tid, caller);
        if !found {
          return -1, false;
        }
      }
      posted := SubmitNext(tid, caller, postOk);
      return 0, posted;
    }

    /** tcp_try_write(ncb, NULL), as the completion side calls it: its result is not looked at. */
    method TryNext(tid: Tid, caller: Caller, postOk: bool) returns (ghost posted: bool)
      requires Reachable(tst, s) && tid in s.threads && s.threads[tid] == EnterEmpty(caller)
      modifies this
      ensures Reachable(tst, s) && tid in s.threads && s.threads[tid] == Return(caller) && Grows(old(s), s)
      ensures TrailOf(s, tid) == Posted(TrailOf(old(s), tid) + [Looked], posted, postOk)
      ensures posted && !postOk ==> s.closed
    {
      var retval;
      retval, posted := TryWrite(tid, None, caller, postOk);
    }

    /** Refer to the link, when the thread is at such a point: possible until objclos, refused once unloading. */
    method Refer(tid: Tid, refuse: bool) returns (ok: bool)
      requires Reachable(tst, s) && tid in s.threads && (s.threads[tid].SendDone? || s.threads[tid].Failed?)
      modifies this
      ensures Reachable(tst, s) && tid in s.threads && Grows(old(s), s) && (!ok ==> s.closed)
      ensures var pc, pc' := old(s).threads[tid], s.threads[tid];
              if !ok then pc' == Orphan(pc.packet)
              else if pc.SendDone? then pc' == SendRelease(pc.packet)
              else pc' == if pc.fatal then Shut(pc.packet, Some(Handler)) else FailedRelease(pc.packet)
      ensures TrailOf(s, tid) == TrailOf(old(s), tid)
    {
      Others(tid);
      UnloadingIsClosed(tst, s);
      ok := !s.unloading && !(s.closed && refuse);
      RunRan(tst, s, tid, ok);
      Do(Run(tid, ok));
    }

    /**
     * tcp_write (tcp.c:1269-1356). `heap` is what the memory for the user data held before, memoryOk tells whether
     * the buffer and the packet can be allocated, refuse whether a closed link is still referenced. 0 means that
     * a packet with the user data, or what the serializer made of it, was linked; after an error the packet, if
     * one was made, has been freed. A bad length and a link that is gone are refused before anything is made, and
     * no packet is made without memory, for a size that the builder refuses, or when the serializer fails. With all
     * of these in order, -1 means that the counter was found full.
     */
    method Write(tid: Tid, origin: seq<Byte>, serializer: Option<Serializer>, heap: seq<Byte>,
                 refuse: bool, memoryOk: bool, postOk: bool)
      returns (retval: int, ghost made: Option<Packet>, ghost posted: bool)
      requires Reachable(tst, s) && tid !in s.threads && |heap| == |origin|
      modifies this
      ensures Reachable(tst, s) && tid !in s.threads && retval in {0, -1, -ENOENT} && Grows(old(s), s)
      ensures made.Some? ==> memoryOk && (tst.builder.None? || tst.builder.value(|origin|).Some?)
      ensures made.Some? && serializer.None? ==> made.value.payload == origin
      ensures made.Some? ==> Body(tst, origin, serializer, heap) == Some(made.value.payload)
      ensures retval == 0 ==> made.Some? && made.value in s.h.appended && Sendable(origin)
      ensures retval == 0 ==> TrailOf(s, tid) == Posted(TrailOf(old(s), tid), posted, postOk)
      ensures retval < 0 && made.Some? ==> made.value in s.h.freed
      ensures 0 < |origin| <= 52428800 && memoryOk && (tst.builder.None? || tst.builder.value(|origin|).Some?)
              && (serializer.None? || Body(tst, origin, serializer, heap).Some?) ==>
                retval == 0 || retval == -ENOENT || TrailOf(s, tid) == TrailOf(old(s), tid) + [FoundFull]
      ensures !(0 < |origin| <= 52428800) ==> retval == -1 && made.None? && s == old(s)
      ensures retval == -ENOENT ==> old(s).closed && made.None? && s == old(s)
      ensures old(s).unloading && Sendable(origin) ==> retval == -ENOENT
    {
      retval, made, posted := -1, None, false;
      if !Sendable(origin) {                              // 1277
        return;
      }
      UnloadingIsClosed(tst, s);
      if s.unloading || (s.closed && refuse) {            // 1286: tcprefr
        return -ENOENT, None, false;
      }
      var body := Body(tst, origin, serializer, heap);
      var payload := if body.Some? then body.value else origin;
      Do(Step.Write(tid, payload));
      retval, made, posted :=
        WriteReferenced(tid, payload, memoryOk && tst.Accepts(|origin|) && body.Some?, postOk);
    }

    /** tcp_write behind the reference (tcp.c:1291-1355). */
    method WriteReferenced(tid: Tid, payload: seq<Byte>, buildOk: bool, postOk: bool)
      returns (retval: int, ghost made: Option<Packet>, ghost posted: bool)
      requires Reachable(tst, s) && tid in s.threads && s.threads[tid] == PreCheck(payload)
      requires buildOk ==> tst.Accepts(|payload|)
      modifies this
      ensures Reachable(tst, s) && tid !in s.threads && -1 <= retval <= 0 && Grows(old(s), s)
      ensures made.Some? ==> buildOk && made.value.payload == payload
      ensures retval == 0 ==> made.Some? && made.value in s.h.appended
      ensures retval == 0 ==> TrailOf(s, tid) == Posted(TrailOf(old(s), tid), posted, postOk)
      ensures retval < 0 && made.Some? ==> made.value in s.h.freed
      ensures retval < 0 && buildOk ==> TrailOf(s, tid) == TrailOf(old(s), tid) + [FoundFull]
    {
      retval, made, posted := -1, None, false;
      ghost var before := Next(tid, true);                // 1293
      if s.threads[tid].Build? {
        before := Next(tid, buildOk);                     // 1298-1337
        if buildOk {
          made := Some(s.threads[tid].packet);
          retval, posted := WritePacket(tid, s.threads[tid].packet, postOk);
        }
      }
      LetGo(tid);                                         // 1354: objdefr
    }

    /** tcp_write with the packet made: it is linked, or freed again (tcp.c:1339-1345). */
    method WritePacket(tid: Tid, packet: Packet, postOk: bool) returns (retval: int, ghost posted: bool)
      requires Reachable(tst, s) && tid in s.threads && s.threads[tid] == EnterWith(packet)
      modifies this
      ensures Reachable(tst, s) && tid in s.threads && s.threads[tid] == Release && -1 <= retval <= 0 && Grows(old(s), s)
      ensures if retval == 0 then packet in s.h.appended else packet in s.h.freed
      ensures TrailOf(s, tid) == if retval == 0 then Posted(TrailOf(old(s), tid), posted, postOk)
                                 else TrailOf(old(s), tid) + [FoundFull]
    {
      retval, posted := TryWrite(tid, Some(packet), Writer, postOk);
      ghost var before := Next(tid, true);                // 1341: freepkt, or nothing
    }

    /** objdefr, the last thing a thread does with the link (tcp.c:685, 852, 1354). */
    method LetGo(tid: Tid)
      requires Reachable(tst, s) && tid in s.threads && s.threads[tid] == Release
      modifies this
      ensures Reachable(tst, s) && tid !in s.threads && Grows(old(s), s) && TrailOf(s, tid) == TrailOf(old(s), tid)
    {
      ghost var before := Next(tid, true);
    }

    /** The link is gone, and nothing but the packet is left to free (tcp.c:673, 824). */
    method FreeOrphan(tid: Tid, packet: Packet)
      requires Reachable(tst, s) && tid in s.threads && s.threads[tid] == Orphan(packet)
      modifies this
      ensures Reachable(tst, s) && tid !in s.threads && Grows(old(s), s) && packet in s.h.freed
      ensures TrailOf(s, tid) == TrailOf(old(s), tid)
    {
      ghost var before := Next(tid, true);
    }

    /** tcp_shutdown_by_packet without a reference (tcp.c:666, 904-905). */
    method ShutDown(tid: Tid, packet: Packet)
      requires Reachable(tst, s) && tid in s.threads && s.threads[tid] == Shut(packet, None)
      modifies this
      ensures Reachable(tst, s) && tid !in s.threads && Grows(old(s), s) && packet in s.h.freed && s.closed
      ensures TrailOf(s, tid) == TrailOf(old(s), tid) + [Closes]
    {
      ghost var before := Next(tid, true);
    }

    method ReturnToken(tid: Tid, packet: Packet)
      requires Reachable(tst, s) && tid in s.threads && s.threads[tid] == SendRelease(packet)
      modifies this
      ensures Reachable(tst, s) && tid in s.threads && s.threads[tid] == EnterEmpty(Completion(packet))
      ensures Grows(old(s), s) && TrailOf(s, tid) == TrailOf(old(s), tid) + [Returns]
    {
      ghost var before := Next(tid, true);
    }

    method FreeDone(tid: Tid, packet: Packet)
      requires Reachable(tst, s) && tid in s.threads && s.threads[tid] == Return(Completion(packet))
      modifies this
      ensures Reachable(tst, s) && tid in s.threads && s.threads[tid] == Release
      ensures Grows(old(s), s) && packet in s.h.freed && TrailOf(s, tid) == TrailOf(old(s), tid)
    {
      ghost var before := Next(tid, true);
    }

    /** The token is returned and the next packet tried, and only then the completed one is freed (tcp.c:678-684). */
    method SendOn(tid: Tid, packet: Packet, postOk: bool) returns (ghost posted: bool)
      requires Reachable(tst, s) && tid in s.threads && s.threads[tid] == SendRelease(packet)
      modifies this
      ensures Reachable(tst, s) && tid in s.threads && s.threads[tid] == Release
      ensures Grows(old(s), s) && packet in s.h.freed && (posted && !postOk ==> s.closed)
      ensures TrailOf(s, tid) == WentOn(TrailOf(old(s), tid), posted, postOk)
    {
      ReturnToken(tid, packet);                           // 678: InterlockedDecrement
      posted := TryNext(tid, Completion(packet), postOk);
      FreeDone(tid, packet);                              // 684: freepkt
    }

    /** tcp_dispatch_io_send (tcp.c:653-686) for a completion that a thread has just picked up. A completion of zero
        bytes closes the link. Otherwise, unless the link is gone, the token is returned first and then the next
        packet is tried. In every case the packet is freed and the thread is gone. */
    method DispatchIoSend(tid: Tid, packet: Packet, refuse: bool, postOk: bool)
      returns (ghost ok: bool, ghost posted: bool)
      requires Reachable(tst, s) && tid in s.threads
      requires s.threads[tid] == SendDone(packet) || s.threads[tid] == Shut(packet, None)
      modifies this
      ensures Reachable(tst, s) && tid !in s.threads && Grows(old(s), s) && packet in s.h.freed
      ensures !ok || (posted && !postOk) ==> s.closed
      ensures TrailOf(s, tid) == if old(s).threads[tid].Shut? then TrailOf(old(s), tid) + [Closes]
                                 else if !ok then TrailOf(old(s), tid)
                                 else WentOn(TrailOf(old(s), tid), posted, postOk)
      ensures old(s).threads[tid].Shut? ==> s.closed
    {
      ok, posted := false, false;
      if s.threads[tid].Shut? {
        ShutDown(tid, packet);                            // 666: tcp_shutdown_by_packet
        return;
      }
      var referred := Refer(tid, refuse);                 // 671: tcprefr
      ok := referred;
      if !referred {
        FreeOrphan(tid, packet);                          // 673: freepkt
        return;
      }
      posted := SendOn(tid, packet, postOk);
      LetGo(tid);                                         // 685: objdefr
    }

    /** The link is closed and the packet freed, under a reference (tcp.c:839, 904-905). */
    method EndLink(tid: Tid, packet: Packet)
      requires Reachable(tst, s) && tid in s.threads && s.threads[tid] == Shut(packet, Some(Handler))
      modifies this
      ensures Reachable(tst, s) && tid in s.threads && s.threads[tid] == Release
      ensures Grows(old(s), s) && packet in s.h.freed && s.closed
      ensures TrailOf(s, tid) == TrailOf(old(s), tid) + [Closes]
    {
      ghost var before := Next(tid, true);                // 839: tcp_shutdown_by_packet
      before := Next(tid, true);                          // the end of the block
    }

    /** The token is returned and the failed packet freed (tcp.c:844-847). */
    method Drop(tid: Tid, packet: Packet)
      requires Reachable(tst, s) && tid in s.threads && s.threads[tid] == FailedRelease(packet)
      modifies this
      ensures Reachable(tst, s) && tid in s.threads && s.threads[tid] == EnterEmpty(Handler)
      ensures Grows(old(s), s) && packet in s.h.freed
      ensures TrailOf(s, tid) == TrailOf(old(s), tid) + [Returns]
    {
      ghost var before := Next(tid, true);                // 844: InterlockedDecrement
      before := Next(tid, true);                          // 847: freepkt
    }

    /** The failed packet is dropped and the next one tried (tcp.c:844-849). */
    method DropAndGoOn(tid: Tid, packet: Packet, postOk: bool) returns (ghost posted: bool)
      requires Reachable(tst, s) && tid in s.threads && s.threads[tid] == FailedRelease(packet)
      modifies this
      ensures Reachable(tst, s) && tid in s.threads && s.threads[tid] == Release
      ensures Grows(old(s), s) && packet in s.h.freed && (posted && !postOk ==> s.closed)
      ensures TrailOf(s, tid) == WentOn(TrailOf(old(s), tid), posted, postOk)
    {
      Drop(tid, packet);
      posted := TryNext(tid, Handler, postOk);
      ghost var before := Next(tid, true);                // the end of the block
    }

    /** tcp_dispatch_io_exception (tcp.c:810-853) for a send. Unless the link is gone: with a disconnect or reset status
        it is closed, with any other the token is returned and the next packet is tried. */
    method DispatchIoException(tid: Tid, packet: Packet, fatal: bool, refuse: bool, postOk: bool)
      returns (ghost ok: bool, ghost posted: bool)
      requires Reachable(tst, s) && tid in s.threads && s.threads[tid] == Failed(packet, fatal)
      modifies this
      ensures Reachable(tst, s) && tid !in s.threads && Grows(old(s), s) && packet in s.h.freed
      ensures !ok || fatal || (posted && !postOk) ==> s.closed
      ensures TrailOf(s, tid) == if !ok then TrailOf(old(s), tid)
                                 else if fatal then TrailOf(old(s), tid) + [Closes]
                                 else WentOn(TrailOf(old(s), tid), posted, postOk)
    {
      posted := false;
      var referred := Refer(tid, refuse);                 // 822: tcprefr
      ok := referred;
      if !referred {
        FreeOrphan(tid, packet);                          // 824: freepkt
        return;
      }
      if fatal {
        EndLink(tid, packet);
      } else {
        posted := DropAndGoOn(tid, packet, postOk);
      }
      LetGo(tid);                                         // 852: objdefr
    }

    /**
     * tcp_dispatch_io_event (tcp.c:856-883) for a send that the kernel has completed: a thread picks it up and handles
     * it. Zero bytes and a disconnect or reset status end the link; after any other completion the token is
     * returned and the next packet tried. `ok` tells whether the link could be referenced; zero bytes are not
     * looked at that closely.
     */
    method DispatchIoEvent(tid: Tid, outcome: Outcome, refuse: bool, postOk: bool)
      returns (ghost ok: bool, ghost posted: bool)
      requires Reachable(tst, s) && tid !in s.threads && s.kernel != []
      requires outcome.Sent? ==> s.progress == |tst.Encode(s.kernel[0].payload)|
      modifies this
      ensures Reachable(tst, s) && tid !in s.threads && Grows(old(s), s) && old(s).kernel[0] in s.h.freed
      ensures match outcome
              case ZeroLength => s.closed && TrailOf(s, tid) == TrailOf(old(s), tid) + [Closes]
              case Error(true) => s.closed && (ok ==> TrailOf(s, tid) == TrailOf(old(s), tid) + [Closes])
              case _ => if ok then TrailOf(s, tid) == WentOn(TrailOf(old(s), tid), posted, postOk) else s.closed
    {
      var packet := s.kernel[0];
      Do(Complete(tid, 0, outcome));
      match outcome
      case Error(fatal) => ok, posted := DispatchIoException(tid, packet, fatal, refuse, postOk);
      case _ => ok, posted := DispatchIoSend(tid, packet, refuse, postOk);
    }
  }
}
