/** Order, ownership, wake-up and wire: what every step of the send machine keeps about its packets. */
module SendOwnership {
  import opened Templates
  import opened SendMachine
  import opened SendInvariants

  ghost predicate Guards(s: State) {
    && LockInv(s) && UnloadInv(s) && TokenInv(s) && PendingInv(s) && QueueInv(s)
  }

  // ----- order

  /** The packet a thread has taken from the list and not yet passed to asio_tcp_send. */
  function Carries(pc: Pc): seq<Packet> {
    match pc
    case Discount(_, next) => [next]
    case LeaveToPost(_, next) => [next]
    case Post(_, next) => [next]
    case _ => []
  }

  ghost function InHand(s: State): seq<Packet> {
    if s.h.token.HeldBy? && s.h.token.tid in s.threads then Carries(s.threads[s.h.token.tid]) else []
  }

  /** What was appended, in order: submitted, then in hand, then drained or still queued. */
  ghost predicate OrderInv(s: State) {
    && s.h.appended == s.h.submitted + InHand(s) + s.h.drained + s.queue
    && (s.h.drained != [] ==> s.unloading)
  }

  lemma HandColumn(s: State, tid: Tid, ok: bool)
    requires tid in s.threads && (s.threads[tid].Pop? ==> s.queue != [])
    ensures var pc, pc' := s.threads[tid], NextPc(s, tid, ok);
            (if pc'.None? then [] else Carries(pc'.value))
            == (if pc.Pop? then [s.queue[0]] else if pc.Post? then [] else Carries(pc))
  {
  }

  /** The packet in hand, before and after an operation. */
  lemma HandAfter(t: Template, s: State, tid: Tid, ok: bool)
    requires Guards(s) && Enabled(t, s, Run(tid, ok))
    ensures var s', pc := Apply(t, s, Run(tid, ok)), s.threads[tid];
            if pc.Pop? then InHand(s) == [] && InHand(s') == [s.queue[0]]
            else if pc.Post? then InHand(s) == [pc.next] && InHand(s') == []
            else InHand(s') == InHand(s)
  {
    HolderAfter(s, tid, ok);
    HandColumn(s, tid, ok);
    if s.h.token == HeldBy(tid) {
      assert HoldsToken(s.threads[tid]);
    } else {
      assert !HoldsToken(s.threads[tid]) && Carries(s.threads[tid]) == [];
    }
  }

  lemma OrderRun(t: Template, s: State, tid: Tid, ok: bool)
    requires Guards(s) && OrderInv(s) && Enabled(t, s, Run(tid, ok))
    ensures OrderInv(Apply(t, s, Run(tid, ok)))
  {
    HandAfter(t, s, tid, ok);
    var pc := s.threads[tid];
    if pc.Append? {
      Rearrange(s.h.submitted, InHand(s), s.h.drained, s.queue, [pc.packet]);
    } else if pc.Pop? {
      Rearrange(s.h.submitted, [s.queue[0]], s.h.drained, [], s.queue[1..]);
    }
  }

  /** With nothing drained, sequences join up as they come. */
  lemma Rearrange(a: seq<Packet>, b: seq<Packet>, c: seq<Packet>, d: seq<Packet>, e: seq<Packet>)
    requires c == []
    ensures (a + b + c + d) + e == a + b + c + (d + e)
    ensures a + b + c == a + b && a + [] == a
    ensures d == [] ==> a + [] + c + (b + e) == a + b + c + e
  {
  }

  lemma OrderElse(t: Template, s: State, step: Step)
    requires Guards(s) && OrderInv(s) && Enabled(t, s, step) && !step.Run?
    ensures OrderInv(Apply(t, s, step))
  {
    var s' := Apply(t, s, step);
    assert InHand(s') == InHand(s);
    if step.Drain? {
      assert s.queue == [s.queue[0]] + s.queue[1..];
      assert InHand(s) == [];
    }
  }

  // ----- no lost wake-up

  /** The thread has returned the token and still has to call tcp_try_write without a packet. */
  predicate WillTry(pc: Pc) {
    pc.EnterEmpty? || pc.FailedFree?
  }

  /** The lock holder is about to look for something to send. */
  ghost predicate AtWork(s: State) {
    && s.lock.Some? && s.lock.value in s.threads
    && var pc := s.threads[s.lock.value];
       pc.CheckQueue? || pc.Probe? || pc.Retract?
  }

  ghost predicate WakeInv(s: State) {
    s.queue != [] && s.h.token == Free ==> AtWork(s) || exists i :: i in s.threads && WillTry(s.threads[i])
  }

  lemma WakeRun(t: Template, s: State, tid: Tid, ok: bool)
    requires Guards(s) && WakeInv(s) && Enabled(t, s, Run(tid, ok))
    ensures WakeInv(Apply(t, s, Run(tid, ok)))
  {
    var s', pc := Apply(t, s, Run(tid, ok)), s.threads[tid];
    if s'.queue != [] && s'.h.token == Free {
      if pc.SendRelease? || pc.FailedRelease? || pc.FailedFree? {
        assert WillTry(s'.threads[tid]);
      } else if pc.EnterEmpty? || pc.Append? || pc.CheckQueue? || pc.Retract? {
        assert AtWork(s');
      } else if AtWork(s) {
        assert s.lock != Some(tid) || pc.Probe?;
        assert AtWork(s');
      } else {
        var i :| i in s.threads && WillTry(s.threads[i]);
        assert i != tid;
        assert WillTry(s'.threads[i]);
      }
    }
  }

  lemma WakeElse(t: Template, s: State, step: Step)
    requires Guards(s) && WakeInv(s) && Enabled(t, s, step) && !step.Run?
    ensures WakeInv(Apply(t, s, step))
  {
    var s' := Apply(t, s, step);
    if !step.Complete? && s'.queue != [] && s'.h.token == Free {
      if AtWork(s) {
        assert AtWork(s');
      } else {
        var i :| i in s.threads && WillTry(s.threads[i]);
        assert i in s'.threads && s'.threads[i] == s.threads[i];
      }
    }
  }

  // ----- a lost token means that the link is closed or about to be

  predicate WillClose(pc: Pc) {
    pc.Shut? || (pc.Failed? && pc.fatal)
  }

  ghost predicate LostInv(s: State) {
    s.h.token == Lost ==> s.closed || exists i :: i in s.threads && WillClose(s.threads[i])
  }

  lemma LostRun(t: Template, s: State, tid: Tid, ok: bool)
    requires Guards(s) && LostInv(s) && Enabled(t, s, Run(tid, ok))
    ensures LostInv(Apply(t, s, Run(tid, ok)))
  {
    var s', pc := Apply(t, s, Run(tid, ok)), s.threads[tid];
    if s'.h.token == Lost && !s'.closed {
      if pc.Post? || pc.Failed? {
        assert WillClose(s'.threads[tid]);
      } else {
        var i :| i in s.threads && WillClose(s.threads[i]);
        assert i != tid && WillClose(s'.threads[i]);
      }
    }
  }

  lemma LostElse(t: Template, s: State, step: Step)
    requires LostInv(s) && Enabled(t, s, step) && !step.Run?
    ensures LostInv(Apply(t, s, step))
  {
    var s' := Apply(t, s, step);
    if s'.h.token == Lost && !s'.closed {
      if step.Complete? {
        assert WillClose(s'.threads[step.tid]);
      } else {
        var i :| i in s.threads && WillClose(s.threads[i]);
        assert WillClose(s'.threads[i]);
      }
    }
  }

  // ----- ownership

  function HeldForCaller(c: Caller): set<Packet> {
    if c.Completion? then {c.done} else {}
  }

  /** The packets that a thread at this point still has to pass on or free. */
  function Held(pc: Pc): set<Packet> {
    match pc
    case PreCheck(_) => {}
    case Build(_) => {}
    case Refused(p) => {p}
    case EnterWith(p) => {p}
    case EnterEmpty(c) => HeldForCaller(c)
    case CountUp(p) => {p}
    case CountBack(p) => {p}
    case Append(p) => {p}
    case CheckQueue(c) => HeldForCaller(c)
    case Probe(c, _) => HeldForCaller(c)
    case Retract(c, _) => HeldForCaller(c)
    case Pop(c) => HeldForCaller(c)
    case Discount(c, next) => HeldForCaller(c) + {next}
    case LeaveRefused(p) => {p}
    case LeaveIdle(c) => HeldForCaller(c)
    case LeaveToPost(c, next) => HeldForCaller(c) + {next}
    case Post(c, next) => HeldForCaller(c) + {next}
    case Return(c) => HeldForCaller(c)
    case Release => {}
    case SendDone(p) => {p}
    case SendRelease(p) => {p}
    case Failed(p, _) => {p}
    case FailedRelease(p) => {p}
    case FailedFree(p) => {p}
    case Orphan(p) => {p}
    case Shut(p, after) => (if after.Some? then HeldForCaller(after.value) else {}) + {p}
  }

  /** A thread that holds a completed packet and a new one holds two different packets. */
  predicate TwoDiffer(pc: Pc) {
    match pc
    case Discount(c, next) => next !in HeldForCaller(c)
    case LeaveToPost(c, next) => next !in HeldForCaller(c)
    case Post(c, next) => next !in HeldForCaller(c)
    case Shut(p, after) => after.Some? ==> p !in HeldForCaller(after.value)
    case _ => true
  }

  ghost predicate HeldIn(threads: map<Tid, Pc>, place: map<Packet, Place>) {
    forall i, p :: i in threads && p in Held(threads[i]) ==> p in place && place[p] == With(i)
  }

  ghost predicate HeldInv(s: State) {
    && HeldIn(s.threads, s.h.place)
    && (forall i :: i in s.threads ==> TwoDiffer(s.threads[i]))
  }

  ghost predicate PlacedAs(ps: seq<Packet>, place: map<Packet, Place>, where: Place) {
    forall p :: p in ps ==> p in place && place[p] == where
  }

  ghost predicate ListsInv(s: State) {
    && PlacedAs(s.queue, s.h.place, Queued)
    && PlacedAs(s.kernel, s.h.place, Submitted)
    && PlacedAs(s.h.freed, s.h.place, Gone)
  }

  ghost predicate NoRepeats(ps: seq<Packet>) {
    forall i, j :: 0 <= i < j < |ps| ==> ps[i] != ps[j]
  }

  /** No packet is queued twice, and none is freed twice. */
  ghost predicate OnceInv(s: State) {
    NoRepeats(s.queue) && NoRepeats(s.h.freed)
  }

  /** p is where its place says. */
  ghost predicate Covered(s: State, p: Packet)
    requires p in s.h.place
  {
    && p.id < s.nextId
    && match s.h.place[p]
       case With(i) => i in s.threads && p in Held(s.threads[i])
       case Queued => p in s.queue
       case Submitted => p in s.kernel
       case Gone => p in s.h.freed
  }

  /** Every packet ever allocated is somewhere: none leaks. */
  ghost predicate CoverInv(s: State) {
    forall p :: p in s.h.place ==> Covered(s, p)
  }

  ghost predicate PlaceInv(s: State) {
    HeldInv(s) && ListsInv(s) && OnceInv(s) && CoverInv(s)
  }

  /** A handover changes what the acting thread holds by exactly that packet. */
  ghost predicate HoldsAfter(s: State, tid: Tid, ok: bool)
    requires tid in s.threads && (s.threads[tid].Pop? ==> s.queue != [])
  {
    var move, pc' := Handover(s, tid, ok), NextPc(s, tid, ok);
    (if pc'.None? then {} else Held(pc'.value))
    == (if move.None? then Held(s.threads[tid])
        else if move.value.1.With? then Held(s.threads[tid]) + {move.value.0}
        else Held(s.threads[tid]) - {move.value.0})
  }

  lemma HeldColumnLocked(s: State, tid: Tid, ok: bool)
    requires tid in s.threads && (s.threads[tid].Pop? ==> s.queue != []) && InsideLock(s.threads[tid])
    ensures HoldsAfter(s, tid, ok)
  {
  }

  lemma HeldColumnUnlocked(s: State, tid: Tid, ok: bool)
    requires tid in s.threads && !InsideLock(s.threads[tid]) && TwoDiffer(s.threads[tid])
    ensures HoldsAfter(s, tid, ok)
  {
  }

  lemma HeldColumn(s: State, tid: Tid, ok: bool)
    requires tid in s.threads && (s.threads[tid].Pop? ==> s.queue != []) && TwoDiffer(s.threads[tid])
    ensures HoldsAfter(s, tid, ok)
  {
    if InsideLock(s.threads[tid]) {
      HeldColumnLocked(s, tid, ok);
    } else {
      HeldColumnUnlocked(s, tid, ok);
    }
  }

  /** Where the packet of a handover was before. */
  lemma HandoverFrom(s: State, tid: Tid, ok: bool)
    requires tid in s.threads && (s.threads[tid].Pop? ==> s.queue != []) && PlaceInv(s)
    ensures var move, pc := Handover(s, tid, ok), s.threads[tid];
            move.Some? ==>
              var (p, to) := move.value;
              if pc.Build? then p !in s.h.place && to == With(tid)
              else if pc.Pop? then p in s.h.place && s.h.place[p] == Queued && to == With(tid)
              else p in Held(pc) && p in s.h.place && s.h.place[p] == With(tid) && !to.With?
  {
  }

  lemma TwoDifferAfter(s: State, tid: Tid, ok: bool)
    requires tid in s.threads && (s.threads[tid].Pop? ==> s.queue != []) && PlaceInv(s)
    ensures var pc' := NextPc(s, tid, ok); pc'.Some? ==> TwoDiffer(pc'.value)
  {
    if s.threads[tid].Pop? {
      assert s.queue[0] in s.queue;
      assert s.queue[0] !in Held(s.threads[tid]);
    }
  }

  /** One thread moves on and at most one packet changes hands with it. */
  lemma HeldMoves(threads: map<Tid, Pc>, place: map<Packet, Place>, tid: Tid, pc: Option<Pc>,
                  move: Option<(Packet, Place)>)
    requires tid in threads && HeldIn(threads, place)
    requires (if pc.None? then {} else Held(pc.value))
          == (if move.None? then Held(threads[tid])
              else if move.value.1.With? then Held(threads[tid]) + {move.value.0}
              else Held(threads[tid]) - {move.value.0})
    requires move.Some? ==>
               var (p, to) := move.value;
               if to.With? then to.tid == tid && (p in place ==> !place[p].With?)
               else p in place && place[p] == With(tid)
    ensures HeldIn(Move(threads, tid, pc), Relocate(place, move))
  {
  }

  lemma HeldRun(t: Template, s: State, tid: Tid, ok: bool)
    requires PlaceInv(s) && Enabled(t, s, Run(tid, ok))
    ensures HeldInv(Apply(t, s, Run(tid, ok)))
  {
    HeldColumn(s, tid, ok);
    HandoverFrom(s, tid, ok);
    TwoDifferAfter(s, tid, ok);
    HeldMoves(s.threads, s.h.place, tid, NextPc(s, tid, ok), Handover(s, tid, ok));
  }

  /** A packet that is not on a list changes hands, and may be put at the list's end. */
  lemma PlacedMoves(ps: seq<Packet>, place: map<Packet, Place>, where: Place, move: Option<(Packet, Place)>)
    requires PlacedAs(ps, place, where)
    requires move.Some? && move.value.0 in place ==> place[move.value.0] != where
    ensures PlacedAs(ps, Relocate(place, move), where)
    ensures move.Some? && move.value.1 == where ==> PlacedAs(ps + [move.value.0], Relocate(place, move), where)
  {
  }

  lemma QueuePlacedRun(t: Template, s: State, tid: Tid, ok: bool)
    requires PlaceInv(s) && Enabled(t, s, Run(tid, ok))
    ensures var s' := Apply(t, s, Run(tid, ok)); PlacedAs(s'.queue, s'.h.place, Queued)
  {
    HandoverFrom(s, tid, ok);
    if s.threads[tid].Pop? {
      assert s.queue[0] in s.queue && s.queue[0] !in s.queue[1..];
    } else {
      PlacedMoves(s.queue, s.h.place, Queued, Handover(s, tid, ok));
    }
  }

  lemma KernelPlacedRun(t: Template, s: State, tid: Tid, ok: bool)
    requires PlaceInv(s) && Enabled(t, s, Run(tid, ok))
    ensures var s' := Apply(t, s, Run(tid, ok)); PlacedAs(s'.kernel, s'.h.place, Submitted)
  {
    HandoverFrom(s, tid, ok);
    PlacedMoves(s.kernel, s.h.place, Submitted, Handover(s, tid, ok));
  }

  lemma FreedPlacedRun(t: Template, s: State, tid: Tid, ok: bool)
    requires PlaceInv(s) && Enabled(t, s, Run(tid, ok))
    ensures var s' := Apply(t, s, Run(tid, ok)); PlacedAs(s'.h.freed, s'.h.place, Gone)
  {
    HandoverFrom(s, tid, ok);
    PlacedMoves(s.h.freed, s.h.place, Gone, Handover(s, tid, ok));
  }

  lemma ListsRun(t: Template, s: State, tid: Tid, ok: bool)
    requires PlaceInv(s) && Enabled(t, s, Run(tid, ok))
    ensures ListsInv(Apply(t, s, Run(tid, ok)))
  {
    QueuePlacedRun(t, s, tid, ok);
    KernelPlacedRun(t, s, tid, ok);
    FreedPlacedRun(t, s, tid, ok);
  }

  lemma NoRepeatsSnoc(ps: seq<Packet>, p: Packet)
    requires NoRepeats(ps) && p !in ps
    ensures NoRepeats(ps + [p])
  {
  }

  lemma OnceRun(t: Template, s: State, tid: Tid, ok: bool)
    requires PlaceInv(s) && Enabled(t, s, Run(tid, ok))
    ensures OnceInv(Apply(t, s, Run(tid, ok)))
  {
    var pc := s.threads[tid];
    HandoverFrom(s, tid, ok);
    if pc.Append? {
      NoRepeatsSnoc(s.queue, pc.packet);
    }
    if Frees(pc).Some? {
      NoRepeatsSnoc(s.h.freed, Frees(pc).value);
    }
  }

  lemma CoverMoved(t: Template, s: State, tid: Tid, ok: bool)
    requires PlaceInv(s) && Enabled(t, s, Run(tid, ok)) && Handover(s, tid, ok).Some?
    ensures Covered(Apply(t, s, Run(tid, ok)), Handover(s, tid, ok).value.0)
  {
    HeldColumn(s, tid, ok);
    HandoverFrom(s, tid, ok);
    assert Handover(s, tid, ok).value.0 in s.h.place ==> Covered(s, Handover(s, tid, ok).value.0);
  }

  lemma CoverOther(t: Template, s: State, tid: Tid, ok: bool, p: Packet)
    requires PlaceInv(s) && Enabled(t, s, Run(tid, ok))
    requires p in s.h.place && (Handover(s, tid, ok).Some? ==> p != Handover(s, tid, ok).value.0)
    ensures p in Apply(t, s, Run(tid, ok)).h.place && Covered(Apply(t, s, Run(tid, ok)), p)
  {
    assert Covered(s, p);
    HeldColumn(s, tid, ok);
  }

  lemma CoverRun(t: Template, s: State, tid: Tid, ok: bool)
    requires PlaceInv(s) && Enabled(t, s, Run(tid, ok))
    ensures CoverInv(Apply(t, s, Run(tid, ok)))
  {
    var s' := Apply(t, s, Run(tid, ok));
    forall p | p in s'.h.place
      ensures Covered(s', p)
    {
      if Handover(s, tid, ok).Some? && p == Handover(s, tid, ok).value.0 {
        CoverMoved(t, s, tid, ok);
      } else {
        CoverOther(t, s, tid, ok, p);
      }
    }
  }

  lemma PlaceWrite(t: Template, s: State, tid: Tid, payload: seq<Byte>)
    requires PlaceInv(s) && Enabled(t, s, Write(tid, payload))
    ensures PlaceInv(Apply(t, s, Write(tid, payload)))
  {
  }

  lemma StartHolds(p: Packet, outcome: Outcome)
    ensures Held(CompletePc(p, outcome)) == {p}
  {
  }

  /** A new thread starts with a packet that no thread held. */
  lemma HeldStarts(threads: map<Tid, Pc>, place: map<Packet, Place>, tid: Tid, pc: Pc, p: Packet)
    requires tid !in threads && HeldIn(threads, place)
    requires Held(pc) == {p} && (p in place ==> !place[p].With?)
    ensures HeldIn(threads[tid := pc], place[p := With(tid)])
  {
  }

  lemma HeldComplete(t: Template, s: State, tid: Tid, index: nat, outcome: Outcome)
    requires KernelInv(s) && PlaceInv(s) && Enabled(t, s, Complete(tid, index, outcome))
    ensures HeldInv(Apply(t, s, Complete(tid, index, outcome)))
  {
    var p := s.kernel[index];
    assert p in s.kernel;
    StartHolds(p, outcome);
    HeldStarts(s.threads, s.h.place, tid, CompletePc(p, outcome), p);
  }

  lemma ListsComplete(t: Template, s: State, tid: Tid, index: nat, outcome: Outcome)
    requires KernelInv(s) && PlaceInv(s) && Enabled(t, s, Complete(tid, index, outcome))
    ensures ListsInv(Apply(t, s, Complete(tid, index, outcome)))
    ensures OnceInv(Apply(t, s, Complete(tid, index, outcome)))
  {
    var p := s.kernel[index];
    assert p in s.kernel;
    PlacedMoves(s.queue, s.h.place, Queued, Some((p, With(tid))));
    PlacedMoves(s.h.freed, s.h.place, Gone, Some((p, With(tid))));
  }

  /** Only the packet p moves; every other packet stays where it was. */
  lemma CoverStays(s: State, s': State, p: Packet)
    requires CoverInv(s) && s'.nextId >= s.nextId
    requires p in s'.h.place && Covered(s', p)
    requires forall q :: q in s'.h.place && q != p ==> q in s.h.place && s'.h.place[q] == s.h.place[q]
    requires forall i :: i in s.threads ==> i in s'.threads && s'.threads[i] == s.threads[i]
    requires forall q :: q != p ==> (q in s.queue ==> q in s'.queue) && (q in s.kernel ==> q in s'.kernel)
                                    && (q in s.h.freed ==> q in s'.h.freed)
    ensures CoverInv(s')
  {
    forall q | q in s'.h.place && q != p
      ensures Covered(s', q)
    {
      assert Covered(s, q);
    }
  }

  lemma CoverComplete(t: Template, s: State, tid: Tid, index: nat, outcome: Outcome)
    requires KernelInv(s) && PlaceInv(s) && Enabled(t, s, Complete(tid, index, outcome))
    ensures CoverInv(Apply(t, s, Complete(tid, index, outcome)))
  {
    var p, s' := s.kernel[index], Apply(t, s, Complete(tid, index, outcome));
    assert p in s.kernel && s.kernel == [p];
    assert Covered(s, p);
    StartHolds(p, outcome);
    assert s'.h.place[p] == With(tid) && s'.threads[tid] == CompletePc(p, outcome);
    CoverStays(s, s', p);
  }

  /** A packet that no thread holds moves, and the threads hold what they held. */
  lemma HeldStays(threads: map<Tid, Pc>, place: map<Packet, Place>, p: Packet, where: Place)
    requires HeldIn(threads, place) && p in place && !place[p].With?
    ensures HeldIn(threads, place[p := where])
  {
  }

  lemma HeldDrain(t: Template, s: State)
    requires PlaceInv(s) && Enabled(t, s, Drain)
    ensures HeldInv(Apply(t, s, Drain))
  {
    assert s.queue[0] in s.queue;
    HeldStays(s.threads, s.h.place, s.queue[0], Gone);
  }

  lemma ListsDrain(t: Template, s: State)
    requires PlaceInv(s) && Enabled(t, s, Drain)
    ensures ListsInv(Apply(t, s, Drain))
  {
    var p := s.queue[0];
    assert p in s.queue;
    assert p !in s.queue[1..];
    PlacedMoves(s.queue[1..], s.h.place, Queued, None);
    PlacedMoves(s.kernel, s.h.place, Submitted, Some((p, Gone)));
    PlacedMoves(s.h.freed, s.h.place, Gone, Some((p, Gone)));
  }

  lemma OnceDrain(t: Template, s: State)
    requires PlaceInv(s) && Enabled(t, s, Drain)
    ensures OnceInv(Apply(t, s, Drain))
  {
    assert s.queue[0] in s.queue;
    assert s.queue[0] !in s.h.freed;
  }

  lemma CoverDrain(t: Template, s: State)
    requires PlaceInv(s) && Enabled(t, s, Drain)
    ensures CoverInv(Apply(t, s, Drain))
  {
    var p, s' := s.queue[0], Apply(t, s, Drain);
    assert p in s.queue && s.queue == [p] + s'.queue;
    assert Covered(s, p);
    CoverStays(s, s', p);
  }

  lemma PlaceElse(t: Template, s: State, step: Step)
    requires TokenInv(s) && PlaceInv(s) && Enabled(t, s, step) && !step.Run?
    ensures PlaceInv(Apply(t, s, step))
  {
    match step
    case Write(tid, payload) => PlaceWrite(t, s, tid, payload);
    case Complete(tid, index, outcome) =>
      HeldComplete(t, s, tid, index, outcome);
      ListsComplete(t, s, tid, index, outcome);
      CoverComplete(t, s, tid, index, outcome);
    case Drain =>
      HeldDrain(t, s);
      ListsDrain(t, s);
      OnceDrain(t, s);
      CoverDrain(t, s);
    case _ =>
  }

  // ----- what is queued is what tcp_write accepts

  predicate Sendable(payload: seq<Byte>) {
    0 < |payload| <= MAXIMUM_PACKET_SIZE
  }

  /** User data that tcp_write can make a packet of. */
  predicate Encodable(t: Template, payload: seq<Byte>) {
    Sendable(payload) && t.Accepts(|payload|)
  }

  /** The length check of tcp_write (tcp.c:1277) and the builder's (tcp.c:1319) hold of everything behind them. */
  ghost predicate PayloadInv(t: Template, s: State) {
    && (forall i :: i in s.threads && (s.threads[i].PreCheck? || s.threads[i].Build?) ==> Sendable(s.threads[i].payload))
    && (forall p :: p in s.h.place ==> Encodable(t, p.payload))
  }

  /** What was appended was allocated, and is appended once. */
  ghost predicate AppendedInv(s: State) {
    (forall p :: p in s.h.appended ==> p in s.h.place) && NoRepeats(s.h.appended)
  }

  /** The thread still has the packet that tcp_write made and has not linked it. */
  predicate Unlinked(pc: Pc) {
    pc.EnterWith? || pc.CountUp? || pc.CountBack? || pc.Append? || pc.LeaveRefused? || pc.Refused?
  }

  ghost predicate UnlinkedInv(s: State) {
    forall i :: i in s.threads && Unlinked(s.threads[i]) ==> s.threads[i].packet !in s.h.appended
  }

  lemma UnlinkedIsHeld(pc: Pc)
    requires Unlinked(pc)
    ensures pc.packet in Held(pc)
  {
  }

  lemma UnlinkedAfter(s: State, tid: Tid, ok: bool)
    requires tid in s.threads && (s.threads[tid].Pop? ==> s.queue != [])
    ensures var pc, pc' := s.threads[tid], NextPc(s, tid, ok);
            pc'.Some? && Unlinked(pc'.value) ==>
              if pc.Build? then pc'.value.packet.id == s.nextId
              else Unlinked(pc) && !pc.Append? && pc'.value.packet == pc.packet
  {
  }

  lemma UnlinkedRun(t: Template, s: State, tid: Tid, ok: bool)
    requires PlaceInv(s) && AppendedInv(s) && UnlinkedInv(s) && Enabled(t, s, Run(tid, ok))
    ensures UnlinkedInv(Apply(t, s, Run(tid, ok)))
  {
    var s', pc := Apply(t, s, Run(tid, ok)), s.threads[tid];
    UnlinkedAfter(s, tid, ok);
    forall i | i in s'.threads && Unlinked(s'.threads[i])
      ensures s'.threads[i].packet !in s'.h.appended
    {
      var p := s'.threads[i].packet;
      if i != tid {
        assert s'.threads[i] == s.threads[i];
        UnlinkedIsHeld(s.threads[i]);
        assert p in s.h.place && s.h.place[p] == With(i);
        if pc.Append? {
          UnlinkedIsHeld(pc);
          assert pc.packet in s.h.place && s.h.place[pc.packet] == With(tid);
        }
      } else if pc.Build? {
        assert p in s.h.place ==> Covered(s, p);
      }
    }
  }

  lemma UnlinkedElse(t: Template, s: State, step: Step)
    requires UnlinkedInv(s) && Enabled(t, s, step) && !step.Run?
    ensures UnlinkedInv(Apply(t, s, step))
  {
  }

  lemma PayloadAfter(s: State, tid: Tid, ok: bool)
    requires tid in s.threads && (s.threads[tid].Pop? ==> s.queue != [])
    ensures var pc, pc', move := s.threads[tid], NextPc(s, tid, ok), Handover(s, tid, ok);
            && (pc'.Some? && (pc'.value.PreCheck? || pc'.value.Build?) ==>
                 pc.PreCheck? && pc'.value.payload == pc.payload)
            && (pc.Build? && move.Some? ==> move.value.0.payload == pc.payload)
  {
  }

  lemma PayloadRun(t: Template, s: State, tid: Tid, ok: bool)
    requires PlaceInv(s) && PayloadInv(t, s) && Enabled(t, s, Run(tid, ok))
    ensures PayloadInv(t, Apply(t, s, Run(tid, ok)))
  {
    HandoverFrom(s, tid, ok);
    PayloadAfter(s, tid, ok);
  }

  lemma AppendedRun(t: Template, s: State, tid: Tid, ok: bool)
    requires AppendedInv(s) && UnlinkedInv(s) && PlaceInv(s) && Enabled(t, s, Run(tid, ok))
    ensures AppendedInv(Apply(t, s, Run(tid, ok)))
  {
  }

  lemma PayloadElse(t: Template, s: State, step: Step)
    requires PlaceInv(s) && PayloadInv(t, s) && AppendedInv(s) && Enabled(t, s, step) && !step.Run?
    ensures PayloadInv(t, Apply(t, s, step)) && AppendedInv(Apply(t, s, step))
  {
    if step.Complete? {
      assert s.kernel[step.index] in s.kernel;
    }
  }
}
