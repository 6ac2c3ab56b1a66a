/** The send side, over every run: any number of threads, any interleaving, any outcome of the outside calls. */
module SendTheorems {
  import opened Templates
  import Runs
  import opened SendMachine
  import opened SendInvariants
  import opened SendOwnership
  import opened SendWire

  ghost predicate Inv(t: Template, s: State) {
    && LockInv(s) && UnloadInv(s) && TokenInv(s) && PendingInv(s) && RetryInv(s) && QueueInv(s)
    && SizeInv(s) && BoundInv(s) && OrderInv(s) && WakeInv(s) && LostInv(s) && PlaceInv(s) && PayloadInv(t, s)
    && AppendedInv(s) && UnlinkedInv(s) && FlightInv(t, s) && WireInv(t, s)
  }

  lemma InvInitial(t: Template)
    ensures Inv(t, INITIAL)
  {
  }

  lemma InvRun(t: Template, s: State, tid: Tid, ok: bool)
    requires Inv(t, s) && Enabled(t, s, Run(tid, ok))
    ensures Inv(t, Apply(t, s, Run(tid, ok)))
  {
    LockRun(t, s, tid, ok);
    UnloadRun(t, s, tid, ok);
    HolderRun(t, s, tid, ok);
    FatalRun(t, s, tid, ok);
    KernelRun(t, s, tid, ok);
    PendingRun(t, s, tid, ok);
    RetryRun(t, s, tid, ok);
    QueueRun(t, s, tid, ok);
    SizeRun(t, s, tid, ok);
    BoundRun(t, s, tid, ok);
    OrderRun(t, s, tid, ok);
    WakeRun(t, s, tid, ok);
    LostRun(t, s, tid, ok);
    HeldRun(t, s, tid, ok);
    ListsRun(t, s, tid, ok);
    OnceRun(t, s, tid, ok);
    CoverRun(t, s, tid, ok);
    PayloadRun(t, s, tid, ok);
    AppendedRun(t, s, tid, ok);
    UnlinkedRun(t, s, tid, ok);
    FlightRun(t, s, tid, ok);
    WireRun(t, s, tid, ok);
  }

  lemma InvElse(t: Template, s: State, step: Step)
    requires Inv(t, s) && Enabled(t, s, step) && !step.Run?
    ensures Inv(t, Apply(t, s, step))
  {
    LockElse(t, s, step);
    UnloadElse(t, s, step);
    TokenElse(t, s, step);
    PendingElse(t, s, step);
    RetryElse(t, s, step);
    QueueElse(t, s, step);
    SizeElse(t, s, step);
    BoundElse(t, s, step);
    OrderElse(t, s, step);
    WakeElse(t, s, step);
    LostElse(t, s, step);
    PlaceElse(t, s, step);
    PayloadElse(t, s, step);
    UnlinkedElse(t, s, step);
    FlightElse(t, s, step);
    WireElse(t, s, step);
  }

  lemma InvStepped(t: Template, s: State, s': State)
    requires Inv(t, s) && Stepped(t, s, s')
    ensures Inv(t, s')
  {
    var step :| Enabled(t, s, step) && Apply(t, s, step) == s';
    if step.Run? {
      InvRun(t, s, step.tid, step.ok);
    } else {
      InvElse(t, s, step);
    }
  }

  lemma InvLeads(t: Template, start: State, end: State)
    requires Inv(t, start) && Leads(t, start, end)
    ensures Inv(t, end)
  {
    forall s, s' | Inv(t, s) && Stepped(t, s, s')
      ensures Inv(t, s')
    {
      InvStepped(t, s, s');
    }
    Runs.KeptLeads(Next(t), s => Inv(t, s), start, end);
  }

  lemma InvReachable(t: Template, s: State)
    requires Reachable(t, s)
    ensures Inv(t, s)
  {
    InvInitial(t);
    InvLeads(t, INITIAL, s);
  }

  /** The history is only a record: what can happen, and what it does to the rest, does not depend on it. */
  lemma HistoryIsPassive(t: Template, s: State, h: History, step: Step)
    ensures Enabled(t, s, step) <==> Enabled(t, s.(h := h), step)
    ensures Enabled(t, s, step) ==> Apply(t, s, step).(h := h) == Apply(t, s.(h := h), step).(h := h)
  {
    if step.Run? && Enabled(t, s, step) {
      RunIgnoresHistory(s, h, step.tid, step.ok);
    }
  }

  lemma RunIgnoresHistory(s: State, h: History, tid: Tid, ok: bool)
    requires tid in s.threads && (s.threads[tid].Pop? ==> s.queue != [])
    ensures RunThread(s, tid, ok).(h := h) == RunThread(s.(h := h), tid, ok).(h := h)
  {
    assert NextPc(s, tid, ok) == NextPc(s.(h := h), tid, ok);
  }

  // ----- mutual exclusion and order

  /** At most one send is under way: in the kernel, with the one thread that may submit, or with the one
      thread that has been told of its completion. */
  lemma OneSendAtATime(t: Template, s: State)
    requires Reachable(t, s)
    ensures |s.kernel| <= 1
    ensures forall i, j :: i in s.threads && j in s.threads && HoldsToken(s.threads[i]) && HoldsToken(s.threads[j])
                           ==> i == j
    ensures s.kernel != [] ==> forall i :: i in s.threads ==> !HoldsToken(s.threads[i])
  {
    InvReachable(t, s);
  }

  /** Although the post happens outside the lock, packets are submitted in the order of the list appends. */
  lemma FifoSubmission(t: Template, s: State)
    requires Reachable(t, s)
    ensures s.h.submitted <= s.h.appended
  {
    InvReachable(t, s);
    Associate(s.h.submitted, InHand(s), s.h.drained, s.queue);
  }

  lemma Associate(a: seq<Packet>, b: seq<Packet>, c: seq<Packet>, d: seq<Packet>)
    ensures a + b + c + d == a + (b + c + d)
    ensures a <= a + b + c + d
  {
  }

  /** What was appended and not submitted is in the one thread's hand, then drained or queued; in order. */
  lemma AppendedAccounted(t: Template, s: State)
    requires Reachable(t, s)
    ensures s.h.appended == s.h.submitted + InHand(s) + s.h.drained + s.queue
    ensures |InHand(s)| <= 1 && (s.h.drained != [] ==> s.unloading && InHand(s) == [])
  {
    InvReachable(t, s);
  }

  // ----- the pending counter

  /** A send is under way, or the link has lost the right to send for good. */
  ghost predicate TokenOut(s: State) {
    || s.kernel != []
    || (exists i :: i in s.threads && HoldsToken(s.threads[i]))
    || s.h.token == Lost
  }

  /** tcp_write_pending_ is 0, 1 or 2: one while the token is out, and one for the lock holder's probe. */
  lemma PendingAccounting(t: Template, s: State)
    requires Reachable(t, s)
    ensures s.pending == (if TokenOut(s) then 1 else 0) + (if Retracting(s) then 1 else 0)
    ensures 0 <= s.pending <= 2
  {
    InvReachable(t, s);
    if s.h.token.HeldBy? {
      assert HoldsToken(s.threads[s.h.token.tid]);
    }
  }

  // ----- progress of one call

  /** How many operations a thread has left at most. */
  function Rank(pc: Pc): nat {
    match pc
    case PreCheck(_) => 18
    case Build(_) => 17
    case Failed(_, _) => 19
    case SendDone(_) => 18
    case FailedRelease(_) => 18
    case SendRelease(_) => 17
    case FailedFree(_) => 17
    case EnterWith(_) => 16
    case EnterEmpty(_) => 16
    case CountUp(_) => 15
    case CheckQueue(_) => 14
    case Append(_) => 14
    case CountBack(_) => 6
    case Probe(_, n) => if n == 0 then 13 else 9
    case Retract(_, n) => 10
    case Pop(_) => 8
    case Discount(_, _) => 7
    case LeaveToPost(_, _) => 6
    case Post(_, _) => 5
    case Shut(_, _) => 4
    case LeaveIdle(_) => 4
    case LeaveRefused(_) => 4
    case Refused(_) => 3
    case Return(_) => 3
    case Orphan(_) => 2
    case Release => 2
  }

  lemma RankLocked(s: State, tid: Tid, ok: bool)
    requires tid in s.threads && (s.threads[tid].Pop? ==> s.queue != []) && RetryInv(s)
    requires InsideLock(s.threads[tid])
    requires s.threads[tid].Probe? && s.threads[tid].retries == 1 ==> s.pending == 0
    ensures NextPc(s, tid, ok).Some? ==> Rank(NextPc(s, tid, ok).value) < Rank(s.threads[tid])
  {
  }

  lemma RankUnlocked(s: State, tid: Tid, ok: bool)
    requires tid in s.threads && !InsideLock(s.threads[tid])
    ensures NextPc(s, tid, ok).Some? ==> Rank(NextPc(s, tid, ok).value) < Rank(s.threads[tid])
  {
  }

  /** Every operation brings its thread closer to the end of its call, in every interleaving: no call
      takes more than 20 operations of its own. */
  lemma CallsAreBounded(t: Template, s: State, tid: Tid, ok: bool)
    requires Reachable(t, s) && Enabled(t, s, Run(tid, ok))
    ensures NextPc(s, tid, ok).Some? ==> Rank(NextPc(s, tid, ok).value) < Rank(s.threads[tid]) <= 19
  {
    InvReachable(t, s);
    if InsideLock(s.threads[tid]) {
      RankLocked(s, tid, ok);
    } else {
      RankUnlocked(s, tid, ok);
    }
  }

  /** The increment and decrement loop turns at most once more: a thread that retries takes the token,
      whatever the other threads have done in between. */
  lemma SecondProbeWins(t: Template, s: State, tid: Tid, ok: bool)
    requires Reachable(t, s) && Enabled(t, s, Run(tid, ok)) && s.threads[tid].Probe?
    ensures s.threads[tid].retries <= 1
    ensures s.threads[tid].retries == 1 ==> s.pending == 0 && NextPc(s, tid, ok).value.Pop?
  {
    InvReachable(t, s);
  }

  /** The machine never sticks: while any thread is inside, some thread can go on. In particular the list
      is never empty where an element is taken from it. */
  lemma NeverStuck(t: Template, s: State)
    requires Reachable(t, s) && s.threads != map[]
    ensures exists i, ok :: Enabled(t, s, Run(i, ok))
    ensures forall i :: i in s.threads && s.threads[i].Pop? ==> s.queue != []
  {
    InvReachable(t, s);
    var i: Tid;
    if s.lock.Some? {
      i := s.lock.value;
    } else {
      i :| i in s.threads;
    }
    assert Enabled(t, s, Run(i, true)) || Enabled(t, s, Run(i, false));
  }

  // ----- no lost wake-up

  /** With packets queued, nobody inside the lock and the link not ending, someone is already bound to
      look at the queue: a send is in the kernel, or a thread is about to post or to return the token, or a
      completion thread has still to call tcp_try_write. */
  lemma NoLostWakeup(t: Template, s: State)
    requires Reachable(t, s) && s.queue != [] && s.lock.None?
    requires !s.closed && forall i :: i in s.threads ==> !WillClose(s.threads[i])
    ensures || s.kernel != []
            || exists i :: i in s.threads && (HoldsToken(s.threads[i]) || WillTry(s.threads[i]))
  {
    InvReachable(t, s);
    if s.h.token.HeldBy? {
      assert HoldsToken(s.threads[s.h.token.tid]);
    }
  }

  /** When everything has come to rest on an open link, nothing is left in the queue, and every packet
      that was appended has been submitted. */
  lemma QuiescentIsEmpty(t: Template, s: State)
    requires Reachable(t, s) && s.threads == map[] && s.kernel == [] && !s.closed
    ensures s.queue == [] && s.pending == 0 && s.listSize == 0 && s.h.submitted == s.h.appended
  {
    InvReachable(t, s);
  }

  // ----- the bound on the queue

  /** Between critical sections of a live link the counter is the length of the list, at most 499. */
  lemma CounterIsLength(t: Template, s: State)
    requires Reachable(t, s) && s.lock.None? && !s.unloading
    ensures s.listSize == |s.queue| <= 499
  {
    InvReachable(t, s);
  }

  /** A writer is refused under the lock exactly when 499 packets are queued already. The look before
      the lock also refuses exactly while another writer is being refused inside it. */
  lemma RefusedExactlyWhenFull(t: Template, s: State, tid: Tid, ok: bool)
    requires Reachable(t, s) && Enabled(t, s, Run(tid, ok))
    ensures s.threads[tid].CountUp? ==>
              (NextPc(s, tid, ok).value.CountBack? <==> |s.queue| == 499)
    ensures s.threads[tid].PreCheck? ==>
              (NextPc(s, tid, ok).value.Release?
               <==> s.lock.Some? && s.lock.value in s.threads && s.threads[s.lock.value].CountBack?)
  {
    InvReachable(t, s);
  }

  // ----- ownership

  /** Which of the four places a packet can be in. */
  ghost predicate WithThread(s: State, p: Packet) { exists i :: i in s.threads && p in Held(s.threads[i]) }

  /** The recorded place of a packet is the place where it is found, and the only one. */
  lemma PlaceIsTruth(s: State, p: Packet)
    requires PlaceInv(s) && p in s.h.place
    ensures forall i :: i in s.threads && p in Held(s.threads[i]) <==> s.h.place[p] == With(i)
    ensures p in s.queue <==> s.h.place[p] == Queued
    ensures p in s.kernel <==> s.h.place[p] == Submitted
    ensures p in s.h.freed <==> s.h.place[p] == Gone
  {
    assert Covered(s, p);
  }

  lemma ExactlyOne(s: State, p: Packet)
    requires PlaceInv(s) && p in s.h.place
    ensures Count(WithThread(s, p)) + Count(p in s.queue) + Count(p in s.kernel) + Count(p in s.h.freed) == 1
  {
    PlaceIsTruth(s, p);
    if s.h.place[p].With? {
      assert p in Held(s.threads[s.h.place[p].tid]);
    }
  }

  /** Every packet that was ever allocated is in exactly one place: held by one thread, queued, in the
      kernel, or freed; and no packet is queued or freed twice. */
  lemma OwnedExactlyOnce(t: Template, s: State, p: Packet)
    requires Reachable(t, s) && p in s.h.place
    ensures Count(WithThread(s, p)) + Count(p in s.queue) + Count(p in s.kernel) + Count(p in s.h.freed) == 1
    ensures forall i, j :: i in s.threads && j in s.threads && p in Held(s.threads[i]) && p in Held(s.threads[j])
                           ==> i == j
    ensures NoRepeats(s.queue) && NoRepeats(s.h.freed)
  {
    InvReachable(t, s);
    ExactlyOne(s, p);
    PlaceIsTruth(s, p);
  }

  /** What threads, lists and the kernel hold was allocated here; no packet comes from nowhere. */
  lemma OnlyAllocatedPackets(t: Template, s: State)
    requires Reachable(t, s)
    ensures forall i, p :: i in s.threads && p in Held(s.threads[i]) ==> p in s.h.place
    ensures forall p :: p in s.queue || p in s.kernel || p in s.h.freed ==> p in s.h.place
  {
    InvReachable(t, s);
    AllocatedIn(s);
  }

  lemma AllocatedIn(s: State)
    requires HeldInv(s) && ListsInv(s)
    ensures forall i, p :: i in s.threads && p in Held(s.threads[i]) ==> p in s.h.place
    ensures forall p :: p in s.queue || p in s.kernel || p in s.h.freed ==> p in s.h.place
  {
  }

  /** Once a link has been unloaded and nothing is under way, every packet has been freed. */
  lemma NothingLeaks(t: Template, s: State)
    requires Reachable(t, s) && s.unloading && s.queue == [] && s.threads == map[] && s.kernel == []
    ensures forall p :: p in s.h.place <==> p in s.h.freed
  {
    InvReachable(t, s);
    forall p | p in s.h.place
      ensures p in s.h.freed
    {
      assert Covered(s, p);
    }
  }

  /** Draining frees only what no one else can reach: when tcp_unload runs, no thread is inside the lock
      or holds a reference, and the send machine can no longer submit. */
  lemma UnloadIsExclusive(t: Template, s: State)
    requires Reachable(t, s) && s.unloading
    ensures s.lock.None? && InHand(s) == [] && s.listSize == 0
    ensures forall i :: i in s.threads ==> !HoldsReference(s.threads[i]) && !s.threads[i].Post?
  {
    InvReachable(t, s);
  }

  // ----- fail-stop

  /** The events that end sending: a post that fails, a completion of zero bytes, and a completion with a
      disconnect or reset status. */
  predicate EndsSending(s: State, step: Step) {
    || (step.Run? && !step.ok && step.tid in s.threads && s.threads[step.tid].Post?)
    || (step.Complete? && (step.outcome.ZeroLength? || (step.outcome.Error? && step.outcome.fatal)))
  }

  lemma EndingLoses(t: Template, s: State, step: Step)
    requires Enabled(t, s, step) && EndsSending(s, step)
    ensures Apply(t, s, step).h.token == Lost
  {
  }

  lemma LostStep(t: Template, s: State, step: Step)
    requires TokenInv(s) && PendingInv(s) && Enabled(t, s, step) && s.h.token == Lost
    ensures var s' := Apply(t, s, step);
            s'.h.token == Lost && s'.h.submitted == s.h.submitted
  {
    if step.Run? {
      LostStays(s, step.tid, step.ok);
      assert !HoldsToken(s.threads[step.tid]);
    }
  }

  ghost predicate StaysLost(t: Template, submitted: seq<Packet>, s: State) {
    Inv(t, s) && s.h.token == Lost && s.h.submitted == submitted
  }

  lemma LostStepped(t: Template, submitted: seq<Packet>, s: State, s': State)
    requires StaysLost(t, submitted, s) && Stepped(t, s, s')
    ensures StaysLost(t, submitted, s')
  {
    InvStepped(t, s, s');
    var step :| Enabled(t, s, step) && Apply(t, s, step) == s';
    LostStep(t, s, step);
  }

  lemma LostLeads(t: Template, start: State, end: State)
    requires StaysLost(t, start.h.submitted, start) && Leads(t, start, end)
    ensures StaysLost(t, start.h.submitted, end)
  {
    forall s, s' | StaysLost(t, start.h.submitted, s) && Stepped(t, s, s')
      ensures StaysLost(t, start.h.submitted, s')
    {
      LostStepped(t, start.h.submitted, s, s');
    }
    Runs.KeptLeads(Next(t), s => StaysLost(t, start.h.submitted, s), start, end);
  }

  lemma LostMeans(t: Template, s: State)
    requires Inv(t, s) && s.h.token == Lost
    ensures s.kernel == [] && s.pending >= 1
    ensures s.h.appended == s.h.submitted + s.h.drained + s.queue
    ensures s.closed || exists i :: i in s.threads && WillClose(s.threads[i])
  {
    assert s.h.submitted + [] == s.h.submitted;
  }

  /**
   * Fail-stop: whatever steps follow such an event, nothing is ever submitted again. The counter never
   * returns to zero, and what was appended and not submitted stays queued until tcp_unload frees it.
   */
  lemma FailStop(t: Template, s: State, step: Step, s': State)
    requires Reachable(t, s) && Enabled(t, s, step) && EndsSending(s, step)
    requires Leads(t, Apply(t, s, step), s')
    ensures s'.h.submitted == Apply(t, s, step).h.submitted && s'.kernel == [] && s'.pending >= 1
    ensures s'.h.appended == s'.h.submitted + s'.h.drained + s'.queue
    ensures s'.closed || exists i :: i in s'.threads && WillClose(s'.threads[i])
  {
    LeadsOn(t, INITIAL, s, step);
    InvReachable(t, Apply(t, s, step));
    EndingLoses(t, s, step);
    LostLeads(t, Apply(t, s, step), s');
    LostMeans(t, s');
  }

  // ----- runs

  lemma LeadsNowhere(t: Template, s: State)
    ensures Leads(t, s, s)
  {
    Runs.LeadsNowhere(Next(t), s);
  }

  /** A run may go on with any step that is enabled where it has come to. */
  lemma LeadsOn(t: Template, start: State, s: State, step: Step)
    requires Leads(t, start, s) && Enabled(t, s, step)
    ensures Leads(t, start, Apply(t, s, step))
  {
    Runs.LeadsOn(Next(t), start, s, Apply(t, s, step));
  }
}
