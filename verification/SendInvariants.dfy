/** What every step of the send machine keeps. */
module SendInvariants {
  import opened Templates
  import opened SendMachine

  // ----- the lock

  /** The lock is held by exactly the thread that is between EnterCriticalSection and LeaveCriticalSection. */
  ghost predicate LockInv(s: State) {
    && (s.lock.Some? ==> s.lock.value in s.threads && InsideLock(s.threads[s.lock.value]))
    && (forall i :: i in s.threads && InsideLock(s.threads[i]) ==> s.lock == Some(i))
  }

  predicate Enters(pc: Pc) { pc.EnterWith? || pc.EnterEmpty? }

  predicate Leaves(pc: Pc) { pc.LeaveRefused? || pc.LeaveIdle? || pc.LeaveToPost? }

  lemma InsideAfter(s: State, tid: Tid, ok: bool)
    requires tid in s.threads && (s.threads[tid].Pop? ==> s.queue != [])
    ensures var pc, pc' := s.threads[tid], NextPc(s, tid, ok);
            pc'.Some? && InsideLock(pc'.value) <==> Enters(pc) || (InsideLock(pc) && !Leaves(pc))
  {
  }

  lemma LockRun(t: Template, s: State, tid: Tid, ok: bool)
    requires LockInv(s) && Enabled(t, s, Run(tid, ok))
    ensures LockInv(Apply(t, s, Run(tid, ok)))
  {
    InsideAfter(s, tid, ok);
  }

  lemma LockElse(t: Template, s: State, step: Step)
    requires LockInv(s) && Enabled(t, s, step) && !step.Run?
    ensures LockInv(Apply(t, s, step))
  {
  }

  // ----- the object: tcp_unload runs when no thread holds a reference

  ghost predicate UnloadInv(s: State) {
    s.unloading ==> s.closed && forall i :: i in s.threads ==> !HoldsReference(s.threads[i])
  }

  lemma UnloadRun(t: Template, s: State, tid: Tid, ok: bool)
    requires UnloadInv(s) && Enabled(t, s, Run(tid, ok))
    ensures UnloadInv(Apply(t, s, Run(tid, ok)))
  {
  }

  lemma UnloadElse(t: Template, s: State, step: Step)
    requires UnloadInv(s) && Enabled(t, s, step) && !step.Run?
    ensures UnloadInv(Apply(t, s, step))
  {
  }

  // ----- the send token

  /** The thread has the right to submit, or has just been told that its packet completed. */
  predicate HoldsToken(pc: Pc) {
    || pc.Pop? || pc.Discount? || pc.LeaveToPost? || pc.Post?
    || pc.SendDone? || pc.SendRelease? || (pc.Failed? && !pc.fatal) || pc.FailedRelease?
  }

  ghost predicate HolderInv(s: State) {
    && (forall i :: i in s.threads && HoldsToken(s.threads[i]) ==> s.h.token == HeldBy(i))
    && (s.h.token.HeldBy? ==> s.h.token.tid in s.threads && HoldsToken(s.threads[s.h.token.tid]))
  }

  /** A send that completed with a disconnect or reset status has already cost the link its token. */
  ghost predicate FatalInv(s: State) {
    forall i :: i in s.threads && s.threads[i].Failed? && s.threads[i].fatal ==> s.h.token == Lost
  }

  ghost predicate KernelInv(s: State) {
    && |s.kernel| <= 1
    && (s.kernel != [] <==> s.h.token == InFlight)
  }

  ghost predicate TokenInv(s: State) {
    HolderInv(s) && FatalInv(s) && KernelInv(s)
  }

  /** The holder of the lock stands between its increment and its decrement of tcp_write_pending_. */
  ghost predicate Retracting(s: State) {
    s.lock.Some? && s.lock.value in s.threads && s.threads[s.lock.value].Retract?
  }

  /** tcp_write_pending_ counts the token while it is out, and the lock holder's probe. */
  ghost predicate PendingInv(s: State) {
    s.pending == (if s.h.token == Free then 0 else 1) + (if Retracting(s) then 1 else 0)
  }

  lemma HolderAfter(s: State, tid: Tid, ok: bool)
    requires tid in s.threads && (s.threads[tid].Pop? ==> s.queue != [])
    requires HolderInv(s) && FatalInv(s) && (s.pending < 1 ==> s.h.token == Free)
    ensures var pc' := NextPc(s, tid, ok);
            pc'.Some? && HoldsToken(pc'.value) <==> NextToken(s, tid, ok) == HeldBy(tid)
    ensures NextToken(s, tid, ok) != HeldBy(tid) && s.h.token != HeldBy(tid)
            ==> NextToken(s, tid, ok) == s.h.token
  {
  }

  lemma HolderRun(t: Template, s: State, tid: Tid, ok: bool)
    requires LockInv(s) && TokenInv(s) && PendingInv(s) && Enabled(t, s, Run(tid, ok))
    ensures HolderInv(Apply(t, s, Run(tid, ok)))
  {
    HolderAfter(s, tid, ok);
  }

  /** A lost token stays lost. */
  lemma LostStays(s: State, tid: Tid, ok: bool)
    requires tid in s.threads && HolderInv(s) && PendingInv(s) && s.h.token == Lost
    ensures NextToken(s, tid, ok) == Lost
  {
  }

  lemma FatalRun(t: Template, s: State, tid: Tid, ok: bool)
    requires TokenInv(s) && PendingInv(s) && Enabled(t, s, Run(tid, ok))
    ensures FatalInv(Apply(t, s, Run(tid, ok)))
  {
    if s.h.token == Lost {
      LostStays(s, tid, ok);
    }
  }

  lemma KernelRun(t: Template, s: State, tid: Tid, ok: bool)
    requires LockInv(s) && TokenInv(s) && PendingInv(s) && Enabled(t, s, Run(tid, ok))
    ensures KernelInv(Apply(t, s, Run(tid, ok)))
  {
  }

  lemma TokenElse(t: Template, s: State, step: Step)
    requires TokenInv(s) && Enabled(t, s, step) && !step.Run?
    ensures TokenInv(Apply(t, s, step))
  {
  }

  lemma PendingRun(t: Template, s: State, tid: Tid, ok: bool)
    requires LockInv(s) && TokenInv(s) && PendingInv(s) && Enabled(t, s, Run(tid, ok))
    ensures PendingInv(Apply(t, s, Run(tid, ok)))
  {
  }

  lemma PendingElse(t: Template, s: State, step: Step)
    requires LockInv(s) && TokenInv(s) && PendingInv(s) && Enabled(t, s, step) && !step.Run?
    ensures PendingInv(Apply(t, s, step))
  {
  }

  // ----- the retry loop

  /** A second turn of the loop is only taken when the token has come back, and then it is taken by this thread. */
  ghost predicate RetryInv(s: State) {
    forall i :: i in s.threads ==>
      && (s.threads[i].Probe? ==> s.threads[i].retries <= 1 && (s.threads[i].retries == 1 ==> s.h.token == Free))
      && (s.threads[i].Retract? ==> s.threads[i].retries == 0)
  }

  lemma RetryRun(t: Template, s: State, tid: Tid, ok: bool)
    requires LockInv(s) && TokenInv(s) && PendingInv(s) && RetryInv(s) && Enabled(t, s, Run(tid, ok))
    ensures RetryInv(Apply(t, s, Run(tid, ok)))
  {
  }

  lemma RetryElse(t: Template, s: State, step: Step)
    requires TokenInv(s) && RetryInv(s) && Enabled(t, s, step) && !step.Run?
    ensures RetryInv(Apply(t, s, step))
  {
  }

  // ----- the list and its counter

  ghost predicate QueueInv(s: State) {
    forall i :: i in s.threads && (s.threads[i].Probe? || s.threads[i].Retract? || s.threads[i].Pop?) ==> s.queue != []
  }

  lemma QueueRun(t: Template, s: State, tid: Tid, ok: bool)
    requires LockInv(s) && QueueInv(s) && Enabled(t, s, Run(tid, ok))
    ensures QueueInv(Apply(t, s, Run(tid, ok)))
  {
  }

  lemma QueueElse(t: Template, s: State, step: Step)
    requires UnloadInv(s) && QueueInv(s) && Enabled(t, s, step) && !step.Run?
    ensures QueueInv(Apply(t, s, step))
  {
  }

  /** What the lock holder has counted and not yet linked, or unlinked and not yet counted. */
  ghost function Uncounted(s: State): int {
    if s.lock.Some? && s.lock.value in s.threads then
      var pc := s.threads[s.lock.value];
      if pc.CountBack? || pc.Append? || pc.Discount? then 1 else 0
    else 0
  }

  /** The counter and the list agree but for the lock holder's step in between. */
  ghost predicate SizeInv(s: State) {
    s.listSize == if s.unloading then 0 else |s.queue| + Uncounted(s)
  }

  /** At most 499 packets are queued, and a writer is turned away only when 499 are. */
  ghost predicate BoundInv(s: State) {
    && |s.queue| < MAXIMUM_SENDER_CACHED
    && (forall i :: i in s.threads && (s.threads[i].Append? || s.threads[i].Discount?) ==>
          |s.queue| + 1 < MAXIMUM_SENDER_CACHED)
    && (forall i :: i in s.threads && (s.threads[i].CountBack? || s.threads[i].LeaveRefused?) ==>
          |s.queue| + 1 == MAXIMUM_SENDER_CACHED)
  }

  lemma SizeRun(t: Template, s: State, tid: Tid, ok: bool)
    requires LockInv(s) && UnloadInv(s) && SizeInv(s) && Enabled(t, s, Run(tid, ok))
    ensures SizeInv(Apply(t, s, Run(tid, ok)))
  {
  }

  lemma SizeElse(t: Template, s: State, step: Step)
    requires LockInv(s) && UnloadInv(s) && SizeInv(s) && Enabled(t, s, step) && !step.Run?
    ensures SizeInv(Apply(t, s, step))
  {
  }

  lemma BoundRun(t: Template, s: State, tid: Tid, ok: bool)
    requires LockInv(s) && UnloadInv(s) && SizeInv(s) && BoundInv(s) && Enabled(t, s, Run(tid, ok))
    ensures BoundInv(Apply(t, s, Run(tid, ok)))
  {
  }

  lemma BoundElse(t: Template, s: State, step: Step)
    requires UnloadInv(s) && BoundInv(s) && Enabled(t, s, step) && !step.Run?
    ensures BoundInv(Apply(t, s, step))
  {
  }
}
