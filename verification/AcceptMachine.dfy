/**
 * The accept pool of a listener (tcp.c:502-544, 605-651, 885-931, 1179-1214; packet.c:113-154) as a machine of
 * interleaved steps: a number of AcceptEx requests is kept outstanding, each with a fresh object for the
 * connection to come. Any number of threads put requests up, in tcp_listen, or replace one that has ended, in
 * tcp_dispatch_io_syn and tcp_shutdown_by_packet.
 */
module AcceptMachine {
  import opened Templates
  import Runs

  /** TCP_SYN_REQ_TIMES and TCP_LISTEN_BLOCK_COUNT (tcp.c:13-14). */
  const SYN_REQ_TIMES := 150
  const LISTEN_BLOCK_COUNT := 5

  type Handle = nat
  type Tid = nat

  /** For whom tcp_syn is called: for tcp_listen, which has put up `done` requests; in place of a request that
      has completed with the connection `link`; or in place of one that has failed. */
  datatype Job = Listening(done: nat, block: int) | Accepted(link: Handle) | Faulted(link: Handle)

  datatype Pc =
    | ReferListener(job: Job)                            // 622, 917: tcprefr
    | SetUp(link: Handle)                                // 628-644: the accepted object
    // tcp_syn
    | NewPacket(job: Job)                                // 514
    | NewObject(job: Job, turn: nat)                     // 523
    | PostAccept(job: Job, turn: nat, obj: Handle)     // 532: asio_tcp_accept
    | CloseObject(job: Job, turn: nat, obj: Handle)     // 538: objclos
    | GiveUp(job: Job)                                   // 542: objclos on the listener
    | Returned(job: Job, ok: bool)                       // tcp_syn has returned
    | CloseFaulted(link: Handle)                         // 924: objclos

  /** How an outside call ends. A fresh object that cannot be referenced counts as posted (packet.c:141-153). */
  datatype Result = Done | Refused | Vanished

  /** Where an object is. History only. A stray one is open and nobody will close it. */
  datatype Place = Waiting | With(tid: Tid) | Live | Stray | Shut

  datatype History = History(
    size: nat,                     // requests that tcp_listen has put up
    leaked: nat,                   // requests that were neither put up or replaced nor ended the listener
    place: map<Handle, Place>)     // every object ever allocated

  datatype State = State(
    closed: bool,                  // objclos was called on the listener
    open: set<Handle>,             // objects allocated and not closed
    waiting: set<Handle>,          // objects that an outstanding request will fill
    nextHandle: Handle,
    threads: map<Tid, Pc>,
    h: History)

  const INITIAL := State(false, {}, {}, 0, map[], History(0, 0, map[]))

  datatype Step =
    | Listen(tid: Tid, block: int)                       // a thread is in tcp_listen, behind listen(2)
    | Run(tid: Tid, result: Result)                      // a thread's next operation
    | Complete(tid: Tid, link: Handle, connected: bool)  // a request ends and a thread picks it up
    | Close                                              // objclos on the listener by anyone

  /** What the outside may do at this point. The listener can be referenced until it is closed. */
  predicate OutsideAllows(s: State, pc: Pc, result: Result) {
    match pc
    case ReferListener(_) => result.Done? || (result.Refused? && s.closed)
    case SetUp(_) => true
    case PostAccept(_, _, _) => true
    case NewPacket(_) => !result.Vanished?
    case NewObject(_, _) => !result.Vanished?
    case _ => result.Done?
  }

  predicate Enabled(s: State, step: Step) {
    match step
    case Listen(tid, _) => tid !in s.threads
    case Run(tid, result) => tid in s.threads && OutsideAllows(s, s.threads[tid], result)
    case Complete(tid, link, _) => tid !in s.threads && link in s.waiting
    case Close => true
  }

  /** Control: where a thread goes with its next operation; None when it is done. */
  function NextPc(pc: Pc, result: Result, obj: Handle): Option<Pc> {
    match pc
    case ReferListener(job) =>
      if result.Done? then Some(if job.Accepted? then SetUp(job.link) else NewPacket(job))
      else if job.Faulted? then Some(CloseFaulted(job.link)) else None
    case SetUp(link) => Some(NewPacket(Accepted(link)))
    case NewPacket(job) => Some(if result.Done? then NewObject(job, 0) else Returned(job, false))
    case NewObject(job, turn) => Some(if result.Done? then PostAccept(job, turn, obj) else GiveUp(job))
    case PostAccept(job, turn, obj) => Some(if result.Refused? then CloseObject(job, turn, obj) else Returned(job, true))
    case CloseObject(job, turn, _) => Some(if turn < SYN_REQ_TIMES then NewObject(job, turn + 1) else GiveUp(job))
    case GiveUp(job) => Some(Returned(job, false))
    case Returned(job, ok) =>
      (match job
       case Listening(done, block) =>
         if ok && done + 1 < block then Some(NewPacket(Listening(done + 1, block))) else None
       case Accepted(_) => None
       case Faulted(link) => Some(CloseFaulted(link)))
    case CloseFaulted(_) => None
  }

  // What an operation does to the state: for each variable, the operations that touch it.

  predicate ClosesListener(pc: Pc) {
    pc.GiveUp? || (pc.Returned? && pc.job.Accepted? && !pc.ok)
  }

  function NextOpen(s: State, pc: Pc, result: Result): set<Handle> {
    match pc
    case NewObject(_, _) => if result.Done? then s.open + {s.nextHandle} else s.open
    case CloseObject(_, _, obj) => s.open - {obj}
    case SetUp(link) => if result.Refused? then s.open - {link} else s.open
    case CloseFaulted(link) => s.open - {link}
    case _ => s.open
  }

  /** The object that changes hands with the operation, and where it goes. */
  function Handover(s: State, tid: Tid, pc: Pc, result: Result): Option<(Handle, Place)> {
    match pc
    case ReferListener(job) => if result.Refused? && job.Accepted? then Some((job.link, Stray)) else None
    case SetUp(link) => Some((link, if result.Refused? then Shut else Live))
    case NewObject(_, _) => if result.Done? then Some((s.nextHandle, With(tid))) else None
    case PostAccept(_, _, obj) =>
      if result.Done? then Some((obj, Waiting)) else if result.Vanished? then Some((obj, Stray)) else None
    case CloseObject(_, _, obj) => Some((obj, Shut))
    case CloseFaulted(link) => Some((link, Shut))
    case _ => None
  }

  function Relocate(place: map<Handle, Place>, move: Option<(Handle, Place)>): map<Handle, Place> {
    if move.None? then place else place[move.value.0 := move.value.1]
  }

  function NextHistory(s: State, tid: Tid, pc: Pc, result: Result): History {
    History(
      if pc.PostAccept? && !result.Refused? && pc.job.Listening? then s.h.size + 1 else s.h.size,
      if (pc.PostAccept? && result.Vanished?) || (pc.NewPacket? && result.Refused? && pc.job.Faulted?)
      then s.h.leaked + 1 else s.h.leaked,
      Relocate(s.h.place, Handover(s, tid, pc, result)))
  }

  function Move(threads: map<Tid, Pc>, tid: Tid, pc: Option<Pc>): map<Tid, Pc> {
    if pc.None? then threads - {tid} else threads[tid := pc.value]
  }

  /** One operation of a thread. */
  function RunThread(s: State, tid: Tid, result: Result): State
    requires tid in s.threads
  {
    var pc := s.threads[tid];
    State(
      s.closed || ClosesListener(pc),
      NextOpen(s, pc, result),
      if pc.PostAccept? && result.Done? then s.waiting + {pc.obj} else s.waiting,
      if pc.NewObject? && result.Done? then s.nextHandle + 1 else s.nextHandle,
      Move(s.threads, tid, NextPc(pc, result, s.nextHandle)),
      NextHistory(s, tid, pc, result))
  }

  function Apply(s: State, step: Step): State
    requires Enabled(s, step)
  {
    match step
    case Listen(tid, block) =>
      var n := if block == 0 then LISTEN_BLOCK_COUNT else block;
      s.(threads := s.threads[tid := NewPacket(Listening(0, n))])
    case Run(tid, result) => RunThread(s, tid, result)
    case Complete(tid, link, connected) =>
      s.(waiting := s.waiting - {link},
         threads := s.threads[tid := ReferListener(if connected then Accepted(link) else Faulted(link))],
         h := s.h.(place := s.h.place[link := With(tid)]))
    case Close => s.(closed := true)
  }

  ghost predicate Stepped(s: State, s': State) {
    exists step :: Enabled(s, step) && Apply(s, step) == s'
  }

  ghost predicate Reachable(s: State) {
    Runs.Leads(Stepped, INITIAL, s)
  }

  // ----- the pool

  /** The thread has taken over a request that has ended, and has neither replaced it nor given up. */
  predicate Owes(pc: Pc) {
    match pc
    case ReferListener(_) => true
    case SetUp(_) => true
    case NewPacket(job) => !job.Listening?
    case NewObject(job, _) => !job.Listening?
    case PostAccept(job, _, _) => !job.Listening?
    case CloseObject(job, _, _) => !job.Listening?
    case GiveUp(job) => !job.Listening?
    case Returned(job, ok) => job.Accepted? && !ok
    case CloseFaulted(_) => false
  }

  function Owing(threads: map<Tid, Pc>): set<Tid> {
    set i | i in threads && Owes(threads[i])
  }

  /** Until the listener is closed every request put up is outstanding, has leaked, or is being replaced. */
  ghost predicate PoolInv(s: State) {
    s.closed || |s.waiting| + |Owing(s.threads)| + s.h.leaked == s.h.size
  }

  lemma OwingMoves(threads: map<Tid, Pc>, tid: Tid, pc: Option<Pc>)
    ensures Owing(Move(threads, tid, pc))
         == if pc.Some? && Owes(pc.value) then Owing(threads) + {tid} else Owing(threads) - {tid}
  {
  }

  lemma SizeWithout(tids: set<Tid>, tid: Tid)
    ensures |tids - {tid}| + Count(tid in tids) == |tids|
    ensures |tids + {tid}| + Count(tid in tids) == |tids| + 1
  {
    assert tid in tids ==> tids + {tid} == tids;
  }

  lemma OwingCounts(threads: map<Tid, Pc>, tid: Tid, pc: Option<Pc>)
    ensures |Owing(Move(threads, tid, pc))| + Count(tid in threads && Owes(threads[tid]))
         == |Owing(threads)| + Count(pc.Some? && Owes(pc.value))
  {
    OwingMoves(threads, tid, pc);
    SizeWithout(Owing(threads), tid);
  }

  /** No tcp_syn takes more than 151 turns; and tcp_listen does not come from a request that has ended. */
  ghost predicate TurnInv(s: State) {
    forall i :: i in s.threads ==>
      var pc := s.threads[i];
      && (pc.NewObject? || pc.PostAccept? || pc.CloseObject? ==> pc.turn <= SYN_REQ_TIMES)
      && (pc.ReferListener? ==> !pc.job.Listening?)
  }

  /** The object that a job brings along and still has to close. */
  function HeldFor(job: Job): set<Handle> {
    if job.Faulted? then {job.link} else {}
  }

  /** The objects that a thread at this point still has to pass on or close. */
  function Held(pc: Pc): set<Handle> {
    match pc
    case ReferListener(job) => if job.Listening? then {} else {job.link}
    case SetUp(link) => {link}
    case NewPacket(job) => HeldFor(job)
    case NewObject(job, _) => HeldFor(job)
    case PostAccept(job, _, obj) => HeldFor(job) + {obj}
    case CloseObject(job, _, obj) => HeldFor(job) + {obj}
    case GiveUp(job) => HeldFor(job)
    case Returned(job, _) => HeldFor(job)
    case CloseFaulted(link) => {link}
  }

  predicate TwoDiffer(pc: Pc) {
    pc.PostAccept? || pc.CloseObject? ==> pc.obj !in HeldFor(pc.job)
  }

  ghost predicate HeldIn(threads: map<Tid, Pc>, place: map<Handle, Place>) {
    forall i, h :: i in threads && h in Held(threads[i]) ==> h in place && place[h] == With(i)
  }

  /** An object is where its place says. */
  ghost predicate Covered(s: State, h: Handle)
    requires h in s.h.place
  {
    && h < s.nextHandle
    && (h in s.waiting <==> s.h.place[h] == Waiting)
    && (h in s.open <==> s.h.place[h] != Shut)
    && (s.h.place[h].With? ==> s.h.place[h].tid in s.threads && h in Held(s.threads[s.h.place[h].tid]))
  }

  ghost predicate PlaceInv(s: State) {
    && HeldIn(s.threads, s.h.place)
    && (forall i :: i in s.threads ==> TwoDiffer(s.threads[i]))
    && (forall h: Handle :: h in s.h.place <==> h < s.nextHandle)
    && (forall h :: h in s.h.place ==> Covered(s, h))
    && s.waiting <= s.h.place.Keys && s.open <= s.h.place.Keys
  }

  ghost predicate Inv(s: State) {
    PoolInv(s) && TurnInv(s) && PlaceInv(s)
  }

  /** What each operation moves: a request becomes outstanding or leaks exactly when tcp_listen puts one up or a
      thread stops owing one. */
  lemma PoolColumn(s: State, tid: Tid, result: Result)
    requires TurnInv(s) && Enabled(s, Run(tid, result)) && !s.closed && !ClosesListener(s.threads[tid])
    ensures var pc, h' := s.threads[tid], NextHistory(s, tid, s.threads[tid], result);
            var pc' := NextPc(pc, result, s.nextHandle);
            Count(pc.PostAccept? && result.Done?) + (h'.leaked - s.h.leaked) + Count(pc'.Some? && Owes(pc'.value))
            == (h'.size - s.h.size) + Count(Owes(pc))
  {
  }

  lemma PoolRun(s: State, tid: Tid, result: Result)
    requires PoolInv(s) && TurnInv(s) && PlaceInv(s) && Enabled(s, Run(tid, result))
    ensures PoolInv(Apply(s, Run(tid, result)))
  {
    var pc := s.threads[tid];
    if !s.closed && !ClosesListener(pc) {
      OwingCounts(s.threads, tid, NextPc(pc, result, s.nextHandle));
      PoolColumn(s, tid, result);
      if pc.PostAccept? {
        assert pc.obj in Held(pc) && s.h.place[pc.obj] == With(tid) && Covered(s, pc.obj);
      }
    }
  }

  lemma PoolComplete(s: State, tid: Tid, link: Handle, connected: bool)
    requires PoolInv(s) && Enabled(s, Complete(tid, link, connected))
    ensures PoolInv(Apply(s, Complete(tid, link, connected)))
  {
    OwingCounts(s.threads, tid, Some(ReferListener(if connected then Accepted(link) else Faulted(link))));
    assert |s.waiting - {link}| == |s.waiting| - 1;
  }

  lemma PoolElse(s: State, step: Step)
    requires PoolInv(s) && Enabled(s, step) && !step.Run?
    ensures PoolInv(Apply(s, step))
  {
    match step
    case Listen(tid, block) =>
      OwingCounts(s.threads, tid, Some(Apply(s, step).threads[tid]));
    case Complete(tid, link, connected) => PoolComplete(s, tid, link, connected);
    case Close =>
  }

  lemma TurnKept(s: State, step: Step)
    requires TurnInv(s) && Enabled(s, step)
    ensures TurnInv(Apply(s, step))
  {
  }

  /** A handover changes what the acting thread holds by exactly that object. */
  lemma HeldColumn(s: State, tid: Tid, result: Result)
    requires tid in s.threads && OutsideAllows(s, s.threads[tid], result) && TwoDiffer(s.threads[tid])
    ensures var pc := s.threads[tid];
            var move, pc' := Handover(s, tid, pc, result), NextPc(pc, result, s.nextHandle);
            (if pc'.None? then {} else Held(pc'.value))
            == (if move.None? then Held(pc)
                else if move.value.1.With? then Held(pc) + {move.value.0}
                else Held(pc) - {move.value.0})
  {
  }

  /** Where the object of a handover was before. */
  lemma HandoverFrom(s: State, tid: Tid, result: Result)
    requires PlaceInv(s) && Enabled(s, Run(tid, result))
    ensures var pc := s.threads[tid];
            var move := Handover(s, tid, pc, result);
            move.Some? ==>
              if pc.NewObject? then move == Some((s.nextHandle, With(tid))) && s.nextHandle !in s.h.place
              else move.value.0 in Held(pc) && move.value.0 in s.h.place && s.h.place[move.value.0] == With(tid)
                   && !move.value.1.With?
  {
  }

  lemma HeldRun(s: State, tid: Tid, result: Result)
    requires PlaceInv(s) && Enabled(s, Run(tid, result))
    ensures var s' := Apply(s, Run(tid, result));
            HeldIn(s'.threads, s'.h.place) && forall i :: i in s'.threads ==> TwoDiffer(s'.threads[i])
  {
    HeldColumn(s, tid, result);
    HandoverFrom(s, tid, result);
  }

  lemma CoverRun(s: State, tid: Tid, result: Result, h: Handle)
    requires PlaceInv(s) && Enabled(s, Run(tid, result)) && h in Apply(s, Run(tid, result)).h.place
    ensures Covered(Apply(s, Run(tid, result)), h)
  {
    HeldColumn(s, tid, result);
    HandoverFrom(s, tid, result);
    assert h in s.h.place ==> Covered(s, h);
  }

  lemma PlaceRun(s: State, tid: Tid, result: Result)
    requires PlaceInv(s) && Enabled(s, Run(tid, result))
    ensures PlaceInv(Apply(s, Run(tid, result)))
  {
    var s' := Apply(s, Run(tid, result));
    HeldRun(s, tid, result);
    HandoverFrom(s, tid, result);
    forall h | h in s'.h.place
      ensures Covered(s', h)
    {
      CoverRun(s, tid, result, h);
    }
  }

  lemma PlaceComplete(s: State, tid: Tid, link: Handle, connected: bool)
    requires PlaceInv(s) && Enabled(s, Complete(tid, link, connected))
    ensures PlaceInv(Apply(s, Complete(tid, link, connected)))
  {
    var s' := Apply(s, Complete(tid, link, connected));
    assert Covered(s, link);
    assert Held(s'.threads[tid]) == {link};
    forall h | h in s'.h.place
      ensures Covered(s', h)
    {
      assert Covered(s, h);
    }
  }

  lemma PlaceElse(s: State, step: Step)
    requires PlaceInv(s) && Enabled(s, step) && !step.Run?
    ensures PlaceInv(Apply(s, step))
  {
    if step.Complete? {
      PlaceComplete(s, step.tid, step.link, step.connected);
    } else {
      var s' := Apply(s, step);
      forall h | h in s'.h.place
        ensures Covered(s', h)
      {
        assert Covered(s, h);
      }
    }
  }

  lemma InvStepped(s: State, s': State)
    requires Inv(s) && Stepped(s, s')
    ensures Inv(s')
  {
    var step :| Enabled(s, step) && Apply(s, step) == s';
    TurnKept(s, step);
    if step.Run? {
      PoolRun(s, step.tid, step.result);
      PlaceRun(s, step.tid, step.result);
    } else {
      PoolElse(s, step);
      PlaceElse(s, step);
    }
  }

  lemma InvReachable(s: State)
    requires Reachable(s)
    ensures Inv(s)
  {
    assert Inv(INITIAL) by { assert Owing(map[]) == {}; }
    forall s, s' | Inv(s) && Stepped(s, s')
      ensures Inv(s')
    {
      InvStepped(s, s');
    }
    Runs.KeptLeads(Stepped, Inv, INITIAL, s);
  }

  lemma ReachableInitial()
    ensures Reachable(INITIAL)
  {
    Runs.LeadsNowhere(Stepped, INITIAL);
  }

  lemma ReachableStep(s: State, step: Step)
    requires Reachable(s) && Enabled(s, step)
    ensures Reachable(Apply(s, step))
  {
    Runs.LeadsOn(Stepped, INITIAL, s, Apply(s, step));
  }

  // ----- over every run

  /**
   * Conservation, in every interleaving of tcp_listen, of handlers and of requests that end: while the listener
   * is open, every request put up is outstanding, or a thread is about to replace it, or it is one of those
   * that leaked; and at rest it is outstanding or has leaked.
   */
  lemma PoolConserved(s: State)
    requires Reachable(s) && !s.closed
    ensures |s.waiting| + |Owing(s.threads)| + s.h.leaked == s.h.size
    ensures s.threads == map[] ==> |s.waiting| + s.h.leaked == s.h.size
  {
    InvReachable(s);
    if s.threads == map[] {
      assert Owing(s.threads) == {};
    }
  }

  ghost predicate WithThread(s: State, h: Handle) { exists i :: i in s.threads && h in Held(s.threads[i]) }

  /** The recorded place of an object is the place where it is found. */
  lemma PlaceIsTruth(s: State, h: Handle)
    requires PlaceInv(s) && h in s.h.place
    ensures h in s.waiting <==> s.h.place[h] == Waiting
    ensures h in s.open <==> s.h.place[h] != Shut
    ensures forall i :: i in s.threads && h in Held(s.threads[i]) <==> s.h.place[h] == With(i)
  {
    assert Covered(s, h);
  }

  /** Every object ever allocated is in exactly one place: it waits for a connection, one thread has still to
      post or close it, it was accepted, it is closed, or nobody will close it. */
  lemma ObjectsAccounted(s: State, h: Handle)
    requires Reachable(s) && h < s.nextHandle
    ensures h in s.h.place
    ensures Count(h in s.waiting) + Count(WithThread(s, h)) + Count(h !in s.open)
            + Count(s.h.place[h] == Live) + Count(s.h.place[h] == Stray) == 1
    ensures forall i, j :: i in s.threads && j in s.threads && h in Held(s.threads[i]) && h in Held(s.threads[j])
                           ==> i == j
  {
    InvReachable(s);
    OnePlace(s, h);
    PlaceIsTruth(s, h);
  }

  lemma OnePlace(s: State, h: Handle)
    requires PlaceInv(s) && h in s.h.place
    ensures Count(h in s.waiting) + Count(WithThread(s, h)) + Count(h !in s.open)
            + Count(s.h.place[h] == Live) + Count(s.h.place[h] == Stray) == 1
  {
    PlaceIsTruth(s, h);
    if s.h.place[h].With? {
      assert h in Held(s.threads[s.h.place[h].tid]);
    }
  }

  /** How many operations a thread has left at most. */
  function Rank(pc: Pc): nat {
    match pc
    case ReferListener(_) => 500
    case SetUp(_) => 499
    case NewPacket(job) => Rest(job) + 498
    case NewObject(job, turn) => Rest(job) + 10 + (if turn <= SYN_REQ_TIMES then 3 * (SYN_REQ_TIMES - turn) else 0)
    case PostAccept(job, turn, _) => Rest(job) + 9 + (if turn <= SYN_REQ_TIMES then 3 * (SYN_REQ_TIMES - turn) else 0)
    case CloseObject(job, turn, _) => Rest(job) + 8 + (if turn <= SYN_REQ_TIMES then 3 * (SYN_REQ_TIMES - turn) else 0)
    case GiveUp(job) => Rest(job) + 4
    case Returned(job, _) => Rest(job) + 3
    case CloseFaulted(_) => 2
  }

  /** Operations that tcp_listen has left at most behind the request it is putting up. */
  function Rest(job: Job): nat {
    if job.Listening? && job.done + 1 < job.block then 500 * (job.block - job.done - 1) else 0
  }

  /** Every operation brings its thread closer to the end of its call, in every interleaving; no tcp_syn takes
      more than 151 turns. */
  lemma CallsAreBounded(s: State, tid: Tid, result: Result)
    requires Reachable(s) && Enabled(s, Run(tid, result))
    ensures var pc' := NextPc(s.threads[tid], result, s.nextHandle);
            pc'.Some? ==> Rank(pc'.value) < Rank(s.threads[tid])
    ensures s.threads[tid].PostAccept? ==> s.threads[tid].turn <= 150
  {
    InvReachable(s);
  }

  /** No step of others moves a thread, so in every interleaving its call takes the same way. */
  lemma OthersAreElsewhere(s: State, step: Step, tid: Tid)
    requires Enabled(s, step) && tid in s.threads && (step.Run? ==> step.tid != tid)
    ensures tid in Apply(s, step).threads && Apply(s, step).threads[tid] == s.threads[tid]
  {
  }
}
