/** Every run of the send side that makes no new request ends, and at rest everything has been sent. */
module SendWork {
  import opened Templates
  import Runs
  import opened SendMachine
  import opened SendInvariants
  import opened SendOwnership
  import opened SendWire
  import opened SendTheorems

  /** What a packet that is still to be submitted can cause at most: its bytes go out, it completes, and a thread
      handles the completion. */
  ghost function Load(t: Template, payload: seq<Byte>): nat {
    |t.Encode(payload)| + 21
  }

  ghost function LoadOf(t: Template, ps: seq<Packet>): nat {
    if ps == [] then 0 else Load(t, ps[0].payload) + LoadOf(t, ps[1..])
  }

  /** The user data that the thread may still bring into the queue or the kernel. */
  function Brings(pc: Pc): Option<seq<Byte>> {
    match pc
    case PreCheck(payload) => Some(payload)
    case Build(payload) => Some(payload)
    case EnterWith(p) => Some(p.payload)
    case CountUp(p) => Some(p.payload)
    case Append(p) => Some(p.payload)
    case Discount(_, next) => Some(next.payload)
    case LeaveToPost(_, next) => Some(next.payload)
    case Post(_, next) => Some(next.payload)
    case _ => None
  }

  ghost function LoadBrought(t: Template, pc: Pc): nat {
    if Brings(pc).None? then 0 else Load(t, Brings(pc).value)
  }

  /** The operations of the thread's own call, and what the packet it brings can cause. */
  ghost function Share(t: Template, pc: Pc): nat {
    Rank(pc) + LoadBrought(t, pc)
  }

  ghost function Shares(t: Template, threads: map<Tid, Pc>): nat
    decreases |threads|
  {
    if threads == map[] then 0
    else
      var i :| i in threads;
      SizeWithout(threads, i);
      Share(t, threads[i]) + Shares(t, threads - {i})
  }

  lemma SizeWithout(threads: map<Tid, Pc>, i: Tid)
    requires i in threads
    ensures |threads - {i}| < |threads|
  {
    assert (threads - {i}).Keys == threads.Keys - {i};
  }

  /** Any thread's share can be taken out of the sum. */
  lemma {:induction false} SharesSplit(t: Template, threads: map<Tid, Pc>, i: Tid)
    requires i in threads
    ensures Shares(t, threads) == Share(t, threads[i]) + Shares(t, threads - {i})
    decreases |threads|
  {
    var j :| j in threads && Shares(t, threads) == Share(t, threads[j]) + Shares(t, threads - {j});
    SizeWithout(threads, j);
    if i != j {
      SizeWithout(threads, i);
      SharesSplit(t, threads - {j}, i);
      SharesSplit(t, threads - {i}, j);
      assert threads - {j} - {i} == threads - {i} - {j};
    }
  }

  ghost function ShareOf(t: Template, pc: Option<Pc>): nat {
    if pc.None? then 0 else Share(t, pc.value)
  }

  lemma SharesMove(t: Template, threads: map<Tid, Pc>, i: Tid, pc: Option<Pc>)
    ensures Shares(t, Move(threads, i, pc)) == Shares(t, threads - {i}) + ShareOf(t, pc)
  {
    if pc.Some? {
      SharesSplit(t, threads[i := pc.value], i);
      assert threads[i := pc.value] - {i} == threads - {i};
    }
  }

  lemma SharesRun(t: Template, threads: map<Tid, Pc>, i: Tid, pc: Option<Pc>)
    requires i in threads
    ensures Shares(t, Move(threads, i, pc)) + Share(t, threads[i]) == Shares(t, threads) + ShareOf(t, pc)
  {
    SharesMove(t, threads, i, pc);
    SharesSplit(t, threads, i);
  }

  lemma SharesStart(t: Template, threads: map<Tid, Pc>, i: Tid, pc: Pc)
    requires i !in threads
    ensures Shares(t, threads[i := pc]) == Shares(t, threads) + Share(t, pc)
  {
    SharesMove(t, threads, i, Some(pc));
    assert threads - {i} == threads;
  }

  lemma {:induction false} LoadSnoc(t: Template, ps: seq<Packet>, p: Packet)
    ensures LoadOf(t, ps + [p]) == LoadOf(t, ps) + Load(t, p.payload)
  {
    if ps == [] {
      assert [] + [p] == [p];
    } else {
      assert (ps + [p])[1..] == ps[1..] + [p];
      LoadSnoc(t, ps[1..], p);
    }
  }

  /** What a state can still do at most, unless somebody makes a new request. */
  ghost function Work(t: Template, s: State): int {
    Shares(t, s.threads) + LoadOf(t, s.queue) + LoadOf(t, s.kernel) - s.progress + Count(!s.unloading)
  }

  lemma LoadPositive(t: Template, s: State)
    requires Inv(t, s)
    ensures LoadOf(t, s.kernel) >= s.progress && Work(t, s) >= 0
  {
    if s.kernel != [] {
      assert LoadOf(t, s.kernel) >= Load(t, s.kernel[0].payload);
    }
  }

  /** Which user data the thread brings after the operation. */
  lemma BringsColumn(s: State, tid: Tid, ok: bool)
    requires tid in s.threads && (s.threads[tid].Pop? ==> s.queue != [])
    ensures var pc, pc' := s.threads[tid], NextPc(s, tid, ok);
            var brings := if pc'.None? then None else Brings(pc'.value);
            if pc.Pop? then brings == Some(s.queue[0].payload)
            else brings.None? || (brings == Brings(pc) && !pc.Append? && !pc.Post?)
  {
  }

  /** Where the load of a packet goes with the operation. */
  lemma LoadColumn(t: Template, s: State, tid: Tid, ok: bool)
    requires tid in s.threads && (s.threads[tid].Pop? ==> s.queue != [])
    ensures var pc, pc' := s.threads[tid], NextPc(s, tid, ok);
            var brought := if pc'.None? then 0 else LoadBrought(t, pc'.value);
            brought + LoadOf(t, NextQueue(s, tid)) + LoadOf(t, NextKernel(s, tid, ok))
            <= LoadBrought(t, pc) + LoadOf(t, s.queue) + LoadOf(t, s.kernel)
  {
    var pc := s.threads[tid];
    BringsColumn(s, tid, ok);
    if pc.Append? {
      LoadSnoc(t, s.queue, pc.packet);
    } else if pc.Post? {
      LoadSnoc(t, s.kernel, pc.next);
    }
  }

  lemma WorkRun(t: Template, s: State, tid: Tid, ok: bool)
    requires Reachable(t, s) && Enabled(t, s, Run(tid, ok))
    ensures Work(t, Apply(t, s, Run(tid, ok))) < Work(t, s)
  {
    CallsAreBounded(t, s, tid, ok);
    LoadColumn(t, s, tid, ok);
    SharesRun(t, s.threads, tid, NextPc(s, tid, ok));
    assert Rank(s.threads[tid]) > 0;
  }

  lemma LoadOfOne(t: Template, ps: seq<Packet>)
    requires |ps| == 1
    ensures LoadOf(t, ps) == Load(t, ps[0].payload) && LoadOf(t, ps[..0] + ps[1..]) == 0
  {
    assert ps[..0] + ps[1..] == [];
  }

  lemma StartShare(t: Template, p: Packet, outcome: Outcome)
    ensures Share(t, CompletePc(p, outcome)) <= 19
  {
  }

  lemma WorkComplete(t: Template, s: State, tid: Tid, index: nat, outcome: Outcome)
    requires Reachable(t, s) && Enabled(t, s, Complete(tid, index, outcome))
    ensures Work(t, Apply(t, s, Complete(tid, index, outcome))) < Work(t, s)
  {
    InFlightOne(t, s);
    LoadOfOne(t, s.kernel);
    StartShare(t, s.kernel[0], outcome);
    SharesStart(t, s.threads, tid, CompletePc(s.kernel[0], outcome));
  }

  lemma InFlightOne(t: Template, s: State)
    requires Reachable(t, s) && s.kernel != []
    ensures |s.kernel| == 1 && s.progress <= |t.Encode(s.kernel[0].payload)|
  {
    InvReachable(t, s);
  }

  /** The steps that are not requests from outside: no thread enters tcp_write, and nobody closes the link. */
  predicate Inner(step: Step) {
    !step.Write? && !step.Close?
  }

  /** Every such step brings the link closer to rest, whoever takes it and however the outside calls end. */
  lemma EveryStepWorks(t: Template, s: State, step: Step)
    requires Reachable(t, s) && Enabled(t, s, step) && Inner(step)
    ensures 0 <= Work(t, Apply(t, s, step)) < Work(t, s)
  {
    LeadsOn(t, INITIAL, s, step);
    InvReachable(t, Apply(t, s, step));
    LoadPositive(t, Apply(t, s, step));
    match step
    case Run(tid, ok) => WorkRun(t, s, tid, ok);
    case Complete(tid, index, outcome) => WorkComplete(t, s, tid, index, outcome);
    case _ =>
  }

  ghost predicate InnerStepped(t: Template, s: State, s': State) {
    exists step :: Inner(step) && Enabled(t, s, step) && Apply(t, s, step) == s'
  }

  ghost function InnerNext(t: Template): (State, State) -> bool {
    (s, s') => InnerStepped(t, s, s')
  }

  lemma InnerStepWorks(t: Template, s: State, s': State)
    requires Reachable(t, s) && InnerStepped(t, s, s')
    ensures Reachable(t, s') && 0 <= Work(t, s') < Work(t, s)
  {
    var step :| Inner(step) && Enabled(t, s, step) && Apply(t, s, step) == s';
    LeadsOn(t, INITIAL, s, step);
    EveryStepWorks(t, s, step);
  }

  lemma {:induction false} WorkAlong(t: Template, path: seq<State>, n: nat)
    requires Runs.IsRun(InnerNext(t), path) && Reachable(t, path[0]) && n < |path|
    ensures Reachable(t, path[n]) && Work(t, path[n]) + n <= Work(t, path[0])
  {
    if n > 0 {
      WorkAlong(t, path, n - 1);
      assert InnerNext(t)(path[n - 1], path[n]);
      InnerStepWorks(t, path[n - 1], path[n]);
    }
  }

  /** While anything is under way, something can go on. */
  lemma SomethingToDo(t: Template, s: State) returns (step: Step)
    requires Reachable(t, s) && (s.threads != map[] || s.kernel != [])
    ensures Inner(step) && Enabled(t, s, step)
  {
    if s.threads != map[] {
      NeverStuck(t, s);
      var i, ok :| Enabled(t, s, Run(i, ok));
      step := Run(i, ok);
    } else {
      InFlightOne(t, s);
      step := if s.progress < |t.Encode(s.kernel[0].payload)| then Transmit else Complete(0, 0, Outcome.Sent);
    }
  }

  /** Where nothing but a request from outside is possible, an open link is at rest. */
  lemma StuckIsRest(t: Template, s: State)
    requires Reachable(t, s) && !s.closed
    requires forall step :: Inner(step) ==> !Enabled(t, s, step)
    ensures s.threads == map[] && s.kernel == [] && s.queue == [] && s.h.submitted == s.h.appended
  {
    if s.threads != map[] || s.kernel != [] {
      var step := SomethingToDo(t, s);
    } else {
      QuiescentIsEmpty(t, s);
    }
  }

  /** And a closed link has been unloaded, with every packet that was ever made freed. */
  lemma StuckIsUnloaded(t: Template, s: State)
    requires Reachable(t, s) && s.closed
    requires forall step :: Inner(step) ==> !Enabled(t, s, step)
    ensures s.unloading && s.threads == map[] && s.kernel == [] && s.queue == []
    ensures forall p :: p in s.h.place ==> p in s.h.freed
  {
    if s.threads != map[] || s.kernel != [] {
      var step := SomethingToDo(t, s);
    } else {
      assert Inner(BeginUnload) && Inner(Drain);
      assert !Enabled(t, s, BeginUnload) && !Enabled(t, s, Drain);
      NothingLeaks(t, s);
    }
  }

  /**
   * Every run comes to rest. Whatever the interleaving and the outcomes of the outside calls, a run without new
   * requests takes no more steps than the work that was there when it began. If it cannot go on and has left the
   * link open, everything that was ever appended has been submitted and nothing is under way; if it has left the
   * link closed, the link has been unloaded and every packet has been freed.
   */
  lemma EveryRunRests(t: Template, path: seq<State>)
    requires Runs.IsRun(InnerNext(t), path) && Reachable(t, path[0])
    ensures |path| <= Work(t, path[0]) + 1
    ensures var s := path[|path| - 1];
            !s.closed && (forall step :: Inner(step) ==> !Enabled(t, s, step)) ==>
              s.threads == map[] && s.kernel == [] && s.queue == [] && s.h.submitted == s.h.appended
    ensures var s := path[|path| - 1];
            s.closed && (forall step :: Inner(step) ==> !Enabled(t, s, step)) ==>
              && s.unloading && s.threads == map[] && s.kernel == [] && s.queue == []
              && forall p :: p in s.h.place ==> p in s.h.freed
  {
    var s := path[|path| - 1];
    WorkAlong(t, path, |path| - 1);
    InvReachable(t, s);
    LoadPositive(t, s);
    if forall step :: Inner(step) ==> !Enabled(t, s, step) {
      if s.closed {
        StuckIsUnloaded(t, s);
      } else {
        StuckIsRest(t, s);
      }
    }
  }
}
