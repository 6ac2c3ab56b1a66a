/**
 * The functions of the accept pool in the form the source gives them. Each statement is one operation of the
 * accept machine, so a call is a run of it; other threads may be anywhere in their calls meanwhile.
 */
module AcceptPool {
  import opened Templates
  import opened AcceptMachine

  /** How one turn of the loop of tcp_syn meets the outside: no object can be allocated; the post fails; the
      post succeeds; or the fresh object cannot be referenced, which asio_tcp_accept reports as success. */
  datatype Attempt = NoObject | PostFails | Posts | Vanishes

  /** What a call of tcp_syn comes to. */
  datatype Outcome = NoPacket | GaveUp | Put | Lost

  predicate PutsUp(o: Outcome) { o.Put? || o.Lost? }

  /** The loop of tcp_syn from turn i on: the first turn that does not merely fail to post decides. */
  function FromTurn(tries: nat -> Attempt, i: nat): Outcome
    decreases if i <= SYN_REQ_TIMES then SYN_REQ_TIMES - i + 1 else 0
  {
    match tries(i)
    case NoObject => GaveUp
    case Posts => Put
    case Vanishes => Lost
    case PostFails => if i < SYN_REQ_TIMES then FromTurn(tries, i + 1) else GaveUp
  }

  function OutcomeOf(packetOk: bool, tries: nat -> Attempt): Outcome {
    if packetOk then FromTurn(tries, 0) else NoPacket
  }

  /** The turn i decides, the turns before it all failing to post. */
  ghost predicate Decides(tries: nat -> Attempt, from: nat, i: nat) {
    && from <= i <= SYN_REQ_TIMES
    && (forall k: nat :: from <= k < i ==> tries(k) == PostFails)
    && (tries(i) != PostFails || i == SYN_REQ_TIMES)
  }

  /** At most 151 turns are taken: there is one turn that decides, and how it went is the outcome. */
  lemma {:induction false} OneTurnDecides(tries: nat -> Attempt, from: nat) returns (i: nat)
    requires from <= 150
    ensures Decides(tries, from, i) && i <= 150
    ensures FromTurn(tries, from) == (match tries(i)
                                      case Posts => Put
                                      case Vanishes => Lost
                                      case _ => GaveUp)
    ensures forall j: nat :: Decides(tries, from, j) ==> j == i
    decreases 150 - from
  {
    if tries(from) == PostFails && from < SYN_REQ_TIMES {
      i := OneTurnDecides(tries, from + 1);
      assert forall j: nat :: Decides(tries, from, j) ==> Decides(tries, from + 1, j);
    } else {
      i := from;
    }
  }

  /** The objects after a call of tcp_syn: at most one more is open, and it waits unless it has vanished. */
  ghost predicate Settles(s: State, s': State, o: Outcome, shut: set<Handle>) {
    && s'.nextHandle >= s.nextHandle
    && if PutsUp(o) then
         && s'.nextHandle > s.nextHandle
         && s'.open == s.open - shut + {s'.nextHandle - 1}
         && s'.waiting == s.waiting + if o == Put then {s'.nextHandle - 1} else {}
       else s'.open == s.open - shut && s'.waiting == s.waiting
  }

  /** What a call of tcp_syn does: the thread has returned from it, the listener is closed exactly when the call
      gave up, and the request is put up, or has leaked, as the outcome says. */
  ghost predicate SynDid(s: State, s': State, tid: Tid, job: Job, o: Outcome) {
    && s'.threads == s.threads[tid := Returned(job, PutsUp(o))]
    && Settles(s, s', o, {})
    && s'.closed == (s.closed || o == GaveUp)
    && s'.h.size == s.h.size + Count(job.Listening? && PutsUp(o))
    && s'.h.leaked == s.h.leaked + Count(o == Lost || (o == NoPacket && job.Faulted?))
  }

  /** How often an outcome occurs. */
  ghost function Times(o: Outcome, outs: seq<Outcome>): nat {
    if outs == [] then 0 else Times(o, outs[..|outs| - 1]) + Count(outs[|outs| - 1] == o)
  }

  lemma TimesSnoc(o: Outcome, outs: seq<Outcome>, last: Outcome)
    ensures Times(o, outs + [last]) == Times(o, outs) + Count(last == o)
  {
    assert (outs + [last])[..|outs|] == outs;
  }

  /** What calls of tcp_syn by tcp_listen do together: as many requests more are put up, are outstanding, and have
      leaked as the outcomes say, and the listener is closed exactly when a call gave up. */
  ghost predicate ListenDid(s: State, s': State, outs: seq<Outcome>) {
    && s'.h.size == s.h.size + Times(Put, outs) + Times(Lost, outs)
    && s'.h.leaked == s.h.leaked + Times(Lost, outs)
    && s.waiting <= s'.waiting && |s'.waiting| == |s.waiting| + Times(Put, outs)
    && s'.closed == (s.closed || GaveUp in outs)
  }

  lemma LastCounts(others: map<Tid, Pc>, tid: Tid, first: Pc, last: Pc)
    requires tid !in others
    ensures others[tid := first][tid := last] == others[tid := last] && others[tid := first] - {tid} == others
  {
  }

  lemma SameCounts(s: State, s1: State, s2: State, outs: seq<Outcome>)
    requires s1.closed == s.closed && s1.waiting == s.waiting && s1.h.size == s.h.size && s1.h.leaked == s.h.leaked
    requires ListenDid(s1, s2, outs)
    ensures ListenDid(s, s2, outs)
  {
  }

  /** The outcomes of successive calls, each but perhaps the last of which has put its request up. */
  ghost predicate Calls(outs: seq<Outcome>, packetOk: nat -> bool, tries: nat -> (nat -> Attempt), lastUp: bool) {
    && (forall i :: 0 <= i < |outs| ==> outs[i] == OutcomeOf(packetOk(i), tries(i)))
    && (forall i :: 0 <= i < |outs| - 1 ==> PutsUp(outs[i]))
    && (outs != [] ==> (lastUp <==> PutsUp(outs[|outs| - 1])))
  }

  lemma CallsGoOn(outs: seq<Outcome>, packetOk: nat -> bool, tries: nat -> (nat -> Attempt))
    requires Calls(outs, packetOk, tries, true)
    ensures var o := OutcomeOf(packetOk(|outs|), tries(|outs|)); Calls(outs + [o], packetOk, tries, PutsUp(o))
  {
  }

  lemma ListenGoesOn(s: State, s1: State, s2: State, outs: seq<Outcome>, o: Outcome)
    requires ListenDid(s, s1, outs) && ListenDid(s1, s2, [o])
    ensures ListenDid(s, s2, outs + [o])
  {
    TimesSnoc(Put, outs, o);
    TimesSnoc(Lost, outs, o);
    TimesSnoc(Put, [], o);
    TimesSnoc(Lost, [], o);
    assert [] + [o] == [o];
  }

  /** When every call puts its request up, there are as many as calls, and all are outstanding if none was lost. */
  lemma {:induction false} AllUp(outs: seq<Outcome>)
    requires forall i :: 0 <= i < |outs| ==> PutsUp(outs[i])
    ensures Times(Put, outs) + Times(Lost, outs) == |outs|
    ensures (forall i :: 0 <= i < |outs| ==> outs[i] == Put) ==> Times(Put, outs) == |outs|
  {
    if outs != [] {
      AllUp(outs[..|outs| - 1]);
    }
  }

  /** Nothing has happened but that handles were used up and objects were closed. */
  ghost predicate Closed(s: State, s': State, shut: set<Handle>) {
    && s'.open == s.open - shut && s'.waiting == s.waiting && s'.nextHandle >= s.nextHandle
    && s'.h.size == s.h.size && s'.h.leaked == s.h.leaked
  }

  ghost predicate Moved(s: State, s': State, tid: Tid, pc: Pc, shut: set<Handle>) {
    s'.threads == s.threads[tid := pc] && s'.closed == s.closed && Closed(s, s', shut)
  }

  ghost predicate OnlyMoved(s: State, s': State, tid: Tid, pc: Pc) {
    Moved(s, s', tid, pc, {})
  }

  ghost predicate Gone(s: State, s': State, tid: Tid, shut: set<Handle>) {
    s'.threads == s.threads - {tid} && Closed(s, s', shut) && s'.nextHandle == s.nextHandle
  }

  /** What a handler does in all: before tcp_syn and behind it at most the object it was called with is closed. */
  lemma Replaced(s: State, s1: State, s2: State, s3: State, tid: Tid, job: Job, o: Outcome,
                 before: set<Handle>, after: set<Handle>)
    requires Moved(s, s1, tid, NewPacket(job), before) && SynDid(s1, s2, tid, job, o) && Gone(s2, s3, tid, after)
    requires tid in s.threads && !job.Listening? && forall h :: h in before + after ==> h < s.nextHandle
    ensures s3.threads == s.threads - {tid} && Settles(s, s3, o, before + after)
    ensures s3.h.size == s.h.size && s3.h.leaked == s.h.leaked + Count(o == Lost || (o == NoPacket && job.Faulted?))
  {
    assert s3.threads == s.threads - {tid};
    assert s2.open == s.open - before + (if PutsUp(o) then {s2.nextHandle - 1} else {});
  }

  /** A call of tcp_syn goes on from where nothing has happened yet. */
  lemma SynAfter(s: State, s1: State, s2: State, tid: Tid, pc: Pc, job: Job, o: Outcome)
    requires OnlyMoved(s, s1, tid, pc) && SynDid(s1, s2, tid, job, o)
    ensures SynDid(s, s2, tid, job, o)
  {
  }

  lemma SynForListen(s: State, s': State, tid: Tid, job: Job, o: Outcome)
    requires SynDid(s, s', tid, job, o) && job.Listening?
    requires forall h :: h in s.waiting ==> h < s.nextHandle
    ensures ListenDid(s, s', [o])
  {
    TimesSnoc(Put, [], o);
    TimesSnoc(Lost, [], o);
    assert [] + [o] == [o];
    if o.Put? {
      assert s'.nextHandle - 1 !in s.waiting;
    }
  }

  lemma FreshIsNew(s: State)
    requires Reachable(s)
    ensures s.nextHandle !in s.open && forall h :: h in s.waiting ==> h < s.nextHandle
  {
    InvReachable(s);
    assert s.nextHandle !in s.h.place;
  }

  lemma LinkIsOld(s: State, tid: Tid, link: Handle)
    requires Reachable(s) && tid in s.threads && link in Held(s.threads[tid])
    ensures link < s.nextHandle && link !in s.waiting && link in s.open
  {
    InvReachable(s);
    assert Covered(s, link);
  }

  /** What has been decided about an object is not taken back. */
  ghost predicate SettledStays(s: State, s': State) {
    forall h :: h in s.h.place && (s.h.place[h].Live? || s.h.place[h].Stray? || s.h.place[h].Shut?) ==>
      h in s'.h.place && s'.h.place[h] == s.h.place[h]
  }

  lemma NextSettled(s: State, tid: Tid, result: Result)
    requires Reachable(s) && Enabled(s, Run(tid, result))
    ensures SettledStays(s, RunThread(s, tid, result))
  {
    InvReachable(s);
    HandoverFrom(s, tid, result);
  }

  class Listener {
    var s: State

    constructor ()
      ensures s == INITIAL && Reachable(s)
    {
      s := INITIAL;
      new;
      ReachableInitial();
    }

    /** One operation of thread tid. */
    method Next(tid: Tid, result: Result)
      requires Reachable(s) && Enabled(s, Run(tid, result))
      modifies this
      ensures Reachable(s) && s == RunThread(old(s), tid, result) && SettledStays(old(s), s)
    {
      NextSettled(s, tid, result);
      ReachableStep(s, Run(tid, result));
      s := RunThread(s, tid, result);
    }

    /** A fresh object is taken and closed again, because its request could not be posted (tcp.c:523-538). */
    method FailToPost(tid: Tid, job: Job, turn: nat)
      requires Reachable(s) && tid in s.threads && s.threads[tid] == NewObject(job, turn)
      modifies this
      ensures SettledStays(old(s), s)
      ensures Reachable(s)
      ensures OnlyMoved(old(s), s, tid, if turn < SYN_REQ_TIMES then NewObject(job, turn + 1) else GiveUp(job))
    {
      FreshIsNew(s);
      Next(tid, Done);                                    // 523: tcp_allocate_object
      Next(tid, Refused);                                 // 532: asio_tcp_accept
      Next(tid, Done);                                    // 538: objclos
    }

    /** A fresh object is taken and its request posted (tcp.c:523-533). */
    method PostOne(tid: Tid, job: Job, turn: nat, vanishes: bool)
      requires Reachable(s) && tid in s.threads && s.threads[tid] == NewObject(job, turn)
      modifies this
      ensures SettledStays(old(s), s)
      ensures Reachable(s) && SynDid(old(s), s, tid, job, if vanishes then Lost else Put)
    {
      Next(tid, Done);                                    // 523: tcp_allocate_object
      Next(tid, if vanishes then Vanished else Done);     // 532: asio_tcp_accept
    }

    /** One turn of the loop of tcp_syn (tcp.c:523-538): a request is put up, or the fresh object is closed again
        and the loop goes on to the next turn or to its end. */
    method Turn(tid: Tid, job: Job, turn: nat, attempt: Attempt)
      requires Reachable(s) && tid in s.threads && s.threads[tid] == NewObject(job, turn)
      modifies this
      ensures SettledStays(old(s), s)
      ensures Reachable(s)
      ensures match attempt
              case NoObject => OnlyMoved(old(s), s, tid, GiveUp(job))
              case PostFails =>
                OnlyMoved(old(s), s, tid, if turn < SYN_REQ_TIMES then NewObject(job, turn + 1) else GiveUp(job))
              case Posts => SynDid(old(s), s, tid, job, Put)
              case Vanishes => SynDid(old(s), s, tid, job, Lost)
    {
      match attempt
      case NoObject => Next(tid, Refused);                // 524: break
      case PostFails => FailToPost(tid, job, turn);
      case Posts => PostOne(tid, job, turn, false);
      case Vanishes => PostOne(tid, job, turn, true);
    }

    /** The loop of tcp_syn and what follows it (tcp.c:518-543). Every object but the one that now waits, or that
        has vanished, is closed again; and without a new request the listener is closed. */
    method Turns(tid: Tid, job: Job, tries: nat -> Attempt)
      requires Reachable(s) && tid in s.threads && s.threads[tid] == NewObject(job, 0)
      modifies this
      ensures SettledStays(old(s), s)
      ensures Reachable(s) && SynDid(old(s), s, tid, job, FromTurn(tries, 0))
    {
      var i := 0;
      while true
        invariant 0 <= i <= SYN_REQ_TIMES && Reachable(s) && tid in s.threads
        invariant OnlyMoved(old(s), s, tid, NewObject(job, i)) && SettledStays(old(s), s)
        invariant FromTurn(tries, 0) == FromTurn(tries, i)
        decreases SYN_REQ_TIMES - i
      {
        Turn(tid, job, i, tries(i));
        if s.threads[tid].Returned? {
          return;
        }
        if s.threads[tid].GiveUp? {
          break;
        }
        i := i + 1;
      }
      Next(tid, Done);                                    // 542: objclos on the listener
    }

    /** The packet for the request (tcp.c:514-516). */
    method MakePacket(tid: Tid, job: Job, packetOk: bool)
      requires Reachable(s) && tid in s.threads && s.threads[tid] == NewPacket(job)
      modifies this
      ensures SettledStays(old(s), s)
      ensures Reachable(s)
      ensures if packetOk then OnlyMoved(old(s), s, tid, NewObject(job, 0)) else SynDid(old(s), s, tid, job, NoPacket)
    {
      Next(tid, if packetOk then Done else Refused);
    }

    /** tcp_syn (tcp.c:502-544): without a packet nothing is done; otherwise the loop is entered. */
    method Syn(tid: Tid, job: Job, packetOk: bool, tries: nat -> Attempt) returns (retval: int)
      requires Reachable(s) && tid in s.threads && s.threads[tid] == NewPacket(job)
      modifies this
      ensures SettledStays(old(s), s)
      ensures Reachable(s) && -1 <= retval <= 0 && (retval == 0 <==> PutsUp(OutcomeOf(packetOk, tries)))
      ensures SynDid(old(s), s, tid, job, OutcomeOf(packetOk, tries))
    {
      MakePacket(tid, job, packetOk);
      if !packetOk {
        return -1;
      }
      ghost var before := s;
      Turns(tid, job, tries);
      SynAfter(old(s), before, s, tid, NewObject(job, 0), job, FromTurn(tries, 0));
      return if s.threads[tid].ok then 0 else -1;
    }

    /** Up to tcp_syn, for a connection (tcp.c:622-644): a connection that cannot be set up is closed. */
    method AcceptLink(tid: Tid, link: Handle, setUp: Result)
      requires Reachable(s) && tid in s.threads && s.threads[tid] == ReferListener(Accepted(link))
      modifies this
      ensures SettledStays(old(s), s)
      ensures Reachable(s) && Moved(old(s), s, tid, NewPacket(Accepted(link)), if setUp.Refused? then {link} else {})
      ensures link in s.h.place && s.h.place[link] == if setUp.Refused? then Shut else Live
    {
      Next(tid, Done);                                    // 622: tcprefr
      Next(tid, setUp);                                   // 628-644
    }

    /** Behind tcp_syn (tcp.c:646-650): the listener is closed if that failed. */
    method LeaveAccepted(tid: Tid, link: Handle, ok: bool)
      requires Reachable(s) && tid in s.threads && s.threads[tid] == Returned(Accepted(link), ok)
      modifies this
      ensures SettledStays(old(s), s)
      ensures Reachable(s) && Gone(old(s), s, tid, {}) && s.closed == (old(s.closed) || !ok)
    {
      Next(tid, Done);
    }

    /** Up to tcp_syn, for a failed request (tcp.c:917). */
    method ReferForFault(tid: Tid, link: Handle)
      requires Reachable(s) && tid in s.threads && s.threads[tid] == ReferListener(Faulted(link))
      modifies this
      ensures SettledStays(old(s), s)
      ensures Reachable(s) && Moved(old(s), s, tid, NewPacket(Faulted(link)), {})
    {
      Next(tid, Done);
    }

    /** Behind tcp_syn (tcp.c:919-925): the object of the failed request is closed. */
    method LeaveFaulted(tid: Tid, link: Handle)
      requires Reachable(s) && tid in s.threads
      requires s.threads[tid].Returned? && s.threads[tid].job == Faulted(link)
      modifies this
      ensures SettledStays(old(s), s)
      ensures Reachable(s) && Gone(old(s), s, tid, {link}) && s.closed == old(s.closed)
      ensures link in s.h.place && s.h.place[link] == Shut
    {
      Next(tid, Done);
      Next(tid, Done);                                    // 924: objclos
    }

    /**
     * tcp_dispatch_io_syn (tcp.c:610-651), for a thread that has picked up a connection. listenOk says whether the
     * listener can be referenced, and `setUp` how the accepted object fares: it is set up, or refused and closed, or
     * cannot be referenced. The request is replaced, or a fresh object vanished, or the listener is closed.
     */
    method DispatchIoSyn(tid: Tid, link: Handle, listenOk: bool, setUp: Result, packetOk: bool, tries: nat -> Attempt)
      requires Reachable(s) && tid in s.threads && s.threads[tid] == ReferListener(Accepted(link))
      requires !listenOk ==> s.closed
      modifies this
      ensures Reachable(s) && s.threads == old(s.threads) - {tid} && s.h.size == old(s.h.size)
      ensures link in s.h.place
              && s.h.place[link] == if !listenOk then Stray else if setUp.Refused? then Shut else Live
      ensures !listenOk ==>
                && s.closed && s.open == old(s.open) && s.waiting == old(s.waiting)
                && s.h.leaked == old(s.h.leaked)
      ensures var o := OutcomeOf(packetOk, tries);
              listenOk ==>
                && s.closed == (old(s.closed) || !PutsUp(o))
                && s.h.leaked == old(s.h.leaked) + Count(o == Lost)
                && Settles(old(s), s, o, if setUp.Refused? then {link} else {})
    {
      LinkIsOld(s, tid, link);
      if !listenOk {
        Next(tid, Refused);                               // 622: tcprefr
        return;
      }
      AcceptLink(tid, link, setUp);
      ghost var before := s;
      var retval := Syn(tid, Accepted(link), packetOk, tries);
      ghost var after := s;
      LeaveAccepted(tid, link, retval == 0);
      Replaced(old(s), before, after, s, tid, Accepted(link), OutcomeOf(packetOk, tries),
               if setUp.Refused? then {link} else {}, {});
    }

    /**
     * tcp_shutdown_by_packet for a kSyn packet (tcp.c:914-926), for a thread that has picked up a failed request.
     * The result of tcp_syn is not looked at: without memory for the packet the pool is one short and the
     * listener stays open. The object of the failed request is closed in every case.
     */
    method ShutdownSyn(tid: Tid, link: Handle, listenOk: bool, packetOk: bool, tries: nat -> Attempt)
      requires Reachable(s) && tid in s.threads && s.threads[tid] == ReferListener(Faulted(link))
      requires !listenOk ==> s.closed
      modifies this
      ensures Reachable(s) && s.threads == old(s.threads) - {tid} && s.h.size == old(s.h.size)
      ensures link in s.h.place && s.h.place[link] == Shut
      ensures !listenOk ==>
                && s.closed && s.open == old(s.open) - {link} && s.waiting == old(s.waiting)
                && s.h.leaked == old(s.h.leaked)
      ensures var o := OutcomeOf(packetOk, tries);
              listenOk ==>
                && s.closed == (old(s.closed) || o == GaveUp)
                && s.h.leaked == old(s.h.leaked) + Count(o == NoPacket || o == Lost)
                && Settles(old(s), s, o, {link})
    {
      LinkIsOld(s, tid, link);
      if !listenOk {
        Next(tid, Refused);                               // 917: tcprefr
        Next(tid, Done);                                  // 924: objclos
        return;
      }
      ReferForFault(tid, link);
      ghost var before := s;
      var retval := Syn(tid, Faulted(link), packetOk, tries);
      ghost var after := s;
      LeaveFaulted(tid, link);
      Replaced(old(s), before, after, s, tid, Faulted(link), OutcomeOf(packetOk, tries), {}, {link});
    }

    /** The call of tcp_syn in it, and the look at the guard of the loop. */
    method PutUpOne(tid: Tid, job: Job, packetOk: bool, tries: nat -> Attempt, ghost others: map<Tid, Pc>)
      returns (retval: int)
      requires Reachable(s) && tid !in others && s.threads == others[tid := NewPacket(job)] && job.Listening?
      modifies this
      ensures Reachable(s) && -1 <= retval <= 0 && (retval == 0 <==> PutsUp(OutcomeOf(packetOk, tries)))
      ensures s.threads == if retval == 0 && job.done + 1 < job.block
                           then others[tid := NewPacket(Listening(job.done + 1, job.block))] else others
      ensures ListenDid(old(s), s, [OutcomeOf(packetOk, tries)])
    {
      FreshIsNew(s);
      retval := Syn(tid, job, packetOk, tries);
      SynForListen(old(s), s, tid, job, OutcomeOf(packetOk, tries));
      LastCounts(others, tid, NewPacket(job), Returned(job, retval == 0));
      Next(tid, Done);
      LastCounts(others, tid, Returned(job, retval == 0), NewPacket(Listening(job.done + 1, job.block)));
    }

    /** One turn of the loop of tcp_listen (tcp.c:1206-1208): the thread goes on with the next turn or leaves.
        `outs` are the outcomes of the turns so far. */
    method PutUp(tid: Tid, done: nat, n: int, packetOk: nat -> bool, tries: nat -> (nat -> Attempt), ghost start: State,
                 ghost others: map<Tid, Pc>, ghost outs: seq<Outcome>) returns (retval: int, ghost outs': seq<Outcome>)
      requires Reachable(s) && tid !in others && s.threads == others[tid := NewPacket(Listening(done, n))]
      requires |outs| == done && Calls(outs, packetOk, tries, true) && ListenDid(start, s, outs)
      modifies this
      ensures Reachable(s) && -1 <= retval <= 0
      ensures s.threads == if retval == 0 && done + 1 < n then others[tid := NewPacket(Listening(done + 1, n))]
                           else others
      ensures |outs'| == done + 1 && Calls(outs', packetOk, tries, retval == 0) && ListenDid(start, s, outs')
    {
      ghost var before, o := s, OutcomeOf(packetOk(done), tries(done));
      retval := PutUpOne(tid, Listening(done, n), packetOk(done), tries(done), others);
      ListenGoesOn(start, before, s, outs, o);
      CallsGoOn(outs, packetOk, tries);
      outs' := outs + [o];
    }

    /** The loop of tcp_listen (tcp.c:1204-1208). */
    method PutUpAll(tid: Tid, n: int, packetOk: nat -> bool, tries: nat -> (nat -> Attempt), ghost others: map<Tid, Pc>)
      returns (retval: int, ghost outs: seq<Outcome>)
      requires Reachable(s) && tid !in others && s.threads == others[tid := NewPacket(Listening(0, n))]
      modifies this
      ensures Reachable(s) && s.threads == others && -1 <= retval <= 0
      ensures 1 <= |outs| <= (if n < 1 then 1 else n) && (retval == 0 ==> |outs| >= n)
      ensures Calls(outs, packetOk, tries, retval == 0) && ListenDid(old(s), s, outs)
    {
      var i := 0;
      outs := [];
      while true
        invariant Reachable(s) && 0 <= i == |outs| && (i == 0 || i < n)
        invariant s.threads == others[tid := NewPacket(Listening(i, n))]
        invariant Calls(outs, packetOk, tries, true) && ListenDid(old(s), s, outs)
        decreases n - i
      {
        retval, outs := PutUp(tid, i, n, packetOk, tries, old(s), others, outs);
        i := i + 1;
        if retval < 0 || i >= n {
          return;
        }
      }
    }

    /** The beginning of tcp_listen (tcp.c:1194-1204). */
    method Enter(tid: Tid, block: int)
      requires Reachable(s) && tid !in s.threads
      modifies this
      ensures Reachable(s) && s.closed == old(s.closed) && s.waiting == old(s.waiting)
      ensures s.h.size == old(s.h.size) && s.h.leaked == old(s.h.leaked)
      ensures var n := if block == 0 then LISTEN_BLOCK_COUNT else block;
              s.threads == old(s.threads)[tid := NewPacket(Listening(0, n))]
    {
      ReachableStep(s, Step.Listen(tid, block));
      s := Apply(s, Step.Listen(tid, block));
    }

    /**
     * tcp_listen (tcp.c:1192-1210), after listen(2) has succeeded: tcp_syn is called until it fails or has succeeded
     * max(1, block) times, five times for a block of zero. `outs` are the outcomes of the calls that were made.
     */
    method Listen(tid: Tid, block: int, packetOk: nat -> bool, tries: nat -> (nat -> Attempt))
      returns (retval: int, ghost outs: seq<Outcome>)
      requires Reachable(s) && tid !in s.threads
      modifies this
      ensures Reachable(s) && s.threads == old(s.threads) && -1 <= retval <= 0
      ensures var n := if block == 0 then 5 else if block < 1 then 1 else block;
              1 <= |outs| <= n && (retval == 0 ==> |outs| == n)
      ensures Calls(outs, packetOk, tries, retval == 0)
      ensures retval == 0 ==> s.h.size == old(s.h.size) + |outs|
      ensures ListenDid(old(s), s, outs)
    {
      var n := if block == 0 then LISTEN_BLOCK_COUNT else block;
      Enter(tid, block);
      ghost var before := s;
      retval, outs := PutUpAll(tid, n, packetOk, tries, old(s.threads));
      SameCounts(old(s), before, s, outs);
      if retval == 0 {
        AllUp(outs);
      }
    }

    /** The kernel's side: an outstanding request ends, with a connection or with an error, and a thread picks it up
        (tcp.c:856-883). */
    method PickUp(tid: Tid, link: Handle, connected: bool)
      requires Reachable(s) && tid !in s.threads && link in s.waiting
      modifies this
      ensures Reachable(s) && s.waiting == old(s.waiting) - {link} && s.open == old(s.open)
      ensures s.threads == old(s.threads)[tid := ReferListener(if connected then Accepted(link) else Faulted(link))]
      ensures s.closed == old(s.closed) && s.h.size == old(s.h.size) && s.h.leaked == old(s.h.leaked)
      ensures s.nextHandle == old(s.nextHandle)
    {
      ReachableStep(s, Complete(tid, link, connected));
      s := Apply(s, Complete(tid, link, connected));
    }

    /** A connection arrives on an open listener, and is handled: it belongs to the user, or is closed when it cannot be
        set up; and the request that brought it is replaced, or the listener closed. */
    method HandleConnection(tid: Tid, link: Handle, setUp: Result, packetOk: bool, tries: nat -> Attempt)
      requires Reachable(s) && tid !in s.threads && link in s.waiting
      modifies this
      ensures Reachable(s) && s.threads == old(s.threads) && link in s.h.place
      ensures s.h.place[link] == if setUp.Refused? then Shut else Live
      ensures link in s.open <==> !setUp.Refused?
      ensures var o := OutcomeOf(packetOk, tries);
              && s.closed == (old(s.closed) || !PutsUp(o))
              && s.waiting == old(s.waiting) - {link} + if o == Put then {s.nextHandle - 1} else {}
    {
      PickUp(tid, link, true);
      LinkIsOld(s, tid, link);
      DispatchIoSyn(tid, link, true, setUp, packetOk, tries);
      assert s.threads == old(s.threads);
    }

    /** An outstanding request fails, and is handled: its object is closed in every case. */
    method HandleFailure(tid: Tid, link: Handle, listenOk: bool, packetOk: bool, tries: nat -> Attempt)
      requires Reachable(s) && tid !in s.threads && link in s.waiting && (!listenOk ==> s.closed)
      modifies this
      ensures Reachable(s) && s.threads == old(s.threads) && link in s.h.place
      ensures s.h.place[link] == Shut && link !in s.open && s.h.size == old(s.h.size)
      ensures var o := OutcomeOf(packetOk, tries);
              && s.closed == (old(s.closed) || (listenOk && o == GaveUp))
              && s.h.leaked == old(s.h.leaked) + Count(listenOk && (o == NoPacket || o == Lost))
              && s.waiting == old(s.waiting) - {link} + if listenOk && o == Put then {s.nextHandle - 1} else {}
    {
      PickUp(tid, link, false);
      LinkIsOld(s, tid, link);
      ShutdownSyn(tid, link, listenOk, packetOk, tries);
      assert s.threads == old(s.threads);
    }

    /** objclos on the listener by its user. */
    method CloseListener()
      requires Reachable(s)
      modifies this
      ensures Reachable(s) && s.closed
      ensures s.threads == old(s.threads) && s.waiting == old(s.waiting) && s.open == old(s.open)
    {
      ReachableStep(s, Close);
      s := Apply(s, Close);
    }
  }

  method OneRequest() returns (listener: Listener, link: Handle)
    ensures fresh(listener) && Reachable(listener.s) && !listener.s.closed && listener.s.threads == map[]
    ensures listener.s.waiting == {link} && listener.s.h.size == 1 && listener.s.h.leaked == 0
  {
    listener := new Listener();
    var retval, outs := listener.Listen(0, 1, _ => true, _ => _ => Posts);
    assert outs[0] == Put && |outs| == 1;
    AllUp(outs);
    link :| link in listener.s.waiting;
    assert |listener.s.waiting - {link}| == 0;
  }

  /** An open listener can end up without its requests: the only one fails while there is no memory for another
      packet, the listener stays open, and nothing is left that could accept a connection. */
  method LeftWithoutRequests() returns (listener: Listener)
    ensures fresh(listener) && Reachable(listener.s) && !listener.s.closed
    ensures listener.s.threads == map[] && listener.s.waiting == {} && listener.s.h.size == 1 && listener.s.h.leaked == 1
  {
    var link;
    listener, link := OneRequest();
    listener.HandleFailure(0, link, true, false, _ => Posts);
  }

  /** When a listener is closed, its requests fail and nothing of them is left open. */
  method ClosedListenerDrains() returns (listener: Listener, link: Handle)
    ensures fresh(listener) && Reachable(listener.s) && listener.s.closed
    ensures listener.s.threads == map[] && listener.s.waiting == {} && link !in listener.s.open
    ensures link in listener.s.h.place && listener.s.h.place[link] == Shut
  {
    listener, link := OneRequest();
    listener.CloseListener();
    listener.HandleFailure(0, link, false, true, _ => Posts);
  }
}
