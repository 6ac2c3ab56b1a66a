/**
 * The send side of one link (tcp.c:105-173, 434-476, 654-686, 811-853, 891-908, 1269-1356) as a machine of
 * interleaved steps. Any number of threads run at once; one step is one interlocked operation, one
 * operation on the locked list, one call that leaves the program, or one free.
 *
 * Threads are identified by numbers. A thread is a writer inside tcp_write, or a completion thread inside
 * tcp_dispatch_io_send or tcp_dispatch_io_exception. Its program counter says what it does next.
 */
module SendMachine {
  import opened Templates
  import Runs

  type Tid = nat

  /** A kSend packet: which allocation it is, and the user data its buffer was built from. */
  datatype Packet = Packet(id: nat, payload: seq<Byte>)

  /** Who called tcp_try_write, and so what follows when it returns 0: tcp_write drops its reference;
      tcp_dispatch_io_send first frees the completed packet; tcp_dispatch_io_exception has freed it already. */
  datatype Caller = Writer | Completion(done: Packet) | Handler

  datatype Pc =
    // tcp_write
    | PreCheck(payload: seq<Byte>)                 // 1293: look at the cached count
    | Build(payload: seq<Byte>)                    // 1298-1337: buffer, header, packet
    | Refused(packet: Packet)                      // 1341: tcp_try_write returned -1
    // tcp_try_write
    | EnterWith(packet: Packet)                    // 118, with a packet
    | EnterEmpty(caller: Caller)                   // 118, without one
    | CountUp(packet: Packet)                      // 124
    | CountBack(packet: Packet)                    // 125
    | Append(packet: Packet)                       // 131
    | CheckQueue(caller: Caller)                   // 134
    | Probe(caller: Caller, retries: nat)          // 144
    | Retract(caller: Caller, retries: nat)        // 145
    | Pop(caller: Caller)                          // 152-153
    | Discount(caller: Caller, next: Packet)       // 155
    | LeaveRefused(packet: Packet)                 // 158, returning -1
    | LeaveIdle(caller: Caller)                    // 146 or 158, nothing to send
    | LeaveToPost(caller: Caller, next: Packet)    // 158, next_packet is set
    | Post(caller: Caller, next: Packet)           // 168: asio_tcp_send
    | Return(caller: Caller)                       // tcp_try_write has returned 0
    | Release                                      // objdefr
    // tcp_dispatch_io_send
    | SendDone(packet: Packet)                     // 671: tcprefr
    | SendRelease(packet: Packet)                  // 678
    // tcp_dispatch_io_exception
    | Failed(packet: Packet, fatal: bool)          // 822: tcprefr
    | FailedRelease(packet: Packet)                // 844
    | FailedFree(packet: Packet)                   // 847
    // shared endings
    | Orphan(packet: Packet)                       // 673, 824: the link is gone, free the packet
    | Shut(packet: Packet, after: Option<Caller>)  // tcp_shutdown_by_packet; None: called without a reference

  /** Who holds the right to submit: the send token. History only, no step looks at it. */
  datatype Token = Free | HeldBy(tid: Tid) | InFlight | Lost

  /** Where a packet is. History only. */
  datatype Place = With(tid: Tid) | Queued | Submitted | Gone

  /** What a thread has done: found the counter full, looked at the list, passed a packet to asio_tcp_send, closed
      the link, or returned the token. */
  datatype Mark = FoundFull | Looked | Submits | Closes | Returns

  /** What has happened so far. No step is guarded by it. */
  datatype History = History(
    token: Token,
    place: map<Packet, Place>,     // every packet ever allocated
    appended: seq<Packet>,         // list_add_tail, in order
    submitted: seq<Packet>,        // passed to asio_tcp_send, in order
    drained: seq<Packet>,          // freed by tcp_unload
    freed: seq<Packet>,            // freepkt, in order
    skipped: set<Packet>,          // a send failed without ending the link, and none of its bytes had gone out
    cutShort: bool,                // the same happened to a send of which a part had gone out
    torn: bool,                    // and a byte has gone out behind that part
    trail: map<Tid, seq<Mark>>)    // what each thread has done, in order

  datatype State = State(
    queue: seq<Packet>,            // tcp_sender_cache_head_
    listSize: int,                 // tcp_sender_list_size_
    lock: Option<Tid>,             // tcp_sender_locker_
    pending: int,                  // tcp_write_pending_
    closed: bool,                  // objclos was called
    unloading: bool,               // tcp_unload has begun
    nextId: nat,
    kernel: seq<Packet>,           // WSASend accepted, completion outstanding
    progress: nat,                 // bytes of the front packet that are on the wire
    wire: seq<Byte>,
    threads: map<Tid, Pc>,
    h: History)

  const INITIAL := State([], 0, None, 0, false, false, 0, [], 0, [], map[],
                         History(Free, map[], [], [], [], [], {}, false, false, map[]))

  datatype Outcome = Sent | ZeroLength | Error(fatal: bool)

  datatype Step =
    | Write(tid: Tid, payload: seq<Byte>)                  // a thread enters tcp_write and references the link
    | Run(tid: Tid, ok: bool)                              // a thread's next operation; ok: the outside call succeeds
    | Transmit                                             // the kernel puts one more byte on the wire
    | Complete(tid: Tid, index: nat, outcome: Outcome)     // a completion is picked up by a thread
    | Close                                                // objclos by anyone
    | BeginUnload                                          // the last reference is gone: tcp_unload
    | Drain                                                // tcp_unload frees one queued packet

  /** The thread holds a reference on the link, so tcp_unload cannot run. */
  predicate HoldsReference(pc: Pc) {
    !pc.SendDone? && !pc.Failed? && !pc.Orphan? && !(pc.Shut? && pc.after.None?)
  }

  predicate InsideLock(pc: Pc) {
    || pc.CountUp? || pc.CountBack? || pc.Append? || pc.CheckQueue? || pc.Probe? || pc.Retract?
    || pc.Pop? || pc.Discount? || pc.LeaveRefused? || pc.LeaveIdle? || pc.LeaveToPost?
  }

  /** What the outside may do at this point. A live object can be referenced; after objclos the reference may
      be refused; once it is being unloaded it is refused. No packet is built for a size that the builder
      refuses; otherwise memory may be short. A post can always fail. */
  predicate OutsideAllows(t: Template, s: State, pc: Pc, ok: bool) {
    match pc
    case Build(payload) => ok ==> t.Accepts(|payload|)
    case SendDone(_) => if ok then !s.unloading else s.closed
    case Failed(_, _) => if ok then !s.unloading else s.closed
    case _ => true
  }

  predicate Enabled(t: Template, s: State, step: Step) {
    match step
    case Write(tid, payload) => tid !in s.threads && !s.unloading && 0 < |payload| <= MAXIMUM_PACKET_SIZE
    case Run(tid, ok) =>
      && tid in s.threads
      && var pc := s.threads[tid];
      && OutsideAllows(t, s, pc, ok)
      && (pc.EnterWith? || pc.EnterEmpty? ==> s.lock.None?)
      && (pc.Pop? ==> s.queue != [])
    case Transmit => s.kernel != [] && s.progress < |t.Encode(s.kernel[0].payload)|
    case Complete(tid, index, outcome) =>
      && tid !in s.threads && index < |s.kernel|
      && (outcome.Sent? ==> index == 0 && s.progress == |t.Encode(s.kernel[0].payload)|)
    case Close => true
    case BeginUnload => s.closed && !s.unloading && forall tid :: tid in s.threads ==> !HoldsReference(s.threads[tid])
    case Drain => s.unloading && s.queue != []
  }

  /** Control: where a thread goes with its next operation; None when it is done with the link. */
  function NextPc(s: State, tid: Tid, ok: bool): Option<Pc>
    requires tid in s.threads && (s.threads[tid].Pop? ==> s.queue != [])
  {
    PcAfter(s.threads[tid], s, ok)
  }

  function PcAfter(pc: Pc, s: State, ok: bool): Option<Pc>
    requires pc.Pop? ==> s.queue != []
  {
    match pc
    case PreCheck(payload) => Some(if s.listSize >= MAXIMUM_SENDER_CACHED then Release else Build(payload))
    case Build(payload) => Some(if ok then EnterWith(Packet(s.nextId, payload)) else Release)
    case Refused(p) => Some(Release)
    case EnterWith(p) => Some(CountUp(p))
    case EnterEmpty(c) => Some(CheckQueue(c))
    case CountUp(p) => Some(if s.listSize + 1 >= MAXIMUM_SENDER_CACHED then CountBack(p) else Append(p))
    case CountBack(p) => Some(LeaveRefused(p))
    case Append(p) => Some(Probe(Writer, 0))
    case CheckQueue(c) => Some(if s.queue == [] then LeaveIdle(c) else Probe(c, 0))
    case Probe(c, n) => Some(if s.pending + 1 > 1 then Retract(c, n) else Pop(c))
    case Retract(c, n) => Some(if s.pending - 1 > 0 then LeaveIdle(c) else Probe(c, n + 1))
    case Pop(c) => Some(Discount(c, s.queue[0]))
    case Discount(c, next) => Some(LeaveToPost(c, next))
    case LeaveRefused(p) => Some(Refused(p))
    case LeaveIdle(c) => Some(Return(c))
    case LeaveToPost(c, next) => Some(Post(c, next))
    case Post(c, next) => Some(if ok then Return(c) else Shut(next, Some(c)))
    case Return(c) => Some(Release)
    case Release => None
    case SendDone(p) => Some(if ok then SendRelease(p) else Orphan(p))
    case SendRelease(p) => Some(EnterEmpty(Completion(p)))
    case Failed(p, fatal) =>
      Some(if !ok then Orphan(p) else if fatal then Shut(p, Some(Handler)) else FailedRelease(p))
    case FailedRelease(p) => Some(FailedFree(p))
    case FailedFree(p) => Some(EnterEmpty(Handler))
    case Orphan(p) => None
    case Shut(p, after) => if after.None? then None else Some(Return(after.value))
  }

  // What an operation does to the state: for each variable, the operations that touch it.

  function NextLock(s: State, tid: Tid): Option<Tid>
    requires tid in s.threads
  {
    match s.threads[tid]
    case EnterWith(_) => Some(tid)
    case EnterEmpty(_) => Some(tid)
    case LeaveRefused(_) => None
    case LeaveIdle(_) => None
    case LeaveToPost(_, _) => None
    case _ => s.lock
  }

  function NextQueue(s: State, tid: Tid): seq<Packet>
    requires tid in s.threads && (s.threads[tid].Pop? ==> s.queue != [])
  {
    match s.threads[tid]
    case Append(p) => s.queue + [p]
    case Pop(_) => s.queue[1..]
    case _ => s.queue
  }

  function NextListSize(s: State, tid: Tid): int
    requires tid in s.threads
  {
    match s.threads[tid]
    case CountUp(_) => s.listSize + 1
    case CountBack(_) => s.listSize - 1
    case Discount(_, _) => s.listSize - 1
    case _ => s.listSize
  }

  function NextPending(s: State, tid: Tid): int
    requires tid in s.threads
  {
    match s.threads[tid]
    case Probe(_, _) => s.pending + 1
    case Retract(_, _) => s.pending - 1
    case SendRelease(_) => s.pending - 1
    case FailedRelease(_) => s.pending - 1
    case _ => s.pending
  }

  function NextKernel(s: State, tid: Tid, ok: bool): seq<Packet>
    requires tid in s.threads
  {
    match s.threads[tid]
    case Post(_, next) => if ok then s.kernel + [next] else s.kernel
    case _ => s.kernel
  }

  function NextToken(s: State, tid: Tid, ok: bool): Token
    requires tid in s.threads
  {
    match s.threads[tid]
    case Probe(_, _) => if s.pending + 1 > 1 then s.h.token else HeldBy(tid)
    case Post(_, _) => if ok then InFlight else Lost
    case SendDone(_) => if ok then s.h.token else Lost
    case Failed(_, _) => if ok then s.h.token else Lost
    case SendRelease(_) => Free
    case FailedRelease(_) => Free
    case _ => s.h.token
  }

  /** freepkt: the packet, and the buffer it owns, that the operation frees. */
  function Frees(pc: Pc): Option<Packet> {
    match pc
    case Refused(p) => Some(p)
    case Return(c) => if c.Completion? then Some(c.done) else None
    case FailedFree(p) => Some(p)
    case Orphan(p) => Some(p)
    case Shut(p, _) => Some(p)
    case _ => None
  }

  /** The packet that changes hands with the operation, and where it goes. */
  function Handover(s: State, tid: Tid, ok: bool): Option<(Packet, Place)>
    requires tid in s.threads && (s.threads[tid].Pop? ==> s.queue != [])
  {
    match s.threads[tid]
    case Build(payload) => if ok then Some((Packet(s.nextId, payload), With(tid))) else None
    case Append(p) => Some((p, Queued))
    case Pop(_) => Some((s.queue[0], With(tid)))
    case Post(_, next) => if ok then Some((next, Submitted)) else None
    case pc => if Frees(pc).Some? then Some((Frees(pc).value, Gone)) else None
  }

  function Relocate(place: map<Packet, Place>, move: Option<(Packet, Place)>): map<Packet, Place> {
    if move.None? then place else place[move.value.0 := move.value.1]
  }

  /** What the operation adds to its thread's trail. */
  function MarkOf(pc: Pc, s: State): Option<Mark> {
    match pc
    case PreCheck(_) => if s.listSize >= MAXIMUM_SENDER_CACHED then Some(FoundFull) else None
    case CountUp(_) => if s.listSize + 1 >= MAXIMUM_SENDER_CACHED then Some(FoundFull) else None
    case CheckQueue(_) => Some(Looked)
    case Post(_, _) => Some(Submits)
    case Shut(_, _) => Some(Closes)
    case SendRelease(_) => Some(Returns)
    case FailedRelease(_) => Some(Returns)
    case _ => None
  }

  function Trail(trail: map<Tid, seq<Mark>>, tid: Tid): seq<Mark> {
    if tid in trail then trail[tid] else []
  }

  function Leave(trail: map<Tid, seq<Mark>>, tid: Tid, mark: Option<Mark>): map<Tid, seq<Mark>> {
    if mark.None? then trail else trail[tid := Trail(trail, tid) + [mark.value]]
  }

  function NextHistory(s: State, tid: Tid, ok: bool): History
    requires tid in s.threads && (s.threads[tid].Pop? ==> s.queue != [])
  {
    var pc := s.threads[tid];
    History(
      NextToken(s, tid, ok),
      Relocate(s.h.place, Handover(s, tid, ok)),
      if pc.Append? then s.h.appended + [pc.packet] else s.h.appended,
      if pc.Post? then s.h.submitted + [pc.next] else s.h.submitted,
      s.h.drained,
      if Frees(pc).Some? then s.h.freed + [Frees(pc).value] else s.h.freed,
      s.h.skipped,
      s.h.cutShort,
      s.h.torn,
      Leave(s.h.trail, tid, MarkOf(pc, s)))
  }

  /** One operation of a thread. */
  function RunThread(s: State, tid: Tid, ok: bool): State
    requires tid in s.threads && (s.threads[tid].Pop? ==> s.queue != [])
  {
    var pc := s.threads[tid];
    State(
      NextQueue(s, tid),
      NextListSize(s, tid),
      NextLock(s, tid),
      NextPending(s, tid),
      s.closed || pc.Shut?,
      s.unloading,
      if pc.Build? && ok then s.nextId + 1 else s.nextId,
      NextKernel(s, tid, ok),
      s.progress,
      s.wire,
      Move(s.threads, tid, NextPc(s, tid, ok)),
      NextHistory(s, tid, ok))
  }

  /** A completion leaves the kernel and a thread picks it up (tcp_dispatch_io_event, tcp.c:856-883). */
  function CompleteSend(t: Template, s: State, tid: Tid, index: nat, outcome: Outcome): State
    requires index < |s.kernel|
  {
    var p := s.kernel[index];
    var out := if index == 0 then s.progress else 0;
    var lost := outcome.ZeroLength? || (outcome.Error? && outcome.fatal);
    var dropped := outcome.Error? && !outcome.fatal;
    s.(kernel := s.kernel[..index] + s.kernel[index + 1..],
       progress := if index == 0 then 0 else s.progress,
       threads := Move(s.threads, tid, Some(CompletePc(p, outcome))),
       h := s.h.(token := if lost then Lost else HeldBy(tid),
                 place := s.h.place[p := With(tid)],
                 skipped := if dropped && out == 0 then s.h.skipped + {p} else s.h.skipped,
                 cutShort := s.h.cutShort || (dropped && 0 < out < |t.Encode(p.payload)|)))
  }

  /** Where the thread that picks up the completion begins. */
  function CompletePc(p: Packet, outcome: Outcome): Pc {
    match outcome
    case Sent => SendDone(p)
    case ZeroLength => Shut(p, None)
    case Error(fatal) => Failed(p, fatal)
  }

  function Move(threads: map<Tid, Pc>, tid: Tid, pc: Option<Pc>): map<Tid, Pc> {
    if pc.None? then threads - {tid} else threads[tid := pc.value]
  }

  function Apply(t: Template, s: State, step: Step): State
    requires Enabled(t, s, step)
  {
    match step
    case Write(tid, payload) => s.(threads := Move(s.threads, tid, Some(PreCheck(payload))))
    case Run(tid, ok) => RunThread(s, tid, ok)
    case Transmit =>
      s.(wire := s.wire + [t.Encode(s.kernel[0].payload)[s.progress]],
         progress := s.progress + 1,
         h := s.h.(torn := s.h.torn || s.h.cutShort))
    case Complete(tid, index, outcome) => CompleteSend(t, s, tid, index, outcome)
    case Close => s.(closed := true)
    case BeginUnload => s.(unloading := true, listSize := 0)
    case Drain =>
      var p := s.queue[0];
      s.(queue := s.queue[1..],
         h := s.h.(place := s.h.place[p := Gone], freed := s.h.freed + [p], drained := s.h.drained + [p]))
  }

  /** Some step leads from one state to the other. */
  ghost predicate Stepped(t: Template, s: State, s': State) {
    exists step :: Enabled(t, s, step) && Apply(t, s, step) == s'
  }

  ghost function Next(t: Template): (State, State) -> bool {
    (s, s') => Stepped(t, s, s')
  }

  /** Some run leads from one state to the other. */
  ghost predicate Leads(t: Template, start: State, end: State) {
    Runs.Leads(Next(t), start, end)
  }

  ghost predicate Reachable(t: Template, s: State) {
    Leads(t, INITIAL, s)
  }
}
