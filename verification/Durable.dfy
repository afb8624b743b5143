/**
 The durable turn protocol of one session, as a transition system.

 A `Slice` holds everything that concerns one session: its row, its part of the turn ledger,
 of the outbox and of the input stream, the handler tasks working on it with their program
 counters and the values they have read, and the advisory lock. The last four fields are
 history: they record what was sent, how each era began, what was executed and what was
 posted, and no guard reads them.

 Each `Action` is one SQL statement or transaction, one network call, or one fault. Tasks
 interleave freely between actions; a crash may fall between any two.
 */
module Durable {
  import opened Options
  import opened Lifecycle
  import Relay

  type Key = nat      // idempotency key of a turn
  type TaskId = nat
  type MsgId = nat    // stream entry id
  type RowId = nat    // outbox row id

  // ---- Tables and stream --------------------------------------------------------------

  datatype TurnStatus = Queued | Executing | Completed | Delivered | DeliveryFailed | Aborted | Uncertain

  datatype Turn = Turn(seqno: nat, version: nat, status: TurnStatus, result: Option<string>)

  datatype Envelope = Envelope(key: Key, version: nat, host: Host, text: string)

  datatype OutboxRow = OutboxRow(envelope: Envelope, published: bool, attempts: nat)

  /** The relay still tries to publish the row. */
  predicate Attempted(r: OutboxRow) {
    !r.published && r.attempts < Relay.MAX_ATTEMPTS
  }

  datatype Delivery = Unread | Pending | Acked
  datatype Entry = Entry(envelope: Envelope, delivery: Delivery)

  predicate Terminal(t: TurnStatus) {
    t.Delivered? || t.DeliveryFailed? || t.Aborted?
  }

  /** Open turns keep the janitor's timeout sweeps away from the session. */
  predicate Open(t: TurnStatus) {
    t.Queued? || t.Executing? || t.Completed?
  }

  // ---- Tasks --------------------------------------------------------------------------

  datatype Outcome = DeliveredOutcome | SkippedReplay | Deferred | AbortedOutcome

  datatype InputPc =
    | Fetched                                           // has the message, not the lock
    | Locked                                            // advisory lock held, nothing read
    | SawRow(token: Option<Token>)                      // session row read: live at the envelope's version
    | SawTurn(token: Option<Token>, turn: Option<Turn>) // ledger row read as well
    | Interrupted                                       // the turn was executing or uncertain
    | NoticeUncertain                                   // marked uncertain, notice to be posted
    | Denied                                            // workspace refused, turn to be retired
    | NoticeDenied                                      // retired, notice to be posted
    | Admitting(token: Option<Token>)                   // allowed to run, not yet admitted
    | InExecution                                       // tool running
    | Posting(reply: Option<string>)
    | Marking(status: TurnStatus)                       // reply settled, turn to be retired
    | Returned                                          // handler returned true, lock released, ack to come

  datatype Task =
    | Input(mid: MsgId, envelope: Envelope, pc: InputPc)
    | Create                                            // saw the row in 'creating'
    | Resume(version: nat, locked: bool)                // resume or restart job, nothing read
    | Resuming(version: nat, locked: bool, token: Option<Token>) // saw 'resuming' at the job's version
    | Recover(version: nat)                             // startup recovery, saw this version

  predicate HoldsLock(t: Task) {
    match t
    case Input(_, _, pc) => !pc.Fetched? && !pc.Returned?
    case Create => false
    case Resume(_, locked) => locked
    case Resuming(_, locked, _) => locked
    case Recover(_) => false
  }

  // ---- History ------------------------------------------------------------------------

  datatype Result = Result(reply: string, token: Option<Token>)

  /** One execution: the turn it ran, the resume token it was started with, and what it returned. */
  datatype Exec = Exec(key: Key, version: nat, seqno: nat, text: string, token: Option<Token>, result: Option<Result>)

  datatype Post = Reply(key: Key, text: Option<string>) | UncertainNotice(key: Key) | DeniedNotice(key: Key)

  // ---- The state ----------------------------------------------------------------------

  datatype Slice = Slice(
    row: Row,
    turns: map<Key, Turn>,
    nextSeq: nat,
    outbox: map<RowId, OutboxRow>,
    stream: map<MsgId, Entry>,
    lastId: MsgId,
    tasks: map<TaskId, Task>,
    lock: Option<TaskId>,
    // history
    sent: map<Key, Envelope>,
    eraStart: map<nat, Option<Token>>,
    log: seq<Exec>,
    posts: seq<Post>)

  /** A session as the create saga inserts it. */
  function NewSession(host: Host): Slice {
    Slice(Row(Creating, 0, None, host), map[], 0, map[], map[], 0, map[], None, map[], map[], [], [])
  }

  ghost predicate Busy(turns: map<Key, Turn>, v: nat) {
    exists k :: k in turns && turns[k].version == v && Open(turns[k].status)
  }

  /** `k` is the ORDER BY sequence LIMIT 1 of the turns of version `v` that are not terminal. */
  ghost predicate IsEarliest(turns: map<Key, Turn>, v: nat, k: Key) {
    && k in turns && turns[k].version == v && !Terminal(turns[k].status)
    && forall k' :: k' in turns && turns[k'].version == v && !Terminal(turns[k'].status) ==>
                      turns[k].seqno <= turns[k'].seqno
  }

  /** An earliest unfinished turn exists and is not `key`. */
  ghost predicate Blocked(turns: map<Key, Turn>, v: nat, key: Key) {
    exists k :: IsEarliest(turns, v, k) && k != key
  }

  // ---- Actions ------------------------------------------------------------------------

  datatype PostOutcome = Accepted | Gone | Unprocessable | Transient

  datatype Action =
    // row-only writes of the bot, the janitor and the stop job
    | Lifecycle(write: Write)
    // create, resume, restart and recovery tasks
    | BeginCreate(tid: TaskId)
    | EndCreate(tid: TaskId, write: Write)
    | BeginResume(tid: TaskId, version: nat, locked: bool)
    | ReadResuming(tid: TaskId)
    | FailResume(tid: TaskId, orphaned: bool)
    | CommitResume(tid: TaskId, minted: Option<Token>)
    | BeginRecover(tid: TaskId)
    | FailRecover(tid: TaskId, orphaned: bool)
    // bot input saga, relay, stream, retention
    | Enqueue(key: Key, seqno: nat, rid: RowId, text: string)
    | Publish(rid: RowId, mid: MsgId, committed: bool)
    | Refuse(rid: RowId)                                // an XADD error of the row's own
    | SweepOutbox(rid: RowId)
    | Deliver(mid: MsgId)
    | TrimEntry(mid: MsgId)
    | SweepResult(key: Key)
    // the input handler
    | Fetch(tid: TaskId, mid: MsgId)
    | TryLock(tid: TaskId)
    | ReadRow(tid: TaskId)
    | ReadTurn(tid: TaskId)
    | ReadEarliest(tid: TaskId, denied: bool)
    | MarkUncertain(tid: TaskId)
    | PostUncertain(tid: TaskId, post: PostOutcome)
    | MarkAborted(tid: TaskId)
    | PostDenied(tid: TaskId)
    | AdmitTurn(tid: TaskId)
    | Complete(tid: TaskId, reply: string, token: Option<Token>)
    | PostReply(tid: TaskId, post: PostOutcome)
    | MarkTurn(tid: TaskId)
    | Ack(tid: TaskId)
    // faults
    | Crash(tid: TaskId)

  /** Writes that the bot, the janitor and the stop job issue on their own. */
  predicate Standalone(w: Write) {
    || w.StopSaga? || w.ArchiveSaga? || w.ResumeSaga? || w.RestartSaga? || w.StopJob?
    || w.CreateWatchdog? || w.ResumeWatchdog? || w.IdleSweep? || w.ArchiveSweep? || w.StopSweep?
    || w.StoppingWatchdog? || w.HostLost?
  }

  /** A row write, recording the start of an era when it makes the session live. */
  ghost function WriteRow(s: Slice, w: Write): (s': Slice)
    ensures s' == s.(row := s'.row, eraStart := s'.eraStart)
    ensures NoNewExecution(s, s') && KeepsStatuses(s, s')
  {
    var row := Update(s.row, Busy(s.turns, s.row.version), w);
    s.(row := row,
       eraStart := if Live(row) && !Live(s.row) then s.eraStart[row.version := row.token] else s.eraStart)
  }

  /** No task is executing in `s'` that was not executing in `s`. */
  ghost predicate NoNewExecution(s: Slice, s': Slice) {
    forall t :: t in s'.tasks && s'.tasks[t].Input? && s'.tasks[t].pc.InExecution? ==>
                  t in s.tasks && s.tasks[t] == s'.tasks[t]
  }

  /** The step leaves every task but `tid` where it was, and takes no other task's lock. */
  ghost predicate TouchesOnly(s: Slice, s': Slice, tid: Option<TaskId>) {
    forall t :: t in s.tasks && Some(t) != tid ==>
                  t in s'.tasks && s'.tasks[t] == s.tasks[t] && (s.lock == Some(t) ==> s'.lock == s.lock)
  }

  /** The step writes no row, begins no era, sends and executes nothing, and takes back no post. */
  ghost predicate ReadsRow(s: Slice, s': Slice) {
    s'.row == s.row && s'.eraStart == s.eraStart && s'.sent == s.sent && s'.log == s.log && s.posts <= s'.posts
  }

  /** The step changes no turn's status, executes nothing and takes back no post. */
  ghost predicate KeepsStatuses(s: Slice, s': Slice) {
    && s'.log == s.log && s.posts <= s'.posts
    && forall k :: k in s.turns ==>
         k in s'.turns && s'.turns[k].status == s.turns[k].status && s'.turns[k].version == s.turns[k].version
  }

  function SetTask(s: Slice, tid: TaskId, t: Task): Slice {
    s.(tasks := s.tasks[tid := t])
  }

  function SetPc(s: Slice, tid: TaskId, pc: InputPc): (s': Slice)
    requires tid in s.tasks && s.tasks[tid].Input?
    ensures s' == s.(tasks := s'.tasks)
    ensures !pc.InExecution? ==> NoNewExecution(s, s')
  {
    SetTask(s, tid, s.tasks[tid].(pc := pc))
  }

  function Unlock(s: Slice, tid: TaskId): Slice {
    s.(lock := if s.lock == Some(tid) then None else s.lock)
  }

  /** The task ends here, with nothing left to do; its lock is released. */
  function End(s: Slice, tid: TaskId): (s': Slice)
    ensures s' == s.(tasks := s'.tasks, lock := s'.lock)
    ensures NoNewExecution(s, s') && KeepsStatuses(s, s') && ReadsRow(s, s') && TouchesOnly(s, s', Some(tid))
  {
    Unlock(s, tid).(tasks := s.tasks - {tid})
  }

  /** `run_input_job` returns: a deferred message stays pending, any other outcome is acked next. */
  function Return(s: Slice, tid: TaskId, o: Outcome): (s': Slice)
    requires tid in s.tasks && s.tasks[tid].Input?
    ensures s' == s.(tasks := s'.tasks, lock := s'.lock)
    ensures NoNewExecution(s, s')
  {
    if o.Deferred? then End(s, tid) else SetPc(Unlock(s, tid), tid, Returned)
  }

  function SetTurnStatus(s: Slice, k: Key, status: TurnStatus): Slice {
    if k in s.turns then s.(turns := s.turns[k := s.turns[k].(status := status)]) else s
  }

  predicate At(s: Slice, tid: TaskId) {
    tid in s.tasks && s.tasks[tid].Input?
  }

  // ---- Create, resume and recovery tasks -------------------------------------------------

  ghost predicate StepBegin(s: Slice, tid: TaskId, t: Task, s': Slice)
    ensures StepBegin(s, tid, t, s') ==> ReadsRow(s, s') && KeepsStatuses(s, s') && NoNewExecution(s, s')
    ensures StepBegin(s, tid, t, s') ==> TouchesOnly(s, s', Some(tid))
  {
    && tid !in s.tasks
    && ((t.Create? && s.row.status.Creating?)
        || (t == Recover(s.row.version) && (Live(s.row) || s.row.status.Resuming?)))
    && s' == SetTask(s, tid, t)
  }

  ghost predicate StepEndCreate(s: Slice, tid: TaskId, w: Write, s': Slice)
    ensures StepEndCreate(s, tid, w, s') ==> s'.sent == s.sent && KeepsStatuses(s, s') && NoNewExecution(s, s')
    ensures StepEndCreate(s, tid, w, s') ==> TouchesOnly(s, s', Some(tid))
  {
    && tid in s.tasks && s.tasks[tid].Create?
    && (w.CreateRunning? || w.CreateFailed?)
    && s' == End(WriteRow(s, w), tid)
  }

  ghost predicate StepBeginResume(s: Slice, tid: TaskId, v: nat, locked: bool, s': Slice)
    ensures StepBeginResume(s, tid, v, locked, s') ==> ReadsRow(s, s') && KeepsStatuses(s, s') && NoNewExecution(s, s')
    ensures StepBeginResume(s, tid, v, locked, s') ==> TouchesOnly(s, s', Some(tid))
  {
    && tid !in s.tasks
    && (locked ==> s.lock.None?)
    && s' == SetTask(s, tid, Task.Resume(v, locked)).(lock := if locked then Some(tid) else s.lock)
  }

  ghost predicate StepReadResuming(s: Slice, tid: TaskId, s': Slice)
    ensures StepReadResuming(s, tid, s') ==> ReadsRow(s, s') && KeepsStatuses(s, s') && NoNewExecution(s, s')
    ensures StepReadResuming(s, tid, s') ==> TouchesOnly(s, s', Some(tid))
  {
    && tid in s.tasks && s.tasks[tid].Resume?
    && var t := s.tasks[tid];
       s' == if s.row.status.Resuming? && s.row.version == t.version
             then SetTask(s, tid, Task.Resuming(t.version, t.locked, s.row.token))
             else End(s, tid)
  }

  ghost predicate StepFailResume(s: Slice, tid: TaskId, orphaned: bool, s': Slice)
    ensures StepFailResume(s, tid, orphaned, s') ==> s'.sent == s.sent && KeepsStatuses(s, s') && NoNewExecution(s, s')
    ensures StepFailResume(s, tid, orphaned, s') ==> TouchesOnly(s, s', Some(tid))
  {
    && tid in s.tasks && s.tasks[tid].Resuming?
    && var v := s.tasks[tid].version;
       s' == End(WriteRow(s, if orphaned then ResumeOrphaned(v) else ResumeFailed(v)), tid)
  }

  /** The token read earlier is written back; a token is minted when there was none. */
  ghost predicate StepCommitResume(s: Slice, tid: TaskId, minted: Option<Token>, s': Slice)
    ensures StepCommitResume(s, tid, minted, s') ==> s'.sent == s.sent && KeepsStatuses(s, s') && NoNewExecution(s, s')
    ensures StepCommitResume(s, tid, minted, s') ==> TouchesOnly(s, s', Some(tid))
  {
    && tid in s.tasks && s.tasks[tid].Resuming?
    && var t := s.tasks[tid];
       s' == End(WriteRow(s, ResumeRunning(t.version, Coalesce(t.token, minted))), tid)
  }

  ghost predicate StepFailRecover(s: Slice, tid: TaskId, orphaned: bool, s': Slice)
    ensures StepFailRecover(s, tid, orphaned, s') ==> s'.sent == s.sent && KeepsStatuses(s, s') && NoNewExecution(s, s')
    ensures StepFailRecover(s, tid, orphaned, s') ==> TouchesOnly(s, s', Some(tid))
  {
    && tid in s.tasks && s.tasks[tid].Recover?
    && var v := s.tasks[tid].version;
       s' == End(WriteRow(s, if orphaned then RecoverOrphaned(v) else RecoverFailed(v)), tid)
  }

  // ---- Input saga, relay, stream, retention ----------------------------------------------

  ghost predicate StepEnqueue(s: Slice, key: Key, seqno: nat, rid: RowId, text: string, s': Slice)
    ensures StepEnqueue(s, key, seqno, rid, text, s') ==> KeepsStatuses(s, s') && NoNewExecution(s, s')
    ensures StepEnqueue(s, key, seqno, rid, text, s') ==> TouchesOnly(s, s', None)
  {
    && Live(s.row) && key !in s.sent && key !in s.turns && s.nextSeq <= seqno && rid !in s.outbox
    && var e := Envelope(key, s.row.version, s.row.host, text);
       s' == WriteRow(s, InputSaga).(
               turns := s.turns[key := Turn(seqno, s.row.version, Queued, None)],
               nextSeq := seqno + 1,
               outbox := s.outbox[rid := OutboxRow(e, false, 0)],
               sent := s.sent[key := e])
  }

  /** The relay appends the envelope; without a commit the row stays unpublished (a duplicate follows). */
  ghost predicate StepPublish(s: Slice, rid: RowId, mid: MsgId, committed: bool, s': Slice)
    ensures StepPublish(s, rid, mid, committed, s') ==> ReadsRow(s, s') && KeepsStatuses(s, s') && NoNewExecution(s, s')
    ensures StepPublish(s, rid, mid, committed, s') ==> TouchesOnly(s, s', None)
  {
    && rid in s.outbox && Attempted(s.outbox[rid]) && s.lastId < mid
    && s' == s.(stream := s.stream[mid := Entry(s.outbox[rid].envelope, Unread)],
                lastId := mid,
                outbox := if committed then s.outbox[rid := s.outbox[rid].(published := true)] else s.outbox)
  }

  /** A refused row has spent an attempt; with its last one it is given up. */
  ghost predicate StepRefuse(s: Slice, rid: RowId, s': Slice)
    ensures StepRefuse(s, rid, s') ==> ReadsRow(s, s') && KeepsStatuses(s, s') && NoNewExecution(s, s')
    ensures StepRefuse(s, rid, s') ==> TouchesOnly(s, s', None)
  {
    && rid in s.outbox && Attempted(s.outbox[rid])
    && s' == s.(outbox := s.outbox[rid := s.outbox[rid].(attempts := s.outbox[rid].attempts + 1)])
  }

  ghost predicate StepSweepOutbox(s: Slice, rid: RowId, s': Slice)
    ensures StepSweepOutbox(s, rid, s') ==> ReadsRow(s, s') && KeepsStatuses(s, s') && NoNewExecution(s, s')
    ensures StepSweepOutbox(s, rid, s') ==> TouchesOnly(s, s', None)
  {
    && rid in s.outbox && s.outbox[rid].published
    && s' == s.(outbox := s.outbox - {rid})
  }

  ghost predicate StepDeliver(s: Slice, mid: MsgId, s': Slice)
    ensures StepDeliver(s, mid, s') ==> ReadsRow(s, s') && KeepsStatuses(s, s') && NoNewExecution(s, s')
    ensures StepDeliver(s, mid, s') ==> TouchesOnly(s, s', None)
  {
    && mid in s.stream && s.stream[mid].delivery.Unread?
    && s' == s.(stream := s.stream[mid := s.stream[mid].(delivery := Pending)])
  }

  ghost predicate StepTrimEntry(s: Slice, mid: MsgId, s': Slice)
    ensures StepTrimEntry(s, mid, s') ==> ReadsRow(s, s') && KeepsStatuses(s, s') && NoNewExecution(s, s')
    ensures StepTrimEntry(s, mid, s') ==> TouchesOnly(s, s', None)
  {
    && mid in s.stream && s.stream[mid].delivery.Acked?
    && s' == s.(stream := s.stream - {mid})
  }

  ghost predicate StepSweepResult(s: Slice, k: Key, s': Slice)
    ensures StepSweepResult(s, k, s') ==> ReadsRow(s, s') && KeepsStatuses(s, s') && NoNewExecution(s, s')
    ensures StepSweepResult(s, k, s') ==> TouchesOnly(s, s', None)
  {
    && k in s.turns && (s.turns[k].status.Delivered? || s.turns[k].status.DeliveryFailed?)
    && s' == s.(turns := s.turns[k := s.turns[k].(result := None)])
  }

  // ---- The input handler -----------------------------------------------------------------

  /** A consumer starts on a message it was given: pending, or acked meanwhile by someone else. */
  ghost predicate StepFetch(s: Slice, tid: TaskId, mid: MsgId, s': Slice)
    ensures StepFetch(s, tid, mid, s') ==> ReadsRow(s, s') && KeepsStatuses(s, s') && NoNewExecution(s, s')
    ensures StepFetch(s, tid, mid, s') ==> TouchesOnly(s, s', Some(tid))
  {
    && tid !in s.tasks && mid in s.stream && !s.stream[mid].delivery.Unread?
    && s' == SetTask(s, tid, Input(mid, s.stream[mid].envelope, Fetched))
  }

  ghost predicate StepTryLock(s: Slice, tid: TaskId, s': Slice)
    ensures StepTryLock(s, tid, s') ==> ReadsRow(s, s') && KeepsStatuses(s, s') && NoNewExecution(s, s')
    ensures StepTryLock(s, tid, s') ==> TouchesOnly(s, s', Some(tid))
  {
    && At(s, tid) && s.tasks[tid].pc.Fetched?
    && s' == if s.lock.None? then SetPc(s, tid, Locked).(lock := Some(tid)) else End(s, tid)
  }

  ghost predicate StepReadRow(s: Slice, tid: TaskId, s': Slice)
    ensures StepReadRow(s, tid, s') ==> ReadsRow(s, s') && KeepsStatuses(s, s') && NoNewExecution(s, s')
    ensures StepReadRow(s, tid, s') ==> TouchesOnly(s, s', Some(tid))
  {
    && At(s, tid) && s.tasks[tid].pc.Locked?
    && var e := s.tasks[tid].envelope;
       s' == if !Live(s.row) || s.row.host != e.host || s.row.version != e.version
             then Return(s, tid, AbortedOutcome)
             else SetPc(s, tid, SawRow(s.row.token))
  }

  ghost predicate StepReadTurn(s: Slice, tid: TaskId, s': Slice)
    ensures StepReadTurn(s, tid, s') ==> ReadsRow(s, s') && KeepsStatuses(s, s') && NoNewExecution(s, s')
    ensures StepReadTurn(s, tid, s') ==> TouchesOnly(s, s', Some(tid))
  {
    && At(s, tid) && s.tasks[tid].pc.SawRow?
    && var t := s.tasks[tid];
       s' == SetPc(s, tid, SawTurn(t.pc.token,
                                   if t.envelope.key in s.turns then Some(s.turns[t.envelope.key]) else None))
  }

  /** Where a handler goes on: to another program point, or back to its caller. */
  datatype Choice = Go(pc: InputPc) | Back(outcome: Outcome)

  function GoOn(s: Slice, tid: TaskId, c: Choice): (s': Slice)
    requires tid in s.tasks && s.tasks[tid].Input?
    requires c.Go? ==> !c.pc.InExecution?
    ensures s' == s.(tasks := s'.tasks, lock := s'.lock)
    ensures NoNewExecution(s, s')
  {
    match c
    case Go(pc) => SetPc(s, tid, pc)
    case Back(o) => Return(s, tid, o)
  }

  /** The branch on the turn's status as read one statement before the FIFO check. */
  function Choose(e: Envelope, turn: Option<Turn>, token: Option<Token>, blocked: bool, denied: bool): (c: Choice)
    ensures c.Go? ==> c.pc.Interrupted? || c.pc.Denied? || c.pc == Admitting(token) || c.pc.Posting?
    ensures c.Back? ==> !c.outcome.DeliveredOutcome?
  {
    if blocked then Back(Deferred)
    else if turn.None? then Go(if denied then Denied else Admitting(token))
    else if turn.value.version != e.version then Back(AbortedOutcome)
    else match turn.value.status
         case Delivered => Back(SkippedReplay)
         case DeliveryFailed => Back(SkippedReplay)
         case Aborted => Back(SkippedReplay)
         case Completed => Go(Posting(turn.value.result))
         case Executing => Go(Interrupted)
         case Uncertain => Go(Interrupted)
         case Queued => Go(if denied then Denied else Admitting(token))
  }

  ghost predicate StepReadEarliest(s: Slice, tid: TaskId, denied: bool, s': Slice)
    ensures StepReadEarliest(s, tid, denied, s') ==> ReadsRow(s, s') && KeepsStatuses(s, s') && NoNewExecution(s, s')
    ensures StepReadEarliest(s, tid, denied, s') ==> TouchesOnly(s, s', Some(tid))
  {
    && At(s, tid) && s.tasks[tid].pc.SawTurn?
    && var e := s.tasks[tid].envelope;
       var pc := s.tasks[tid].pc;
       s' == GoOn(s, tid, Choose(e, pc.turn, pc.token, Blocked(s.turns, e.version, e.key), denied))
  }

  ghost predicate StepMarkUncertain(s: Slice, tid: TaskId, s': Slice)
    ensures StepMarkUncertain(s, tid, s') ==> ReadsRow(s, s') && NoNewExecution(s, s')
    ensures StepMarkUncertain(s, tid, s') ==> TouchesOnly(s, s', Some(tid))
  {
    && At(s, tid) && s.tasks[tid].pc.Interrupted?
    && s' == SetPc(SetTurnStatus(s, s.tasks[tid].envelope.key, Uncertain), tid, NoticeUncertain)
  }

  ghost predicate StepPostUncertain(s: Slice, tid: TaskId, o: PostOutcome, s': Slice)
    ensures StepPostUncertain(s, tid, o, s') ==> ReadsRow(s, s') && KeepsStatuses(s, s') && NoNewExecution(s, s')
    ensures StepPostUncertain(s, tid, o, s') ==> TouchesOnly(s, s', Some(tid))
  {
    && At(s, tid) && s.tasks[tid].pc.NoticeUncertain?
    && s' == Return(s, tid, if o.Accepted? || o.Gone? then AbortedOutcome else Deferred).(
               posts := s.posts + [UncertainNotice(s.tasks[tid].envelope.key)])
  }

  ghost predicate StepMarkAborted(s: Slice, tid: TaskId, s': Slice)
    ensures StepMarkAborted(s, tid, s') ==> ReadsRow(s, s') && NoNewExecution(s, s')
    ensures StepMarkAborted(s, tid, s') ==> TouchesOnly(s, s', Some(tid))
  {
    && At(s, tid) && s.tasks[tid].pc.Denied?
    && var k := s.tasks[tid].envelope.key;
       s' == SetPc(if k in s.turns && s.turns[k].status.Queued? then SetTurnStatus(s, k, Aborted) else s,
                   tid, NoticeDenied)
  }

  ghost predicate StepPostDenied(s: Slice, tid: TaskId, s': Slice)
    ensures StepPostDenied(s, tid, s') ==> ReadsRow(s, s') && KeepsStatuses(s, s') && NoNewExecution(s, s')
    ensures StepPostDenied(s, tid, s') ==> TouchesOnly(s, s', Some(tid))
  {
    && At(s, tid) && s.tasks[tid].pc.NoticeDenied?
    && s' == Return(s, tid, AbortedOutcome).(posts := s.posts + [DeniedNotice(s.tasks[tid].envelope.key)])
  }

  /** INSERT .. ON CONFLICT DO UPDATE SET status='executing' WHERE status='queued'. */
  function UpsertExecuting(turns: map<Key, Turn>, e: Envelope, nextSeq: nat): map<Key, Turn> {
    if e.key !in turns then turns[e.key := Turn(nextSeq, e.version, Executing, None)]
    else if turns[e.key].status.Queued? && turns[e.key].version == e.version
    then turns[e.key := turns[e.key].(status := Executing)]
    else turns
  }

  /** Admission: the session must still be live at the version read. The rowcount of the upsert
      is not looked at, so the tool runs whatever the upsert did. */
  ghost predicate StepAdmitTurn(s: Slice, tid: TaskId, s': Slice)
    ensures StepAdmitTurn(s, tid, s') ==> TouchesOnly(s, s', Some(tid))
  {
    && At(s, tid) && s.tasks[tid].pc.Admitting?
    && var e := s.tasks[tid].envelope;
       s' == if !LiveAt(s.row, e.version) then Return(s, tid, AbortedOutcome)
             else
               var turns := UpsertExecuting(s.turns, e, s.nextSeq);
               SetPc(WriteRow(s, Admit(e.version)).(
                       turns := turns,
                       nextSeq := if e.key in s.turns then s.nextSeq else s.nextSeq + 1,
                       log := s.log + [Exec(e.key, e.version, turns[e.key].seqno, e.text,
                                            s.tasks[tid].pc.token, None)]),
                     tid, InExecution)
  }

  /** The tool has returned: the result is stored and the session's token advanced. */
  ghost predicate StepComplete(s: Slice, tid: TaskId, reply: string, token: Option<Token>, s': Slice)
    ensures StepComplete(s, tid, reply, token, s') ==> NoNewExecution(s, s')
    ensures StepComplete(s, tid, reply, token, s') ==> TouchesOnly(s, s', Some(tid))
  {
    && At(s, tid) && s.tasks[tid].pc.InExecution? && |s.log| > 0
    && var e := s.tasks[tid].envelope;
       var n := |s.log| - 1;
       s' == SetPc(WriteRow(s, SaveToken(e.version, token)).(
                     turns := if e.key !in s.turns then s.turns
                              else s.turns[e.key := s.turns[e.key].(status := Completed, result := Some(reply))],
                     log := s.log[n := s.log[n].(result := Some(Result(reply, token)))]),
                   tid, Posting(Some(reply)))
  }

  ghost predicate StepPostReply(s: Slice, tid: TaskId, o: PostOutcome, s': Slice)
    ensures StepPostReply(s, tid, o, s') ==> ReadsRow(s, s') && KeepsStatuses(s, s') && NoNewExecution(s, s')
    ensures StepPostReply(s, tid, o, s') ==> TouchesOnly(s, s', Some(tid))
  {
    && At(s, tid) && s.tasks[tid].pc.Posting?
    && var posted := s.(posts := s.posts + [Reply(s.tasks[tid].envelope.key, s.tasks[tid].pc.reply)]);
       s' == GoOn(posted, tid, match o
                               case Accepted => Go(Marking(Delivered))
                               case Gone => Go(Marking(DeliveryFailed))
                               case Unprocessable => Go(Marking(DeliveryFailed))
                               case Transient => Back(Deferred))
  }

  ghost predicate StepMarkTurn(s: Slice, tid: TaskId, s': Slice)
    ensures StepMarkTurn(s, tid, s') ==> ReadsRow(s, s') && NoNewExecution(s, s')
    ensures StepMarkTurn(s, tid, s') ==> TouchesOnly(s, s', Some(tid))
  {
    && At(s, tid) && s.tasks[tid].pc.Marking?
    && var t := s.tasks[tid];
       s' == Return(SetTurnStatus(s, t.envelope.key, t.pc.status), tid,
                    if t.pc.status.Delivered? then DeliveredOutcome else AbortedOutcome)
  }

  ghost predicate StepAck(s: Slice, tid: TaskId, s': Slice)
    ensures StepAck(s, tid, s') ==> ReadsRow(s, s') && KeepsStatuses(s, s') && NoNewExecution(s, s')
    ensures StepAck(s, tid, s') ==> TouchesOnly(s, s', Some(tid))
  {
    && At(s, tid) && s.tasks[tid].pc.Returned?
    && var mid := s.tasks[tid].mid;
       s' == End(s, tid).(stream := if mid in s.stream then s.stream[mid := s.stream[mid].(delivery := Acked)]
                                    else s.stream)
  }

  // ---- The transition relation -----------------------------------------------------------

  ghost predicate Step(s: Slice, a: Action, s': Slice) {
    match a
    case Lifecycle(w) => Standalone(w) && s' == WriteRow(s, w)
    case BeginCreate(tid) => StepBegin(s, tid, Create, s')
    case EndCreate(tid, w) => StepEndCreate(s, tid, w, s')
    case BeginResume(tid, v, locked) => StepBeginResume(s, tid, v, locked, s')
    case ReadResuming(tid) => StepReadResuming(s, tid, s')
    case FailResume(tid, orphaned) => StepFailResume(s, tid, orphaned, s')
    case CommitResume(tid, minted) => StepCommitResume(s, tid, minted, s')
    case BeginRecover(tid) => StepBegin(s, tid, Recover(s.row.version), s')
    case FailRecover(tid, orphaned) => StepFailRecover(s, tid, orphaned, s')
    case Enqueue(key, seqno, rid, text) => StepEnqueue(s, key, seqno, rid, text, s')
    case Publish(rid, mid, committed) => StepPublish(s, rid, mid, committed, s')
    case Refuse(rid) => StepRefuse(s, rid, s')
    case SweepOutbox(rid) => StepSweepOutbox(s, rid, s')
    case Deliver(mid) => StepDeliver(s, mid, s')
    case TrimEntry(mid) => StepTrimEntry(s, mid, s')
    case SweepResult(k) => StepSweepResult(s, k, s')
    case Fetch(tid, mid) => StepFetch(s, tid, mid, s')
    case TryLock(tid) => StepTryLock(s, tid, s')
    case ReadRow(tid) => StepReadRow(s, tid, s')
    case ReadTurn(tid) => StepReadTurn(s, tid, s')
    case ReadEarliest(tid, denied) => StepReadEarliest(s, tid, denied, s')
    case MarkUncertain(tid) => StepMarkUncertain(s, tid, s')
    case PostUncertain(tid, o) => StepPostUncertain(s, tid, o, s')
    case MarkAborted(tid) => StepMarkAborted(s, tid, s')
    case PostDenied(tid) => StepPostDenied(s, tid, s')
    case AdmitTurn(tid) => StepAdmitTurn(s, tid, s')
    case Complete(tid, reply, token) => StepComplete(s, tid, reply, token, s')
    case PostReply(tid, o) => StepPostReply(s, tid, o, s')
    case MarkTurn(tid) => StepMarkTurn(s, tid, s')
    case Ack(tid) => StepAck(s, tid, s')
    case Crash(tid) => tid in s.tasks && s' == End(s, tid)
  }
}
