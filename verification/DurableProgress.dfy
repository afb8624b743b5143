/**
 When the durable protocol can go on: a live version can be worked off if and only if none of its turns is interrupted and
 the relay has given up none of them.
 */
module DurableProgress {
  import opened Options
  import opened Lifecycle
  import opened Durable
  import opened DurableInvariant
  import opened DurableSteps
  import opened DurableRuns
  import opened DurableEnvelopes
  import Relay
  import SessionStore

  /** The holder of the lock is a task that counts on it. */
  ghost predicate LockHeld(s: Slice) {
    s.lock.Some? ==> s.lock.value in s.tasks && HoldsLock(s.tasks[s.lock.value])
  }

  lemma EndKeepsLock(s: Slice, tid: TaskId)
    requires LockHeld(s)
    ensures LockHeld(End(s, tid))
  {}

  lemma WriterKeepsLock(s: Slice, a: Action, s': Slice)
    requires LockHeld(s) && Step(s, a, s')
    requires a.Lifecycle? || a.EndCreate? || a.FailResume? || a.CommitResume? || a.FailRecover? || a.Crash?
    ensures LockHeld(s')
  {
    hide NoNewExecution, KeepsStatuses, ReadsRow, TouchesOnly, WriteRow, End;
    match a
    case Lifecycle(_) =>
    case EndCreate(tid, w) => EndKeepsLock(WriteRow(s, w), tid);
    case FailResume(tid, orphaned) =>
      var v := s.tasks[tid].version;
      EndKeepsLock(WriteRow(s, if orphaned then ResumeOrphaned(v) else ResumeFailed(v)), tid);
    case CommitResume(tid, minted) =>
      EndKeepsLock(WriteRow(s, ResumeRunning(s.tasks[tid].version, Coalesce(s.tasks[tid].token, minted))), tid);
    case FailRecover(tid, orphaned) =>
      var v := s.tasks[tid].version;
      EndKeepsLock(WriteRow(s, if orphaned then RecoverOrphaned(v) else RecoverFailed(v)), tid);
    case Crash(tid) => EndKeepsLock(s, tid);
  }

  lemma BeginnerKeepsLock(s: Slice, a: Action, s': Slice)
    requires LockHeld(s) && Step(s, a, s')
    requires a.BeginCreate? || a.BeginResume? || a.ReadResuming? || a.BeginRecover? || a.Fetch?
    ensures LockHeld(s')
  {
    hide NoNewExecution, KeepsStatuses, ReadsRow, TouchesOnly, End;
    if a.ReadResuming? {
      EndKeepsLock(s, a.tid);
    }
  }

  lemma PlumbingKeepsLock(s: Slice, a: Action, s': Slice)
    requires LockHeld(s) && Step(s, a, s')
    requires a.Enqueue? || a.Publish? || a.Refuse? || a.SweepOutbox? || a.Deliver? || a.TrimEntry? || a.SweepResult?
    ensures LockHeld(s')
  {
    hide NoNewExecution, KeepsStatuses, ReadsRow, TouchesOnly, WriteRow, LockHeld;
    SameTasksKeepLock(s, s');
  }

  lemma SameTasksKeepLock(s: Slice, s': Slice)
    requires LockHeld(s) && s'.tasks == s.tasks && s'.lock == s.lock
    ensures LockHeld(s')
  {}

  lemma TryLockKeepsLock(s: Slice, a: Action, s': Slice)
    requires LockHeld(s) && Step(s, a, s') && a.TryLock?
    ensures LockHeld(s')
  {
    hide NoNewExecution, KeepsStatuses, ReadsRow, TouchesOnly, End;
    EndKeepsLock(s, a.tid);
  }

  lemma SetPcKeepsLock(s: Slice, tid: TaskId, pc: InputPc)
    requires LockHeld(s) && At(s, tid) && !pc.Fetched? && !pc.Returned?
    ensures LockHeld(SetPc(s, tid, pc))
  {}

  lemma ReturnKeepsLock(s: Slice, tid: TaskId, o: Outcome)
    requires LockHeld(s) && At(s, tid)
    ensures LockHeld(Return(s, tid, o))
  {}

  lemma ReadKeepsLock(s: Slice, a: Action, s': Slice)
    requires LockHeld(s) && Step(s, a, s') && (a.ReadRow? || a.ReadTurn?)
    ensures LockHeld(s')
  {
    hide NoNewExecution, KeepsStatuses, ReadsRow, TouchesOnly, SetPc, Return;
    var pc := s.tasks[a.tid].pc;
    ReturnKeepsLock(s, a.tid, AbortedOutcome);
    SetPcKeepsLock(s, a.tid, SawRow(s.row.token));
    if a.ReadTurn? {
      var k := s.tasks[a.tid].envelope.key;
      SetPcKeepsLock(s, a.tid, SawTurn(pc.token, if k in s.turns then Some(s.turns[k]) else None));
    }
  }

  lemma GoOnKeepsLock(s: Slice, tid: TaskId, c: Choice)
    requires LockHeld(s) && At(s, tid) && (c.Go? ==> !c.pc.Fetched? && !c.pc.Returned? && !c.pc.InExecution?)
    ensures LockHeld(GoOn(s, tid, c))
  {
    hide SetPc, Return, LockHeld;
    match c
    case Go(pc) => SetPcKeepsLock(s, tid, pc);
    case Back(o) => ReturnKeepsLock(s, tid, o);
  }

  lemma ChooseKeepsLock(s: Slice, a: Action, s': Slice)
    requires LockHeld(s) && Step(s, a, s') && (a.ReadEarliest? || a.PostReply?)
    ensures LockHeld(s')
  {
    hide NoNewExecution, KeepsStatuses, ReadsRow, TouchesOnly, Blocked, GoOn, Choose;
    var e, pc := s.tasks[a.tid].envelope, s.tasks[a.tid].pc;
    if a.ReadEarliest? {
      GoOnKeepsLock(s, a.tid, Choose(e, pc.turn, pc.token, Blocked(s.turns, e.version, e.key), a.denied));
    } else {
      var c := match a.post
               case Accepted => Go(Marking(Delivered))
               case Gone => Go(Marking(DeliveryFailed))
               case Unprocessable => Go(Marking(DeliveryFailed))
               case Transient => Back(Deferred);
      GoOnKeepsLock(s.(posts := s.posts + [Reply(e.key, pc.reply)]), a.tid, c);
    }
  }

  lemma MarkKeepsLock(s: Slice, a: Action, s': Slice)
    requires LockHeld(s) && Step(s, a, s') && (a.MarkUncertain? || a.MarkAborted? || a.MarkTurn?)
    ensures LockHeld(s')
  {
    hide NoNewExecution, KeepsStatuses, ReadsRow, TouchesOnly, SetPc, Return, LockHeld;
    var k := s.tasks[a.tid].envelope.key;
    var s1;
    if a.MarkUncertain? {
      s1 := SetTurnStatus(s, k, Uncertain);
      SameTasksKeepLock(s, s1);
      SetPcKeepsLock(s1, a.tid, NoticeUncertain);
    } else if a.MarkAborted? {
      s1 := if k in s.turns && s.turns[k].status.Queued? then SetTurnStatus(s, k, Aborted) else s;
      SameTasksKeepLock(s, s1);
      SetPcKeepsLock(s1, a.tid, NoticeDenied);
    } else {
      var status := s.tasks[a.tid].pc.status;
      s1 := SetTurnStatus(s, k, status);
      SameTasksKeepLock(s, s1);
      ReturnKeepsLock(s1, a.tid, if status.Delivered? then DeliveredOutcome else AbortedOutcome);
    }
  }

  lemma NoticeKeepsLock(s: Slice, a: Action, s': Slice)
    requires LockHeld(s) && Step(s, a, s') && (a.PostUncertain? || a.PostDenied? || a.Ack?)
    ensures LockHeld(s')
  {
    hide NoNewExecution, KeepsStatuses, ReadsRow, TouchesOnly, SetPc, Return, End;
    ReturnKeepsLock(s, a.tid, AbortedOutcome);
    ReturnKeepsLock(s, a.tid, Deferred);
    EndKeepsLock(s, a.tid);
  }

  lemma ExecuteKeepsLock(s: Slice, a: Action, s': Slice)
    requires LockHeld(s) && Step(s, a, s') && (a.AdmitTurn? || a.Complete?)
    ensures LockHeld(s')
  {
    hide NoNewExecution, KeepsStatuses, ReadsRow, TouchesOnly, WriteRow, UpsertExecuting, SetPc, Return;
    ReturnKeepsLock(s, a.tid, AbortedOutcome);
    var pc := if a.AdmitTurn? then InExecution else Posting(Some(a.reply));
    var s1 := s'.(tasks := s.tasks);
    if a.Complete? || LiveAt(s.row, s.tasks[a.tid].envelope.version) {
      SetPcKeepsLock(s1, a.tid, pc);
    }
  }

  lemma StepKeepsLock(s: Slice, a: Action, s': Slice)
    requires LockHeld(s) && Step(s, a, s')
    ensures LockHeld(s')
  {
    hide Step, LockHeld;
    match a
    case ReadRow(_) => ReadKeepsLock(s, a, s');
    case ReadTurn(_) => ReadKeepsLock(s, a, s');
    case ReadEarliest(_, _) => ChooseKeepsLock(s, a, s');
    case PostReply(_, _) => ChooseKeepsLock(s, a, s');
    case MarkUncertain(_) => MarkKeepsLock(s, a, s');
    case MarkAborted(_) => MarkKeepsLock(s, a, s');
    case MarkTurn(_) => MarkKeepsLock(s, a, s');
    case PostUncertain(_, _) => NoticeKeepsLock(s, a, s');
    case PostDenied(_) => NoticeKeepsLock(s, a, s');
    case Ack(_) => NoticeKeepsLock(s, a, s');
    case AdmitTurn(_) => ExecuteKeepsLock(s, a, s');
    case Complete(_, _, _) => ExecuteKeepsLock(s, a, s');
    case TryLock(_) => TryLockKeepsLock(s, a, s');
    case BeginCreate(_) => BeginnerKeepsLock(s, a, s');
    case BeginResume(_, _, _) => BeginnerKeepsLock(s, a, s');
    case ReadResuming(_) => BeginnerKeepsLock(s, a, s');
    case BeginRecover(_) => BeginnerKeepsLock(s, a, s');
    case Fetch(_, _) => BeginnerKeepsLock(s, a, s');
    case Lifecycle(_) => WriterKeepsLock(s, a, s');
    case EndCreate(_, _) => WriterKeepsLock(s, a, s');
    case FailResume(_, _) => WriterKeepsLock(s, a, s');
    case CommitResume(_, _) => WriterKeepsLock(s, a, s');
    case FailRecover(_, _) => WriterKeepsLock(s, a, s');
    case Crash(_) => WriterKeepsLock(s, a, s');
    case _ => PlumbingKeepsLock(s, a, s');
  }

  lemma {:induction false} RunKeepsLock(ss: seq<Slice>, acts: seq<Option<Action>>, i: nat)
    requires Run(ss, acts) && i < |ss|
    ensures LockHeld(ss[i])
  {
    hide Step;
    if i > 0 {
      RunKeepsLock(ss, acts, i - 1);
      assert Next(ss[i - 1], acts[i - 1], ss[i]);
      if acts[i - 1].Some? {
        StepKeepsLock(ss[i - 1], acts[i - 1].value, ss[i]);
      }
    }
  }

  // ---- What progress means ------------------------------------------------------------------------

  /** No turn of version `v` was interrupted. */
  ghost predicate Uninterrupted(s: Slice, v: nat) {
    forall k :: k in s.turns && s.turns[k].version == v ==> !IsInterrupted(s, k)
  }

  /** Nobody works on the session, and its turns of version `v` are retired, queued or completed. */
  ghost predicate Calm(s: Slice, v: nat) {
    && Inv(s) && LiveAt(s.row, v) && s.lock.None?
    && forall k :: k in s.turns && s.turns[k].version == v ==>
                     Terminal(s.turns[k].status) || s.turns[k].status.Queued? || s.turns[k].status.Completed?
  }

  /** Turns stay, retired ones as they are. A queued one of version `v` stays too or is delivered, with the reply that
      `tool` gives for it; another open one stays open or is delivered. */
  ghost predicate Advances(s: Slice, s': Slice, v: nat, tool: Key -> string) {
    && s'.turns.Keys == s.turns.Keys
    && forall k :: k in s.turns ==> TurnAdvances(s.turns[k], s'.turns[k], v, tool(k))
  }

  predicate TurnAdvances(t: Turn, t': Turn, v: nat, reply: string) {
    && t'.version == t.version
    && (Terminal(t.status) ==> t' == t)
    && (t.version == v && t.status.Queued? ==> t' == t || (t'.status.Delivered? && t'.result == Some(reply)))
    && (t.version == v && !t.status.Queued? && !Terminal(t.status) ==>
          t'.status.Delivered? || (!t'.status.Queued? && !Terminal(t'.status)))
  }

  lemma AdvancesOn(s: Slice, m: Slice, s': Slice, v: nat, tool: Key -> string)
    requires Advances(s, m, v, tool) && Advances(m, s', v, tool)
    ensures Advances(s, s', v, tool)
  {
    forall k | k in s.turns ensures TurnAdvances(s.turns[k], s'.turns[k], v, tool(k)) {
      assert k in m.turns.Keys;
    }
  }

  ghost function OpenTurns(s: Slice, v: nat): set<Key> {
    set k | k in s.turns && s.turns[k].version == v && !Terminal(s.turns[k].status)
  }

  /** Every open turn of version `v` can still be brought to a consumer. */
  ghost predicate AllDeliverable(s: Slice, v: nat) {
    forall k :: k in OpenTurns(s, v) ==> Deliverable(s, k)
  }

  // ---- Whoever holds the lock lets go of it --------------------------------------------------------

  lemma OnlyTheHolderExecutes(s: Slice, t: TaskId)
    requires Inv(s) && ExecutingNow(s, t)
    ensures s.lock == Some(t)
  {
    hide Inv;
    TaskFact(s, t);
  }

  /** A holder that is not executing can be lost without harm: what it was doing is taken up again. */
  lemma HolderIsLost(s: Slice, v: nat) returns (s': Slice)
    requires Inv(s) && LockHeld(s) && LiveAt(s.row, v) && Uninterrupted(s, v)
    requires s.lock.None? || !ExecutingNow(s, s.lock.value)
    ensures SessionStore.Reaches(s, s', None) && Calm(s', v) && s'.turns == s.turns && s'.outbox == s.outbox && s'.stream == s.stream
  {
    hide Inv, Step;
    s' := s;
    SessionStore.ReachesSelf(s, None);
    if s.lock.Some? {
      var tid := s.lock.value;
      s' := End(s, tid);
      CrashStep(s, tid);
      SessionStore.ThenStep(s, s, Crash(tid), s');
      StepKeepsInv(s, Crash(tid), s');
    }
    NobodyExecutes(s);
    forall k | k in s.turns && s.turns[k].version == v
      ensures Terminal(s.turns[k].status) || s.turns[k].status.Queued? || s.turns[k].status.Completed?
    {
      assert !IsInterrupted(s, k);
    }
  }

  lemma NobodyExecutes(s: Slice)
    requires Inv(s) && (s.lock.None? || !ExecutingNow(s, s.lock.value))
    ensures forall t :: !ExecutingNow(s, t)
  {
    hide Inv;
    if t :| ExecutingNow(s, t) {
      OnlyTheHolderExecutes(s, t);
    }
  }

  lemma CrashStep(s: Slice, tid: TaskId)
    requires tid in s.tasks
    ensures Step(s, Crash(tid), End(s, tid))
  {
    hide End;
  }

  /** A holder that is executing can complete. */
  lemma HolderCompletes(s: Slice, tid: TaskId, v: nat, tool: Key -> string) returns (s': Slice, reply: string)
    requires Inv(s) && LiveAt(s.row, v) && Uninterrupted(s, v) && ExecutingNow(s, tid)
    ensures Step(s, Complete(tid, reply, None), s') && Inv(s') && LiveAt(s'.row, v) && Uninterrupted(s', v)
    ensures Advances(s, s', v, tool) && s'.outbox == s.outbox && s'.stream == s.stream
    ensures !ExecutingNow(s', tid) && s'.lock == Some(tid) && At(s', tid) && s'.tasks[tid].pc.Posting?
  {
    hide Inv, Step, Uninterrupted;
    TaskFact(s, tid);
    OnlyTheHolderExecutes(s, tid);
    var e, n := s.tasks[tid].envelope, |s.log| - 1;
    reply := tool(e.key);
    s' := s.(turns := s.turns[e.key := s.turns[e.key].(status := Completed, result := Some(reply))],
             log := s.log[n := s.log[n].(result := Some(Result(reply, None)))],
             tasks := s.tasks[tid := s.tasks[tid].(pc := Posting(Some(reply)))]);
    SessionStore.CompleteIsStep(s, tid, e, reply, None, s');
    StepKeepsInv(s, Complete(tid, reply, None), s');
    CompletedIsUninterrupted(s, tid, s', v);
  }

  lemma CompletedIsUninterrupted(s: Slice, tid: TaskId, s': Slice, v: nat)
    requires Inv(s) && Uninterrupted(s, v) && ExecutingNow(s, tid) && s.tasks[tid].envelope.key in s.turns
    requires var k := s.tasks[tid].envelope.key;
             k in s'.turns && s'.turns == s.turns[k := s.turns[k].(status := Completed, result := s'.turns[k].result)]
    ensures Uninterrupted(s', v)
  {
    hide Inv;
    forall t | ExecutingNow(s, t) ensures t == tid {
      OnlyTheHolderExecutes(s, t);
      OnlyTheHolderExecutes(s, tid);
    }
    forall k | k in s'.turns && s'.turns[k].version == v ensures !IsInterrupted(s', k) {
      assert !IsInterrupted(s, k);
    }
  }

  lemma LockIsFreed(s: Slice, v: nat, tool: Key -> string) returns (s': Slice)
    requires Inv(s) && LockHeld(s) && LiveAt(s.row, v) && Uninterrupted(s, v)
    ensures SessionStore.Reaches(s, s', None) && Calm(s', v) && Advances(s, s', v, tool)
    ensures s'.outbox == s.outbox && s'.stream == s.stream
  {
    hide Inv, Step, Calm;
    if s.lock.Some? && ExecutingNow(s, s.lock.value) {
      var tid := s.lock.value;
      var m, reply := HolderCompletes(s, tid, v, tool);
      SessionStore.StepReaches(s, Complete(tid, reply, None), m);
      s' := HolderIsLost(m, v);
      SessionStore.ReachesTransitive(s, m, s', None);
    } else {
      s' := HolderIsLost(s, v);
    }
  }

  // ---- The earliest turn is delivered ----------------------------------------------------------------

  /** Only the outbox and the stream have changed. */
  ghost predicate SameButStream(s: Slice, s': Slice) {
    s' == s.(outbox := s'.outbox, stream := s'.stream, lastId := s'.lastId)
  }

  ghost predicate AtConsumer(s: Slice, mid: MsgId, k: Key) {
    mid in s.stream && s.stream[mid].delivery.Pending? && k in s.sent && s.stream[mid].envelope == s.sent[k]
  }

  /** The deliverable turns other than `k` stay deliverable. */
  ghost predicate OthersDeliverable(s: Slice, s': Slice, k: Key) {
    forall k' :: k' != k && Deliverable(s, k') ==> Deliverable(s', k')
  }

  /** A deliverable turn can be brought to a consumer. */
  lemma EnvelopeArrives(s: Slice, k: Key) returns (s': Slice, mid: MsgId)
    requires Inv(s) && k in s.turns && Deliverable(s, k)
    ensures SessionStore.Reaches(s, s', None) && SameButStream(s, s') && AtConsumer(s', mid, k) && OthersDeliverable(s, s', k)
  {
    hide Inv, Step, Deliverable, OthersDeliverable;
    KnownFact(s, k);
    s', mid := IsPublished(s, k);
    if s'.stream[mid].delivery.Unread? {
      var m := s';
      s' := m.(stream := m.stream[mid := m.stream[mid].(delivery := Pending)]);
      DeliverStep(m, mid, s');
      SessionStore.ThenStep(s, m, Deliver(mid), s');
      OthersStayDeliverable(m, s', k, mid);
      OthersOn(s, m, s', k);
    }
  }

  lemma IsPublished(s: Slice, k: Key) returns (s': Slice, mid: MsgId)
    requires Inv(s) && k in s.turns && Deliverable(s, k)
    ensures SessionStore.Reaches(s, s', None) && SameButStream(s, s') && OthersDeliverable(s, s', k)
    ensures mid in s'.stream && !s'.stream[mid].delivery.Acked? && k in s.sent && s'.stream[mid].envelope == s.sent[k]
  {
    hide Inv, Step;
    SessionStore.ReachesSelf(s, None);
    KnownFact(s, k);
    s' := s;
    if m :| m in s.stream && !s.stream[m].delivery.Acked? && s.stream[m].envelope.key == k {
      mid := m;
    } else {
      var rid :| rid in s.outbox && Attempted(s.outbox[rid]) && s.outbox[rid].envelope.key == k;
      mid := s.lastId + 1;
      s' := s.(stream := s.stream[mid := Entry(s.outbox[rid].envelope, Unread)], lastId := mid,
               outbox := s.outbox[rid := s.outbox[rid].(published := true)]);
      PublishStep(s, rid, mid, s');
      SessionStore.ThenStep(s, s, Publish(rid, mid, true), s');
      OthersSurvivePublication(s, s', k, rid, mid);
    }
  }

  lemma KnownFact(s: Slice, k: Key)
    requires Inv(s) && k in s.turns
    ensures k in s.sent && s.sent[k].key == k && s.sent[k].version == s.turns[k].version && s.sent[k].host == s.row.host
    ensures forall r :: r in s.outbox && s.outbox[r].envelope.key == k ==> s.outbox[r].envelope == s.sent[k]
    ensures forall m :: m in s.stream ==> m <= s.lastId && (s.stream[m].envelope.key == k ==> s.stream[m].envelope == s.sent[k])
  {
    hide Ledger, Logged, Chained, TasksOk, PostsOk, NotLost;
  }

  lemma OthersSurvivePublication(s: Slice, s': Slice, k: Key, rid: RowId, mid: MsgId)
    requires rid in s.outbox && s.outbox[rid].envelope.key == k && mid !in s.stream
    requires s'.stream == s.stream[mid := Entry(s.outbox[rid].envelope, Unread)]
    requires s'.outbox == s.outbox[rid := s.outbox[rid].(published := true)]
    ensures OthersDeliverable(s, s', k)
  {
    forall k' | k' != k && Deliverable(s, k') ensures Deliverable(s', k') {
      if Unacked(s.stream, k') {
        var m :| m in s.stream && !s.stream[m].delivery.Acked? && s.stream[m].envelope.key == k';
        assert s'.stream[m] == s.stream[m];
      } else {
        var r :| r in s.outbox && Attempted(s.outbox[r]) && s.outbox[r].envelope.key == k';
        assert s'.outbox[r] == s.outbox[r];
      }
    }
  }

  /** Whatever becomes of an entry of `k`. */
  lemma OthersStayDeliverable(s: Slice, s': Slice, k: Key, mid: MsgId)
    requires mid in s.stream && s.stream[mid].envelope.key == k && s'.outbox == s.outbox
    requires mid in s'.stream && s'.stream == s.stream[mid := s'.stream[mid]]
    ensures OthersDeliverable(s, s', k)
  {
    forall k' | k' != k && Deliverable(s, k') ensures Deliverable(s', k') {
      if Unacked(s.stream, k') {
        var m :| m in s.stream && !s.stream[m].delivery.Acked? && s.stream[m].envelope.key == k';
        assert s'.stream[m] == s.stream[m];
      }
    }
  }

  lemma OthersOn(s: Slice, m: Slice, s': Slice, k: Key)
    requires OthersDeliverable(s, m, k) && OthersDeliverable(m, s', k)
    ensures OthersDeliverable(s, s', k)
  {}

  lemma PublishStep(s: Slice, rid: RowId, mid: MsgId, s': Slice)
    requires rid in s.outbox && Attempted(s.outbox[rid]) && s.lastId < mid
    requires s' == s.(stream := s.stream[mid := Entry(s.outbox[rid].envelope, Unread)], lastId := mid,
                      outbox := s.outbox[rid := s.outbox[rid].(published := true)])
    ensures Step(s, Publish(rid, mid, true), s')
  {
    hide NoNewExecution, KeepsStatuses, ReadsRow, TouchesOnly;
  }

  lemma DeliverStep(s: Slice, mid: MsgId, s': Slice)
    requires mid in s.stream && s.stream[mid].delivery.Unread?
    requires s' == s.(stream := s.stream[mid := s.stream[mid].(delivery := Pending)])
    ensures Step(s, Deliver(mid), s')
  {
    hide NoNewExecution, KeepsStatuses, ReadsRow, TouchesOnly;
  }

  /** A handler of the message holds the lock, at `pc`. */
  function Handling(s: Slice, tid: TaskId, mid: MsgId, e: Envelope, pc: InputPc): Slice {
    s.(tasks := s.tasks[tid := Input(mid, e, pc)], lock := Some(tid))
  }

  lemma MovesOn(s: Slice, tid: TaskId, mid: MsgId, e: Envelope, pc: InputPc, pc': InputPc)
    ensures At(Handling(s, tid, mid, e, pc), tid)
    ensures SetPc(Handling(s, tid, mid, e, pc), tid, pc') == Handling(s, tid, mid, e, pc')
  {
    assert s.tasks[tid := Input(mid, e, pc)][tid := Input(mid, e, pc')] == s.tasks[tid := Input(mid, e, pc')];
  }

  lemma TakesTheLock(s: Slice, tid: TaskId, mid: MsgId) returns (s': Slice)
    requires mid in s.stream && !s.stream[mid].delivery.Unread? && s.lock.None? && tid !in s.tasks
    ensures SessionStore.Reaches(s, s', None) && s' == Handling(s, tid, mid, s.stream[mid].envelope, Locked)
  {
    hide NoNewExecution, KeepsStatuses, ReadsRow, TouchesOnly;
    var e := s.stream[mid].envelope;
    var m := SetTask(s, tid, Input(mid, e, Fetched));
    s' := Handling(s, tid, mid, e, Locked);
    assert m.tasks[tid := Input(mid, e, Locked)] == s.tasks[tid := Input(mid, e, Locked)];
    assert Step(s, Fetch(tid, mid), m) && Step(m, TryLock(tid), s');
    SessionStore.StepReaches(s, Fetch(tid, mid), m);
    SessionStore.ThenStep(s, m, TryLock(tid), s');
  }

  /** The three reads of a live session's earliest turn. */
  lemma ReadsOn(s: Slice, tid: TaskId, mid: MsgId, e: Envelope)
    requires LiveAt(s.row, e.version) && s.row.host == e.host && e.key in s.turns && s.turns[e.key].version == e.version
    requires !Blocked(s.turns, e.version, e.key)
    ensures var t, turn := s.row.token, s.turns[e.key];
            && Step(Handling(s, tid, mid, e, Locked), ReadRow(tid), Handling(s, tid, mid, e, SawRow(t)))
            && Step(Handling(s, tid, mid, e, SawRow(t)), ReadTurn(tid), Handling(s, tid, mid, e, SawTurn(t, Some(turn))))
  {
    hide NoNewExecution, KeepsStatuses, ReadsRow, TouchesOnly, SetPc, Return;
    var t, turn := s.row.token, s.turns[e.key];
    MovesOn(s, tid, mid, e, Locked, SawRow(t));
    MovesOn(s, tid, mid, e, SawRow(t), SawTurn(t, Some(turn)));
  }

  lemma PassesTheFifoCheck(s: Slice, tid: TaskId, mid: MsgId, e: Envelope)
    requires e.key in s.turns && s.turns[e.key].version == e.version && !Blocked(s.turns, e.version, e.key)
    requires s.turns[e.key].status.Queued? || s.turns[e.key].status.Completed?
    ensures var t, turn := s.row.token, s.turns[e.key];
            Step(Handling(s, tid, mid, e, SawTurn(t, Some(turn))), ReadEarliest(tid, false),
                 Handling(s, tid, mid, e, if turn.status.Queued? then Admitting(t) else Posting(turn.result)))
  {
    hide NoNewExecution, KeepsStatuses, ReadsRow, TouchesOnly, SetPc, Return;
    var t, turn := s.row.token, s.turns[e.key];
    MovesOn(s, tid, mid, e, SawTurn(t, Some(turn)), if turn.status.Queued? then Admitting(t) else Posting(turn.result));
  }

  /** The session after the turn's execution has been admitted, with its outcome if there is one. */
  function Executed(s: Slice, e: Envelope, result: Option<Result>): Slice
    requires e.key in s.turns
  {
    var turn := s.turns[e.key];
    s.(row := s.row.(status := Running),
       turns := s.turns[e.key := if result.None? then turn.(status := Executing)
                                 else turn.(status := Completed, result := Some(result.value.reply))],
       log := s.log + [Exec(e.key, e.version, turn.seqno, e.text, s.row.token, result)])
  }

  lemma IsAdmitted(s: Slice, tid: TaskId, mid: MsgId, e: Envelope)
    requires LiveAt(s.row, e.version) && e.key in s.turns && s.turns[e.key].version == e.version && s.turns[e.key].status.Queued?
    ensures Step(Handling(s, tid, mid, e, Admitting(s.row.token)), AdmitTurn(tid),
                 Handling(Executed(s, e, None), tid, mid, e, InExecution))
  {
    hide NoNewExecution, KeepsStatuses, ReadsRow, TouchesOnly;
    var h := Handling(s, tid, mid, e, Admitting(s.row.token));
    MovesOn(s, tid, mid, e, Admitting(s.row.token), InExecution);
    SessionStore.AdmitIsStep(h, tid, e, s.row.token, Handling(Executed(s, e, None), tid, mid, e, InExecution));
  }

  lemma Completes(s: Slice, tid: TaskId, mid: MsgId, e: Envelope, r: Result)
    requires LiveAt(s.row, e.version) && e.key in s.turns && r.token.None?
    ensures Step(Handling(Executed(s, e, None), tid, mid, e, InExecution), Complete(tid, r.reply, None),
                 Handling(Executed(s, e, Some(r)), tid, mid, e, Posting(Some(r.reply))))
  {
    hide NoNewExecution, KeepsStatuses, ReadsRow, TouchesOnly;
    var h, h' := Handling(Executed(s, e, None), tid, mid, e, InExecution), Handling(Executed(s, e, Some(r)), tid, mid, e, Posting(Some(r.reply)));
    MovesOn(s, tid, mid, e, InExecution, Posting(Some(r.reply)));
    assert h.log[|s.log| := h.log[|s.log|].(result := Some(r))] == h'.log;
    assert h.turns[e.key := h.turns[e.key].(status := Completed, result := Some(r.reply))] == h'.turns;
    SessionStore.CompleteIsStep(h, tid, e, r.reply, None, h');
  }

  /** Posted, marked and acknowledged. */
  function Retired(s: Slice, mid: MsgId, k: Key, reply: Option<string>): Slice
    requires k in s.turns && mid in s.stream
  {
    s.(turns := s.turns[k := s.turns[k].(status := Delivered)], posts := s.posts + [Reply(k, reply)],
       stream := s.stream[mid := s.stream[mid].(delivery := Acked)])
  }

  lemma IsRetired(s: Slice, tid: TaskId, mid: MsgId, e: Envelope, reply: Option<string>)
    requires e.key in s.turns && mid in s.stream && tid !in s.tasks && s.lock.None?
    ensures SessionStore.Reaches(Handling(s, tid, mid, e, Posting(reply)), Retired(s, mid, e.key, reply), None)
  {
    hide Step;
    var h := Handling(s, tid, mid, e, Posting(reply));
    var s1 := s.(posts := s.posts + [Reply(e.key, reply)]);
    var h1 := Handling(s1, tid, mid, e, Marking(Delivered));
    var s2 := s1.(turns := s.turns[e.key := s.turns[e.key].(status := Delivered)]);
    var h2 := s2.(tasks := s.tasks[tid := Input(mid, e, Returned)]);
    PostStep(s, tid, mid, e, reply);
    MarkStep(s1, tid, mid, e);
    AckStep(s2, tid, mid, e);
    SessionStore.StepReaches(h, PostReply(tid, Accepted), h1);
    SessionStore.ThenStep(h, h1, MarkTurn(tid), h2);
    SessionStore.ThenStep(h, h2, Ack(tid), Retired(s, mid, e.key, reply));
  }

  lemma PostStep(s: Slice, tid: TaskId, mid: MsgId, e: Envelope, reply: Option<string>)
    ensures Step(Handling(s, tid, mid, e, Posting(reply)), PostReply(tid, Accepted),
                 Handling(s.(posts := s.posts + [Reply(e.key, reply)]), tid, mid, e, Marking(Delivered)))
  {
    hide NoNewExecution, KeepsStatuses, ReadsRow, TouchesOnly, SetPc, Return;
    MovesOn(s.(posts := s.posts + [Reply(e.key, reply)]), tid, mid, e, Posting(reply), Marking(Delivered));
  }

  lemma MarkStep(s: Slice, tid: TaskId, mid: MsgId, e: Envelope)
    requires e.key in s.turns && s.lock.None?
    ensures Step(Handling(s, tid, mid, e, Marking(Delivered)), MarkTurn(tid),
                 s.(turns := s.turns[e.key := s.turns[e.key].(status := Delivered)], tasks := s.tasks[tid := Input(mid, e, Returned)]))
  {
    hide NoNewExecution, KeepsStatuses, ReadsRow, TouchesOnly;
    var h := Handling(s, tid, mid, e, Marking(Delivered));
    assert h.tasks[tid := Input(mid, e, Returned)] == s.tasks[tid := Input(mid, e, Returned)];
  }

  lemma AckStep(s: Slice, tid: TaskId, mid: MsgId, e: Envelope)
    requires mid in s.stream && tid !in s.tasks && s.lock.None?
    ensures Step(s.(tasks := s.tasks[tid := Input(mid, e, Returned)]), Ack(tid),
                 s.(stream := s.stream[mid := s.stream[mid].(delivery := Acked)]))
  {
    hide NoNewExecution, KeepsStatuses, ReadsRow, TouchesOnly;
    assert s.tasks[tid := Input(mid, e, Returned)] - {tid} == s.tasks;
  }

  lemma {:induction false} UnusedTask(tids: set<TaskId>) returns (bound: TaskId)
    ensures forall t :: t in tids ==> t < bound
  {
    bound := 0;
    if tids != {} {
      var t :| t in tids;
      var rest := UnusedTask(tids - {t});
      assert forall u :: u in tids ==> u == t || u in tids - {t};
      bound := if rest <= t then t + 1 else rest;
    }
  }

  /** From the reads to the reply, through an execution if there was none. */
  lemma ReachesItsReply(s: Slice, tid: TaskId, mid: MsgId, e: Envelope, text: string) returns (m: Slice, reply: Option<string>)
    requires LiveAt(s.row, e.version) && s.row.host == e.host && e.key in s.turns && s.turns[e.key].version == e.version
    requires !Blocked(s.turns, e.version, e.key) && (s.turns[e.key].status.Queued? || s.turns[e.key].status.Completed?)
    ensures SessionStore.Reaches(Handling(s, tid, mid, e, Locked), Handling(m, tid, mid, e, Posting(reply)), None)
    ensures m == if s.turns[e.key].status.Queued? then Executed(s, e, Some(Result(text, None))) else s
  {
    hide Step, Blocked, Executed, Handling;
    var h := Handling(s, tid, mid, e, Locked);
    var t, turn := s.row.token, s.turns[e.key];
    var h1, h2 := Handling(s, tid, mid, e, SawRow(t)), Handling(s, tid, mid, e, SawTurn(t, Some(turn)));
    ReadsOn(s, tid, mid, e);
    PassesTheFifoCheck(s, tid, mid, e);
    SessionStore.StepReaches(h, ReadRow(tid), h1);
    SessionStore.ThenStep(h, h1, ReadTurn(tid), h2);
    if turn.status.Queued? {
      var r := Result(text, None);
      var h3 := Handling(s, tid, mid, e, Admitting(t));
      var h4 := Handling(Executed(s, e, None), tid, mid, e, InExecution);
      m, reply := Executed(s, e, Some(r)), Some(text);
      IsAdmitted(s, tid, mid, e);
      Completes(s, tid, mid, e, r);
      SessionStore.ThenStep(h, h2, ReadEarliest(tid, false), h3);
      SessionStore.ThenStep(h, h3, AdmitTurn(tid), h4);
      SessionStore.ThenStep(h, h4, Complete(tid, text, None), Handling(m, tid, mid, e, Posting(reply)));
    } else {
      m, reply := s, turn.result;
      SessionStore.ThenStep(h, h2, ReadEarliest(tid, false), Handling(m, tid, mid, e, Posting(reply)));
    }
  }

  /** A message at a consumer is worked off; if the tool runs, it replies `text`. */
  lemma IsWorkedOff(s: Slice, mid: MsgId, e: Envelope, text: string) returns (s': Slice)
    requires LiveAt(s.row, e.version) && s.row.host == e.host && e.key in s.turns && s.turns[e.key].version == e.version
    requires !Blocked(s.turns, e.version, e.key) && (s.turns[e.key].status.Queued? || s.turns[e.key].status.Completed?)
    requires mid in s.stream && s.stream[mid] == Entry(e, Pending) && s.lock.None?
    ensures SessionStore.Reaches(s, s', None) && LiveAt(s'.row, e.version) && s'.lock.None? && e.key in s'.turns
    ensures s'.turns == s.turns[e.key := s'.turns[e.key]] && s'.outbox == s.outbox
    ensures s'.stream == s.stream[mid := Entry(e, Acked)]
    ensures s'.turns[e.key].status.Delivered? && s'.turns[e.key].version == e.version
    ensures s.turns[e.key].status.Queued? ==> s'.turns[e.key].result == Some(text)
  {
    hide Step, Blocked, Handling;
    var tid := UnusedTask(s.tasks.Keys);
    assert tid !in s.tasks.Keys;
    var h := TakesTheLock(s, tid, mid);
    var m, reply := ReachesItsReply(s, tid, mid, e, text);
    SessionStore.ReachesTransitive(s, h, Handling(m, tid, mid, e, Posting(reply)), None);
    s' := Retired(m, mid, e.key, reply);
    IsRetired(m, tid, mid, e, reply);
    SessionStore.ReachesTransitive(s, Handling(m, tid, mid, e, Posting(reply)), s', None);
  }

  lemma {:induction false} PathKeepsInv(ss: seq<Slice>, acts: seq<Action>, n: nat)
    requires SessionStore.Path(ss, acts, None) && n < |ss| && Inv(ss[0])
    ensures Inv(ss[n])
  {
    hide Step, Inv;
    if n > 0 {
      PathKeepsInv(ss, acts, n - 1);
      StepKeepsInv(ss[n - 1], acts[n - 1], ss[n]);
    }
  }

  lemma ReachesKeepsInv(s: Slice, s': Slice)
    requires Inv(s) && SessionStore.Reaches(s, s', None)
    ensures Inv(s')
  {
    hide Step, Inv;
    var ss, acts :| SessionStore.Path(ss, acts, None) && ss[0] == s && ss[|acts|] == s';
    PathKeepsInv(ss, acts, |acts|);
  }

  /** The earliest open turn is delivered, nothing else changes in the ledger, and the other turns stay deliverable. */
  lemma EarliestIsDelivered(s: Slice, v: nat, k: Key, tool: Key -> string) returns (s': Slice)
    requires Calm(s, v) && IsEarliest(s.turns, v, k) && AllDeliverable(s, v)
    ensures SessionStore.Reaches(s, s', None) && Calm(s', v) && Advances(s, s', v, tool) && AllDeliverable(s', v)
    ensures OpenTurns(s', v) == OpenTurns(s, v) - {k}
  {
    hide Inv, Step, IsEarliest, Blocked, Deliverable;
    EarliestFact(s.turns, v, k);
    SessionStore.EarliestIsUnique(s, v, k, k);
    KnownFact(s, k);
    var m, mid := EnvelopeArrives(s, k);
    s' := IsWorkedOff(m, mid, s.sent[k], tool(k));
    SessionStore.ReachesTransitive(s, m, s', None);
    ReachesKeepsInv(s, s');
    OthersStayDeliverable(m, s', k, mid);
    OthersOn(s, m, s', k);
  }

  lemma EarliestFact(turns: map<Key, Turn>, v: nat, k: Key)
    requires IsEarliest(turns, v, k)
    ensures k in turns && turns[k].version == v && !Terminal(turns[k].status)
  {}

  lemma {:induction false} AllAreDelivered(s: Slice, v: nat, tool: Key -> string) returns (s': Slice)
    requires Calm(s, v) && AllDeliverable(s, v)
    ensures SessionStore.Reaches(s, s', None) && Calm(s', v) && Advances(s, s', v, tool) && OpenTurns(s', v) == {}
    decreases |OpenTurns(s, v)|
  {
    hide Step, Calm, SessionStore.Reaches, AllDeliverable, Advances;
    if OpenTurns(s, v) == {} {
      s' := s;
      SessionStore.ReachesSelf(s, None);
      AdvancesNot(s, v, tool);
    } else {
      var k0 :| k0 in OpenTurns(s, v);
      var k := EarliestExists(s.turns, v, s.turns.Keys, k0);
      var m := EarliestIsDelivered(s, v, k, tool);
      assert k in OpenTurns(s, v);
      s' := AllAreDelivered(m, v, tool);
      SessionStore.ReachesTransitive(s, m, s', None);
      AdvancesOn(s, m, s', v, tool);
    }
  }

  lemma AdvancesNot(s: Slice, v: nat, tool: Key -> string)
    ensures Advances(s, s, v, tool)
  {}

  /** In every run, whenever a session is live at `v`, no turn of `v` is interrupted and each open one is deliverable, some
      continuation delivers every turn of `v` that is not yet retired and leaves the others as they are; each turn still
      queued is executed and has the reply that `tool` gives for it. */
  lemma EveryTurnCanBeDelivered(ss: seq<Slice>, acts: seq<Option<Action>>, i: nat, v: nat, tool: Key -> string)
      returns (s': Slice)
    requires Run(ss, acts) && i < |ss| && LiveAt(ss[i].row, v) && Uninterrupted(ss[i], v) && AllDeliverable(ss[i], v)
    ensures SessionStore.Reaches(ss[i], s', None) && LiveAt(s'.row, v) && s'.turns.Keys == ss[i].turns.Keys
    ensures OpenTurns(s', v) == {}
    ensures forall k :: k in ss[i].turns && ss[i].turns[k].version == v ==>
              if Terminal(ss[i].turns[k].status) then s'.turns[k] == ss[i].turns[k]
              else s'.turns[k].status.Delivered? && (ss[i].turns[k].status.Queued? ==> s'.turns[k].result == Some(tool(k)))
  {
    hide Step, Inv, Deliverable;
    RunKeepsInv(ss, acts, i);
    RunKeepsLock(ss, acts, i);
    var m := LockIsFreed(ss[i], v, tool);
    StillDeliverable(ss[i], m, v, tool);
    s' := AllAreDelivered(m, v, tool);
    SessionStore.ReachesTransitive(ss[i], m, s', None);
    AdvancesOn(ss[i], m, s', v, tool);
    forall k | k in ss[i].turns && ss[i].turns[k].version == v
      ensures if Terminal(ss[i].turns[k].status) then s'.turns[k] == ss[i].turns[k]
              else s'.turns[k].status.Delivered? && (ss[i].turns[k].status.Queued? ==> s'.turns[k].result == Some(tool(k)))
    {
      assert k in s'.turns.Keys && k !in OpenTurns(s', v);
    }
  }

  lemma StillDeliverable(s: Slice, s': Slice, v: nat, tool: Key -> string)
    requires AllDeliverable(s, v) && Advances(s, s', v, tool) && s'.outbox == s.outbox && s'.stream == s.stream
    ensures AllDeliverable(s', v)
  {
    forall k | k in OpenTurns(s', v) ensures Deliverable(s', k) {
      assert k in s.turns.Keys && k in OpenTurns(s, v);
    }
  }

  // ---- And only then ---------------------------------------------------------------------------------

  lemma {:induction false} PathStaysInterrupted(ss: seq<Slice>, acts: seq<Action>, n: nat, k: Key)
    requires SessionStore.Path(ss, acts, None) && n < |ss| && Inv(ss[0]) && IsInterrupted(ss[0], k)
    ensures Inv(ss[n]) && IsInterrupted(ss[n], k) && ss[n].turns[k].version == ss[0].turns[k].version
  {
    hide Step, Inv;
    if n > 0 {
      PathStaysInterrupted(ss, acts, n - 1, k);
      StepKeepsInv(ss[n - 1], acts[n - 1], ss[n]);
      StepStaysInterrupted(ss[n - 1], acts[n - 1], ss[n], k);
    }
  }

  lemma InterruptedStaysOpen(s: Slice, s': Slice, k: Key)
    requires Inv(s) && IsInterrupted(s, k) && SessionStore.Reaches(s, s', None)
    ensures k in OpenTurns(s', s.turns[k].version)
  {
    hide Step, Inv;
    var ss, acts :| SessionStore.Path(ss, acts, None) && ss[0] == s && ss[|acts|] == s';
    PathStaysInterrupted(ss, acts, |acts|, k);
  }

  lemma {:induction false} PathStaysGivenUp(ss: seq<Slice>, acts: seq<Action>, n: nat, k: Key)
    requires SessionStore.Path(ss, acts, None) && n < |ss| && GivenUp(ss[0], k)
    ensures GivenUp(ss[n], k) && ss[n].turns[k] == ss[0].turns[k]
  {
    hide Step;
    if n > 0 {
      PathStaysGivenUp(ss, acts, n - 1, k);
      StepStaysGivenUp(ss[n - 1], acts[n - 1], ss[n], k);
    }
  }

  lemma GivenUpStaysOpen(s: Slice, s': Slice, k: Key)
    requires GivenUp(s, k) && SessionStore.Reaches(s, s', None)
    ensures k in OpenTurns(s', s.turns[k].version)
  {
    hide Step;
    var ss, acts :| SessionStore.Path(ss, acts, None) && ss[0] == s && ss[|acts|] == s';
    PathStaysGivenUp(ss, acts, |acts|, k);
  }

  /** Some continuation retires every turn of `v`. */
  ghost predicate CanDrain(s: Slice, v: nat) {
    exists s' :: SessionStore.Reaches(s, s', None) && s.turns.Keys <= s'.turns.Keys && OpenTurns(s', v) == {}
  }

  /** What is not deliverable, or interrupted, stays open. */
  lemma DrainsOnlyIf(s: Slice, v: nat)
    requires Inv(s) && EntriesOk(s) && LiveAt(s.row, v) && CanDrain(s, v)
    ensures Uninterrupted(s, v) && AllDeliverable(s, v)
  {
    hide Inv, Step, EntriesOk, Deliverable;
    var s' :| SessionStore.Reaches(s, s', None) && s.turns.Keys <= s'.turns.Keys && OpenTurns(s', v) == {};
    forall k | k in s.turns && s.turns[k].version == v ensures !IsInterrupted(s, k) {
      if IsInterrupted(s, k) {
        InterruptedStaysOpen(s, s', k);
      }
    }
    forall k | k in OpenTurns(s, v) ensures Deliverable(s, k) {
      assert !IsInterrupted(s, k);
      if !Deliverable(s, k) {
        UndeliverableIsGivenUp(s, v, k);
        GivenUpStaysOpen(s, s', k);
      }
    }
  }

  /** The exact condition: in every run, a live version can be worked off if and only if none of its turns is interrupted
      and each open one has a row that the relay still attempts or an unacknowledged entry. */
  lemma DrainsExactly(ss: seq<Slice>, acts: seq<Option<Action>>, i: nat, v: nat)
    requires Run(ss, acts) && i < |ss| && LiveAt(ss[i].row, v)
    ensures CanDrain(ss[i], v) <==> Uninterrupted(ss[i], v) && AllDeliverable(ss[i], v)
  {
    hide Step, Inv, EntriesOk, AllDeliverable, Uninterrupted;
    RunKeepsInv(ss, acts, i);
    RunKeepsEntries(ss, acts, i);
    if Uninterrupted(ss[i], v) && AllDeliverable(ss[i], v) {
      var s' := EveryTurnCanBeDelivered(ss, acts, i, v, _ => "done");
    } else if CanDrain(ss[i], v) {
      DrainsOnlyIf(ss[i], v);
    }
  }

  // ---- There are such sessions ---------------------------------------------------------------------------

  /** For any key, text and token there is a session that accepts that input and can execute it and deliver any reply. */
  lemma AnyInputCanBeDelivered(host: Host, key: Key, text: string, t: Option<Token>, reply: string)
      returns (ss: seq<Slice>, acts: seq<Option<Action>>, s': Slice)
    ensures Run(ss, acts) && SessionStore.Reaches(ss[|acts|], s', None) && Inv(s')
    ensures key in ss[|acts|].sent && ss[|acts|].sent[key].text == text
    ensures key in s'.turns && s'.turns[key].status.Delivered? && s'.turns[key].result == Some(reply) && InLog(s'.log, key)
  {
    hide Step, Inv;
    var s: Slice;
    ss, acts, s := Accepts(host, key, text, t);
    assert 0 in s.outbox && Attempted(s.outbox[0]) && s.outbox[0].envelope.key == key;
    s' := EveryTurnCanBeDelivered(ss, acts, |acts|, 0, _ => reply);
    RunKeepsInv(ss, acts, |acts|);
    ReachesKeepsInv(s, s');
    assert key in s'.turns.Keys;
    var n := ExecutedTurnIsLogged(s', key);
  }

  /** And there is one in which the relay gives that input up: no turn is interrupted, and yet it is never executed. */
  lemma AnyInputCanBeGivenUp(host: Host, key: Key, text: string, t: Option<Token>)
      returns (ss: seq<Slice>, acts: seq<Option<Action>>)
    ensures Run(ss, acts) && LiveAt(ss[|acts|].row, 0) && Uninterrupted(ss[|acts|], 0)
    ensures GivenUp(ss[|acts|], key) && !CanDrain(ss[|acts|], 0)
  {
    hide Step, Inv;
    var s: Slice;
    ss, acts, s := Accepts(host, key, text, t);
    ss, acts := Refusals(ss, acts, key, Relay.MAX_ATTEMPTS);
    var i := |acts|;
    assert GivenUp(ss[i], key) && key in OpenTurns(ss[i], 0);
    GivenUpIsUndeliverable(ss[i], key);
    DrainsExactly(ss, acts, i, 0);
  }

  lemma GivenUpIsUndeliverable(s: Slice, k: Key)
    requires GivenUp(s, k)
    ensures !Deliverable(s, k)
  {}

  /** The first row of a new session has been refused `n` times. */
  lemma {:induction false} Refusals(ss: seq<Slice>, acts: seq<Option<Action>>, key: Key, n: nat)
      returns (tt: seq<Slice>, bb: seq<Option<Action>>)
    requires Run(ss, acts) && n <= Relay.MAX_ATTEMPTS
    requires var s := ss[|acts|]; s.outbox.Keys == {0} && s.outbox[0] == OutboxRow(s.outbox[0].envelope, false, 0)
    ensures Run(tt, bb)
    ensures var s := ss[|acts|]; tt[|bb|] == s.(outbox := map[0 := s.outbox[0].(attempts := n)])
  {
    hide Step;
    var s := ss[|acts|];
    tt, bb := ss, acts;
    if n == 0 {
      assert s.outbox == map[0 := s.outbox[0].(attempts := 0)];
    } else {
      tt, bb := Refusals(ss, acts, key, n - 1);
      var m := tt[|bb|];
      var s' := s.(outbox := map[0 := s.outbox[0].(attempts := n)]);
      RefuseStep(m, s');
      tt, bb := OneStepMore(tt, bb, Refuse(0), s');
    }
  }

  lemma RefuseStep(s: Slice, s': Slice)
    requires s.outbox.Keys == {0} && Attempted(s.outbox[0])
    requires s' == s.(outbox := map[0 := s.outbox[0].(attempts := s.outbox[0].attempts + 1)])
    ensures Step(s, Refuse(0), s')
  {
    hide NoNewExecution, KeepsStatuses, ReadsRow, TouchesOnly;
    assert s.outbox[0 := s.outbox[0].(attempts := s.outbox[0].attempts + 1)] == s'.outbox;
  }

  lemma OneStepMore(ss: seq<Slice>, acts: seq<Option<Action>>, a: Action, s': Slice)
      returns (tt: seq<Slice>, bb: seq<Option<Action>>)
    requires Run(ss, acts) && Step(ss[|acts|], a, s')
    ensures Run(tt, bb) && tt[|bb|] == s'
  {
    hide Step;
    tt, bb := ss + [s'], acts + [Some(a)];
    forall i | 0 <= i < |bb| ensures Next(tt[i], bb[i], tt[i + 1]) {
      if i < |acts| {
        assert Next(ss[i], acts[i], ss[i + 1]);
      }
    }
  }

  lemma Accepts(host: Host, key: Key, text: string, t: Option<Token>)
      returns (ss: seq<Slice>, acts: seq<Option<Action>>, s: Slice)
    ensures Run(ss, acts) && ss[|acts|] == s && LiveAt(s.row, 0) && s.turns == map[key := Turn(0, 0, Queued, None)]
    ensures key in s.sent && s.sent[key].text == text && s.stream == map[] && s.tasks == map[]
    ensures s.outbox == map[0 := OutboxRow(Envelope(key, 0, host, text), false, 0)]
  {
    hide NoNewExecution, KeepsStatuses, ReadsRow, TouchesOnly;
    var s0 := NewSession(host);
    var s1 := SetTask(s0, 0, Create);
    var s2 := End(WriteRow(s1, CreateRunning(host, t)), 0);
    var e := Envelope(key, 0, host, text);
    s := WriteRow(s2, InputSaga).(turns := map[key := Turn(0, 0, Queued, None)], nextSeq := 1,
                                  outbox := map[0 := OutboxRow(e, false, 0)], sent := map[key := e]);
    assert Step(s0, BeginCreate(0), s1) && Step(s1, EndCreate(0, CreateRunning(host, t)), s2);
    assert Step(s2, Enqueue(key, 0, 0, text), s);
    ss := [s0, s1, s2, s];
    acts := [Some(BeginCreate(0)), Some(EndCreate(0, CreateRunning(host, t))), Some(Enqueue(key, 0, 0, text))];
  }
}
