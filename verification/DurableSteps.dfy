/** Every action of the durable turn protocol keeps the invariant. */
module DurableSteps {
  import opened Options
  import opened Lifecycle
  import opened Durable
  import opened DurableInvariant

  // ---- Input saga, relay, stream, retention ----------------------------------------------

  lemma EnqueueKeepsLedger(s: Slice, key: Key, t: Turn)
    requires Inv(s) && key !in s.turns && s.nextSeq <= t.seqno && t.status.Queued?
    ensures Ledger(s.turns[key := t], t.seqno + 1)
    ensures Logged(s.turns[key := t], s.log)
  {
    var turns := s.turns[key := t];
    forall i | 0 <= i < |s.log| ensures EarlierRetired(turns, s.log[i].version, s.log[i].seqno) {
      assert EarlierRetired(s.turns, s.log[i].version, s.log[i].seqno);
      assert Recorded(s.turns[s.log[i].key], s.log[i]);
    }
  }

  lemma EnqueueKeepsTask(s: Slice, s': Slice, key: Key, tid: TaskId)
    requires tid in s.tasks && TaskOk(s, tid) && Ledger(s.turns, s.nextSeq) && key !in s.turns && key !in s.sent
    requires key in s'.turns && s'.turns == s.turns[key := s'.turns[key]] && s.nextSeq <= s'.turns[key].seqno
    requires key in s'.sent && s'.sent == s.sent[key := s'.sent[key]]
    requires s' == s.(turns := s'.turns, nextSeq := s'.nextSeq, outbox := s'.outbox, sent := s'.sent)
    ensures TaskOk(s', tid)
  {
    match s.tasks[tid]
    case Input(_, e, pc) =>
      assert s'.turns[e.key] == s.turns[e.key];
      if pc.Admitting? {
        assert EarlierRetired(s'.turns, e.version, s.turns[e.key].seqno);
      }
    case _ =>
  }

  lemma EnqueueKeepsSent(s: Slice, s': Slice, e: Envelope, rid: RowId)
    requires SentOk(s.row, s.turns, s.sent) && EnvelopesOk(s.sent, s.outbox, s.stream, s.lastId)
    requires e.key !in s.sent && LiveAt(s.row, e.version) && e.host == s.row.host
    requires e.key in s'.turns && s'.turns == s.turns[e.key := s'.turns[e.key]] && s'.turns[e.key].version == e.version
    requires s'.sent == s.sent[e.key := e] && s'.outbox == s.outbox[rid := OutboxRow(e, false, 0)]
    requires s'.row == s.row && s'.stream == s.stream && s'.lastId == s.lastId
    ensures SentOk(s'.row, s'.turns, s'.sent) && EnvelopesOk(s'.sent, s'.outbox, s'.stream, s'.lastId)
  {}

  lemma EnqueueKeepsInv(s: Slice, key: Key, seqno: nat, rid: RowId, text: string, s': Slice)
    requires Inv(s) && StepEnqueue(s, key, seqno, rid, text, s')
    ensures Inv(s')
  {
    hide Logged, Chained, PostsOk, SentOk, EnvelopesOk;
    var s1 := WriteRow(s, InputSaga);
    WriteRowKeepsInv(s, InputSaga);
    var t := Turn(seqno, s.row.version, Queued, None);
    assert s1.turns == s.turns && s1.row.version == s.row.version && s1.row.host == s.row.host && Live(s1.row);
    EnqueueKeepsLedger(s1, key, t);
    EnqueueKeepsSent(s1, s', Envelope(key, s.row.version, s.row.host, text), rid);
    forall tid | tid in s'.tasks ensures TaskOk(s', tid) {
      assert TaskOk(s1, tid);
      hide TaskOk;
      EnqueueKeepsTask(s1, s', key, tid);
    }
    hide TaskOk, Ledger;
    forall k | k in s'.turns ensures Settled(s'.row, s'.turns, k) || Unpublished(s'.outbox, k) || Unacked(s'.stream, k) {
      if k == key {
        assert rid in s'.outbox && s'.outbox[rid].envelope.key == key;
      } else {
        UnpublishedGrows(s1.outbox, s'.outbox, k, rid);
      }
    }
  }

  lemma UnpublishedGrows(outbox: map<RowId, OutboxRow>, outbox': map<RowId, OutboxRow>, k: Key, rid: RowId)
    requires rid !in outbox && rid in outbox' && outbox' == outbox[rid := outbox'[rid]]
    ensures Unpublished(outbox, k) ==> Unpublished(outbox', k)
  {
    if Unpublished(outbox, k) {
      var r :| r in outbox && !outbox[r].published && outbox[r].envelope.key == k;
      assert r in outbox' && outbox'[r] == outbox[r];
    }
  }

  /** Steps that touch only the outbox and the stream, and keep every unsettled envelope. */
  lemma PlumbingKeepsInv(s: Slice, s': Slice)
    requires Inv(s) && s' == s.(outbox := s'.outbox, stream := s'.stream, lastId := s'.lastId) && s.lastId <= s'.lastId
    requires EnvelopesOk(s.sent, s'.outbox, s'.stream, s'.lastId)
    requires forall m :: m in s'.stream && m <= s.lastId ==>
                           m in s.stream && s'.stream[m].envelope == s.stream[m].envelope
    requires forall k :: Unpublished(s.outbox, k) || Unacked(s.stream, k) ==>
                           Settled(s.row, s.turns, k) || Unpublished(s'.outbox, k) || Unacked(s'.stream, k)
    ensures Inv(s')
  {
    forall tid | tid in s'.tasks ensures TaskOk(s', tid) {
      assert TaskOk(s, tid);
      OtherTables(s, s', tid);
    }
  }

  lemma OtherTables(s: Slice, s': Slice, tid: TaskId)
    requires tid in s.tasks && TaskOk(s, tid) && s.lastId <= s'.lastId
    requires s' == s.(outbox := s'.outbox, stream := s'.stream, lastId := s'.lastId)
    requires forall m :: m in s'.stream && m <= s.lastId ==>
                           m in s.stream && s'.stream[m].envelope == s.stream[m].envelope
    ensures TaskOk(s', tid)
  {}

  lemma PublishLosesNothing(s: Slice, rid: RowId, mid: MsgId, committed: bool, s': Slice, k: Key)
    requires StepPublish(s, rid, mid, committed, s') && mid !in s.stream
    requires Unpublished(s.outbox, k) || Unacked(s.stream, k)
    ensures Unpublished(s'.outbox, k) || Unacked(s'.stream, k)
  {
    hide ReadsRow, KeepsStatuses, NoNewExecution, TouchesOnly;
    if Unacked(s.stream, k) {
      var m :| m in s.stream && !s.stream[m].delivery.Acked? && s.stream[m].envelope.key == k;
      assert m in s'.stream && s'.stream[m] == s.stream[m];
    } else if k == s.outbox[rid].envelope.key {
      assert s'.stream[mid].envelope.key == k;
    } else {
      var r :| r in s.outbox && !s.outbox[r].published && s.outbox[r].envelope.key == k;
      assert r in s'.outbox && s'.outbox[r] == s.outbox[r];
    }
  }

  lemma EnvelopesFact(s: Slice)
    requires Inv(s)
    ensures EnvelopesOk(s.sent, s.outbox, s.stream, s.lastId)
  {}

  lemma PublishKeepsInv(s: Slice, rid: RowId, mid: MsgId, committed: bool, s': Slice)
    requires Inv(s) && StepPublish(s, rid, mid, committed, s')
    ensures Inv(s')
  {
    hide Inv, Unpublished, Unacked, Settled, ReadsRow, KeepsStatuses, NoNewExecution, TouchesOnly;
    EnvelopesFact(s);
    forall k | Unpublished(s.outbox, k) || Unacked(s.stream, k)
      ensures Unpublished(s'.outbox, k) || Unacked(s'.stream, k)
    {
      PublishLosesNothing(s, rid, mid, committed, s', k);
    }
    PlumbingKeepsInv(s, s');
  }

  lemma RefuseKeepsInv(s: Slice, rid: RowId, s': Slice)
    requires Inv(s) && StepRefuse(s, rid, s')
    ensures Inv(s')
  {
    forall k | Unpublished(s.outbox, k) ensures Unpublished(s'.outbox, k) {
      var r :| r in s.outbox && !s.outbox[r].published && s.outbox[r].envelope.key == k;
      assert r in s'.outbox && !s'.outbox[r].published && s'.outbox[r].envelope.key == k;
    }
    hide Unpublished, Unacked, Settled, ReadsRow, KeepsStatuses, NoNewExecution, TouchesOnly;
    PlumbingKeepsInv(s, s');
  }

  lemma SweepOutboxKeepsInv(s: Slice, rid: RowId, s': Slice)
    requires Inv(s) && StepSweepOutbox(s, rid, s')
    ensures Inv(s')
  {
    forall k | Unpublished(s.outbox, k) ensures Unpublished(s'.outbox, k) {
      var r :| r in s.outbox && !s.outbox[r].published && s.outbox[r].envelope.key == k;
      assert r in s'.outbox && s'.outbox[r] == s.outbox[r];
    }
    PlumbingKeepsInv(s, s');
  }

  /** Changing the delivery state of one entry, or dropping it, loses nothing when its turn is settled
      or the entry stays unacknowledged. */
  lemma StreamKeepsInv(s: Slice, mid: MsgId, s': Slice)
    requires Inv(s) && mid in s.stream && s' == s.(stream := s'.stream)
    requires s'.stream.Keys <= s.stream.Keys
    requires forall m :: m in s.stream && m != mid ==> m in s'.stream && s'.stream[m] == s.stream[m]
    requires mid in s'.stream ==> s'.stream[mid].envelope == s.stream[mid].envelope
    requires
      || (mid in s'.stream && !s'.stream[mid].delivery.Acked?)
      || s.stream[mid].delivery.Acked?
      || Settled(s.row, s.turns, s.stream[mid].envelope.key)
    ensures Inv(s')
  {
    forall k | Unacked(s.stream, k) ensures Settled(s.row, s.turns, k) || Unacked(s'.stream, k) {
      var m :| m in s.stream && !s.stream[m].delivery.Acked? && s.stream[m].envelope.key == k;
      if m != mid {
        assert m in s'.stream && s'.stream[m] == s.stream[m];
      }
    }
    PlumbingKeepsInv(s, s');
  }

  lemma SweepKeepsLogged(turns: map<Key, Turn>, log: seq<Exec>, k: Key)
    requires Logged(turns, log) && k in turns && (turns[k].status.Delivered? || turns[k].status.DeliveryFailed?)
    ensures Logged(turns[k := turns[k].(result := None)], log)
  {
    var turns' := turns[k := turns[k].(result := None)];
    forall i | 0 <= i < |log| ensures EarlierRetired(turns', log[i].version, log[i].seqno) {
      assert EarlierRetired(turns, log[i].version, log[i].seqno);
    }
  }

  lemma SweepResultKeepsInv(s: Slice, k: Key, s': Slice)
    requires Inv(s) && StepSweepResult(s, k, s')
    ensures Inv(s')
  {
    hide Logged, Chained, PostsOk, EnvelopesOk;
    SweepKeepsLogged(s.turns, s.log, k);
    forall tid | tid in s'.tasks ensures TaskOk(s', tid) {
      assert TaskOk(s, tid);
      hide TaskOk;
      SweptTask(s, s', k, tid);
    }
    forall x | x in s'.turns ensures Settled(s'.row, s'.turns, x) == Settled(s.row, s.turns, x) {}
  }

  lemma SweptTask(s: Slice, s': Slice, k: Key, tid: TaskId)
    requires tid in s.tasks && TaskOk(s, tid) && StepSweepResult(s, k, s')
    ensures TaskOk(s', tid)
  {
    match s.tasks[tid]
    case Input(_, e, pc) =>
      if pc.Admitting? {
        assert EarlierRetired(s'.turns, e.version, s.turns[e.key].seqno);
      }
    case _ =>
  }

  // ---- Status changes by the lock holder ---------------------------------------------------

  /** The moves of `input_turns.status` that retire a turn or mark it uncertain. */
  ghost predicate Retires(from: TurnStatus, to: TurnStatus) {
    || ((from.Executing? || from.Uncertain?) && to.Uncertain?)
    || (from.Queued? && to.Aborted?)
    || (from.Completed? && (to.Delivered? || to.DeliveryFailed?))
  }

  lemma RetireKeepsLogged(turns: map<Key, Turn>, log: seq<Exec>, k: Key, to: TurnStatus)
    requires Logged(turns, log) && k in turns && Retires(turns[k].status, to)
    ensures Logged(turns[k := turns[k].(status := to)], log)
  {
    var turns' := turns[k := turns[k].(status := to)];
    forall i | 0 <= i < |log|
      ensures EarlierRetired(turns', log[i].version, log[i].seqno) && Recorded(turns'[log[i].key], log[i])
    {
      assert EarlierRetired(turns, log[i].version, log[i].seqno) && Recorded(turns[log[i].key], log[i]);
    }
  }

  /** A task without the lock knows at most that its turn is settled. */
  lemma UnlockedTask(s: Slice, s': Slice, t: TaskId)
    requires t in s.tasks && TaskOk(s, t) && !HoldsLock(s.tasks[t]) && t in s'.tasks && s'.tasks[t] == s.tasks[t]
    requires s'.sent == s.sent && s.turns.Keys <= s'.turns.Keys && s'.stream == s.stream && s'.lastId == s.lastId
    requires s'.row == s.row || (s'.row == s.row.(token := s'.row.token) && Live(s.row))
    requires Settled(s.row, s.turns, Subject(s.tasks[t])) ==> Settled(s'.row, s'.turns, Subject(s.tasks[t]))
    ensures TaskOk(s', t)
  {}

  ghost function Subject(t: Task): Key {
    if t.Input? then t.envelope.key else 0
  }

  lemma TaskFact(s: Slice, tid: TaskId)
    requires Inv(s) && tid in s.tasks
    ensures TaskOk(s, tid)
  {}

  lemma EnvelopeFact(s: Slice, e: Envelope)
    requires Inv(s) && Known(s.sent, e)
    ensures e.key in s.turns && s.turns[e.key].version == e.version && s.row.host == e.host && EraBegun(s.row, e.version)
  {
    hide Ledger, Logged, Chained, PostsOk, EnvelopesOk, NotLost, TasksOk;
  }

  lemma LedgerFact(s: Slice, k: Key)
    requires Inv(s) && k in s.turns
    ensures forall k' :: k' in s.turns && s.turns[k'].seqno == s.turns[k].seqno ==> k' == k
  {
    hide Logged, Chained, PostsOk, EnvelopesOk, NotLost, TasksOk, SentOk;
  }

  lemma LogFact(s: Slice, i: nat)
    requires Inv(s) && i < |s.log|
    ensures s.log[i].key in s.turns && Recorded(s.turns[s.log[i].key], s.log[i])
    ensures EarlierRetired(s.turns, s.log[i].version, s.log[i].seqno)
  {
    hide Ledger, Chained, PostsOk, EnvelopesOk, NotLost, TasksOk, SentOk;
  }

  lemma OthersUnlocked(s: Slice, tid: TaskId, t: TaskId)
    requires Inv(s) && tid in s.tasks && HoldsLock(s.tasks[tid]) && t in s.tasks && t != tid
    ensures TaskOk(s, t) && !HoldsLock(s.tasks[t])
  {
    TaskFact(s, tid);
    TaskFact(s, t);
  }

  /** Only the lock holder changes a turn or the log, so no other task's knowledge is affected. */
  lemma HolderKeepsInv(s: Slice, s': Slice, tid: TaskId)
    requires Inv(s) && tid in s.tasks && HoldsLock(s.tasks[tid])
    requires s' == s.(row := s'.row, turns := s'.turns, log := s'.log, tasks := s'.tasks, lock := s'.lock)
    requires s'.row == s.row || (s'.row == s.row.(token := s'.row.token) && Live(s.row))
    requires s'.turns.Keys == s.turns.Keys && tid in s'.tasks && s'.tasks == s.tasks[tid := s'.tasks[tid]]
    requires forall k :: Settled(s.row, s.turns, k) ==> Settled(s'.row, s'.turns, k)
    requires Ledger(s'.turns, s'.nextSeq) && Logged(s'.turns, s'.log) && SentOk(s'.row, s'.turns, s'.sent)
    requires Chained(s'.row, s'.eraStart, s'.log) && PostsOk(s'.posts, s'.log)
    requires TaskOk(s', tid)
    ensures Inv(s')
  {
    forall t | t in s'.tasks && t != tid ensures TaskOk(s', t) {
      OthersUnlocked(s, tid, t);
      hide Inv;
      UnlockedTask(s, s', t);
    }
    hide Ledger, Logged, SentOk, EnvelopesOk, Chained, PostsOk, TaskOk, Settled, Unpublished, Unacked;
  }

  /** Replacing a turn by one with the same place in the ledger. */
  lemma ReplaceKeepsTables(row: Row, turns: map<Key, Turn>, nextSeq: nat, sent: map<Key, Envelope>, k: Key, t: Turn)
    requires Ledger(turns, nextSeq) && SentOk(row, turns, sent)
    requires k in turns && t.seqno == turns[k].seqno && t.version == turns[k].version
    ensures Ledger(turns[k := t], nextSeq) && SentOk(row, turns[k := t], sent)
  {}

  lemma ReplaceKeepsSettled(row: Row, row': Row, turns: map<Key, Turn>, k: Key, t: Turn)
    requires k in turns && t.version == turns[k].version
    requires row' == row.(token := row'.token)
    requires Terminal(turns[k].status) ==> t.status == turns[k].status
    requires turns[k].status.Uncertain? ==> t.status.Uncertain?
    ensures forall k' :: Settled(row, turns, k') ==> Settled(row', turns[k := t], k')
  {}

  lemma RetiredTask(s: Slice, tid: TaskId, to: TurnStatus, pc: InputPc, s': Slice)
    requires Inv(s) && At(s, tid) && HoldsLock(s.tasks[tid])
    requires var k := s.tasks[tid].envelope.key; k in s.turns && Retires(s.turns[k].status, to)
    requires match pc
             case NoticeUncertain => to.Uncertain?
             case NoticeDenied => to.Aborted?
             case Returned => true
             case _ => false
    requires var s1 := SetTurnStatus(s, s.tasks[tid].envelope.key, to);
             s' == if pc.Returned? then SetPc(Unlock(s1, tid), tid, pc) else SetPc(s1, tid, pc)
    ensures tid in s'.tasks && TaskOk(s', tid)
  {
    hide Inv, NoNewExecution;
    TaskFact(s, tid);
  }

  lemma RetireKeepsInv(s: Slice, tid: TaskId, to: TurnStatus, pc: InputPc)
    requires Inv(s) && At(s, tid) && HoldsLock(s.tasks[tid])
    requires var k := s.tasks[tid].envelope.key; k in s.turns && Retires(s.turns[k].status, to)
    requires match pc
             case NoticeUncertain => to.Uncertain?
             case NoticeDenied => to.Aborted?
             case Returned => true
             case _ => false
    ensures var s1 := SetTurnStatus(s, s.tasks[tid].envelope.key, to);
            Inv(if pc.Returned? then SetPc(Unlock(s1, tid), tid, pc) else SetPc(s1, tid, pc))
  {
    hide Ledger, SentOk, Logged, EnvelopesOk, Chained, PostsOk, NotLost, TasksOk, TaskOk, Settled, NoNewExecution;
    var k := s.tasks[tid].envelope.key;
    var s1 := SetTurnStatus(s, k, to);
    var s' := if pc.Returned? then SetPc(Unlock(s1, tid), tid, pc) else SetPc(s1, tid, pc);
    RetiredTask(s, tid, to, pc, s');
    ReplaceKeepsTables(s.row, s.turns, s.nextSeq, s.sent, k, s.turns[k].(status := to));
    ReplaceKeepsSettled(s.row, s.row, s.turns, k, s.turns[k].(status := to));
    RetireKeepsLogged(s.turns, s.log, k, to);
    HolderKeepsInv(s, s', tid);
  }

  // ---- Admission and completion ------------------------------------------------------------

  lemma AdmitKeepsLogged(turns: map<Key, Turn>, log: seq<Exec>, k: Key, x: Exec)
    requires Logged(turns, log) && k in turns && turns[k].status.Queued?
    requires forall k' :: k' in turns && turns[k'].seqno == turns[k].seqno ==> k' == k
    requires EarlierRetired(turns, turns[k].version, turns[k].seqno)
    requires x.key == k && x.version == turns[k].version && x.seqno == turns[k].seqno && x.result.None?
    ensures Logged(turns[k := turns[k].(status := Executing)], log + [x])
  {
    var turns' := turns[k := turns[k].(status := Executing)];
    var log' := log + [x];
    forall i | 0 <= i < |log|
      ensures EarlierRetired(turns', log[i].version, log[i].seqno) && log[i].key != k
      ensures log[i].version == x.version ==> log[i].seqno < x.seqno
    {
      assert Recorded(turns[log[i].key], log[i]) && EarlierRetired(turns, log[i].version, log[i].seqno);
    }
    assert EarlierRetired(turns', x.version, x.seqno);
    forall k' | k' in turns' && !turns'[k'].status.Queued? && !turns'[k'].status.Aborted? ensures InLog(log', k') {
      if k' == k {
        assert log'[|log|].key == k;
      } else {
        assert InLog(log, k');
        var i :| 0 <= i < |log| && log[i].key == k';
        assert log'[i].key == k';
      }
    }
  }

  lemma GrownLogKeepsPosts(posts: seq<Post>, log: seq<Exec>, log': seq<Exec>)
    requires PostsOk(posts, log) && |log| <= |log'|
    requires forall i :: 0 <= i < |log| && log[i].result.Some? ==> log'[i] == log[i]
    ensures PostsOk(posts, log')
  {
    forall p | 0 <= p < |posts| && posts[p].Reply? ensures Produced(log', posts[p].key, posts[p].text) {
      assert Produced(log, posts[p].key, posts[p].text);
      var i :| 0 <= i < |log| && log[i].key == posts[p].key && log[i].result.Some?
               && Some(log[i].result.value.reply) == posts[p].text;
      assert log'[i] == log[i];
    }
  }

  lemma AppendKeepsChain(row: Row, eraStart: map<nat, Option<Token>>, log: seq<Exec>, x: Exec)
    requires Chained(row, eraStart, log) && x.result.None? && LiveAt(row, x.version) && x.token == row.token
    ensures Chained(row, eraStart, log + [x])
  {
    var log' := log + [x];
    forall i | 0 <= i < |log'|
      ensures log'[i].version in eraStart
      ensures log'[i].token == Chain(eraStart[log'[i].version], log', i, log'[i].version)
    {
      if i < |log| {
        ChainPrefix(eraStart[log[i].version], log, log', i, log[i].version);
      } else {
        ChainPrefix(eraStart[x.version], log, log', i, x.version);
      }
    }
    ChainPrefix(eraStart[x.version], log, log', |log|, x.version);
  }

  lemma AdmitKeepsInv(s: Slice, tid: TaskId, s': Slice)
    requires Inv(s) && StepAdmitTurn(s, tid, s')
    ensures Inv(s')
  {
    TaskFact(s, tid);
    var e := s.tasks[tid].envelope;
    if !LiveAt(s.row, e.version) {
      hide Inv;
      assert EraBegun(s.row, e.version);
      ReturnKeepsInv(s, tid, AbortedOutcome);
    } else {
      AdmittedKeepsInv(s, tid, s');
    }
  }

  lemma AdmittedShape(s: Slice, tid: TaskId, s': Slice)
    requires Inv(s) && StepAdmitTurn(s, tid, s') && LiveAt(s.row, s.tasks[tid].envelope.version)
    ensures TaskOk(s, tid) && TaskOk(s', tid)
    ensures var e := s.tasks[tid].envelope;
            && e.key in s.turns && s.turns[e.key].status.Queued? && s.turns[e.key].version == e.version
            && EarlierRetired(s.turns, e.version, s.turns[e.key].seqno) && s.tasks[tid].pc.token == s.row.token
    ensures var e := s.tasks[tid].envelope;
            var s1 := WriteRow(s, Admit(e.version));
            && s1 == s.(row := s.row.(status := Running))
            && s' == s1.(turns := s.turns[e.key := s.turns[e.key].(status := Executing)],
                         log := s.log + [Exec(e.key, e.version, s.turns[e.key].seqno, e.text,
                                              s.tasks[tid].pc.token, None)],
                         tasks := s.tasks[tid := s.tasks[tid].(pc := InExecution)])
  {
    hide Inv;
    TaskFact(s, tid);
    EnvelopeFact(s, s.tasks[tid].envelope);
  }

  lemma AdmittedKeepsInv(s: Slice, tid: TaskId, s': Slice)
    requires Inv(s) && StepAdmitTurn(s, tid, s') && LiveAt(s.row, s.tasks[tid].envelope.version)
    ensures Inv(s')
  {
    hide WriteRow, UpsertExecuting, TaskOk, TasksOk, EnvelopesOk, NotLost, Ledger, Logged, Chained, PostsOk, SentOk, Settled;
    AdmittedShape(s, tid, s');
    var e := s.tasks[tid].envelope;
    var s1 := WriteRow(s, Admit(e.version));
    var t := s.turns[e.key].(status := Executing);
    var x := Exec(e.key, e.version, t.seqno, e.text, s.tasks[tid].pc.token, None);
    LedgerFact(s, e.key);
    WriteRowKeepsInv(s, Admit(e.version));
    ReplaceKeepsTables(s1.row, s.turns, s.nextSeq, s.sent, e.key, t);
    ReplaceKeepsSettled(s1.row, s1.row, s.turns, e.key, t);
    AdmitKeepsLogged(s.turns, s.log, e.key, x);
    AppendKeepsChain(s1.row, s1.eraStart, s.log, x);
    GrownLogKeepsPosts(s.posts, s.log, s'.log);
    HolderKeepsInv(s1, s', tid);
  }

  lemma CompleteKeepsChain(row: Row, row': Row, eraStart: map<nat, Option<Token>>, log: seq<Exec>, v: nat, result: Result)
    requires Chained(row, eraStart, log) && |log| > 0 && log[|log| - 1].version == v && log[|log| - 1].result.None?
    requires row' == if LiveAt(row, v) then row.(token := Coalesce(result.token, row.token)) else row
    ensures Chained(row', eraStart, log[|log| - 1 := log[|log| - 1].(result := Some(result))])
  {
    hide Chain;
    var n := |log| - 1;
    var log' := log[n := log[n].(result := Some(result))];
    forall i | 0 <= i < |log|
      ensures log'[i].version in eraStart
      ensures log'[i].token == Chain(eraStart[log'[i].version], log', i, log'[i].version)
    {
      ChainPrefix(eraStart[log[i].version], log, log', i, log[i].version);
    }
    assert forall x :: x in eraStart ==> EraBegun(row, x) ==> EraBegun(row', x);
    if Live(row') {
      CompleteChain(eraStart[row.version], log, log', row.version);
    }
  }

  lemma CompleteChain(start: Option<Token>, log: seq<Exec>, log': seq<Exec>, v: nat)
    requires |log| > 0 && |log'| == |log| && log[..|log| - 1] == log'[..|log| - 1]
    requires log[|log| - 1].result.None? && log'[|log| - 1] == log[|log| - 1].(result := log'[|log| - 1].result)
    requires log'[|log| - 1].result.Some?
    ensures Chain(start, log', |log|, v)
            == if log[|log| - 1].version == v then Coalesce(log'[|log| - 1].result.value.token, Chain(start, log, |log|, v))
               else Chain(start, log, |log|, v)
  {
    forall i | 0 <= i < |log| - 1 ensures log[i] == log'[i] {
      assert log[i] == log[..|log| - 1][i] == log'[..|log| - 1][i];
    }
    ChainPrefix(start, log, log', |log| - 1, v);
  }

  lemma CompleteKeepsLogged(turns: map<Key, Turn>, log: seq<Exec>, k: Key, reply: string, token: Option<Token>)
    requires Logged(turns, log) && k in turns && turns[k].status.Executing? && |log| > 0 && log[|log| - 1].key == k
    ensures Logged(turns[k := turns[k].(status := Completed, result := Some(reply))],
                   log[|log| - 1 := log[|log| - 1].(result := Some(Result(reply, token)))])
  {
    var n := |log| - 1;
    var turns' := turns[k := turns[k].(status := Completed, result := Some(reply))];
    var log' := log[n := log[n].(result := Some(Result(reply, token)))];
    forall i | 0 <= i < |log'|
      ensures EarlierRetired(turns', log'[i].version, log'[i].seqno) && Recorded(turns'[log'[i].key], log'[i])
    {
      assert EarlierRetired(turns, log[i].version, log[i].seqno) && Recorded(turns[log[i].key], log[i]);
    }
    forall k' | k' in turns' && !turns'[k'].status.Queued? && !turns'[k'].status.Aborted? ensures InLog(log', k') {
      assert InLog(log, k');
      var i :| 0 <= i < |log| && log[i].key == k';
      assert log'[i].key == k';
    }
  }

  lemma TokenKeepsSent(row: Row, row': Row, turns: map<Key, Turn>, sent: map<Key, Envelope>)
    requires row' == row.(token := row'.token) && SentOk(row, turns, sent)
    ensures SentOk(row', turns, sent)
  {}

  lemma CompleteShape(s: Slice, tid: TaskId, reply: string, token: Option<Token>, s': Slice)
    requires Inv(s) && StepComplete(s, tid, reply, token, s')
    ensures TaskOk(s, tid) && TaskOk(s', tid)
    ensures var e := s.tasks[tid].envelope;
            var n := |s.log| - 1;
            && e.key in s.turns && s.turns[e.key].status.Executing? && s.log[n].result.None?
            && s.log[n].key == e.key && s.log[n].version == e.version
            && s' == s.(row := if LiveAt(s.row, e.version) then s.row.(token := Coalesce(token, s.row.token)) else s.row,
                        turns := s.turns[e.key := s.turns[e.key].(status := Completed, result := Some(reply))],
                        log := s.log[n := s.log[n].(result := Some(Result(reply, token)))],
                        tasks := s.tasks[tid := s.tasks[tid].(pc := Posting(Some(reply)))])
  {
    hide Inv;
    TaskFact(s, tid);
    LogFact(s, |s.log| - 1);
  }

  lemma CompleteKeepsInv(s: Slice, tid: TaskId, reply: string, token: Option<Token>, s': Slice)
    requires Inv(s) && StepComplete(s, tid, reply, token, s')
    ensures Inv(s')
  {
    hide WriteRow, Logged, Chained, PostsOk, EnvelopesOk, NotLost, TasksOk, TaskOk, Ledger, SentOk, Settled;
    CompleteShape(s, tid, reply, token, s');
    var e := s.tasks[tid].envelope;
    var t := s.turns[e.key].(status := Completed, result := Some(reply));
    TokenKeepsSent(s.row, s'.row, s.turns, s.sent);
    ReplaceKeepsTables(s'.row, s.turns, s.nextSeq, s.sent, e.key, t);
    ReplaceKeepsSettled(s.row, s'.row, s.turns, e.key, t);
    CompleteKeepsLogged(s.turns, s.log, e.key, reply, token);
    CompleteKeepsChain(s.row, s'.row, s.eraStart, s.log, e.version, Result(reply, token));
    GrownLogKeepsPosts(s.posts, s.log, s'.log);
    HolderKeepsInv(s, s', tid);
  }

  // ---- Reads -------------------------------------------------------------------------------

  /** If no other turn is the earliest unfinished one, everything before `key` has been retired. */
  lemma UnblockedIsEarliest(turns: map<Key, Turn>, v: nat, key: Key)
    requires key in turns && turns[key].version == v && !Blocked(turns, v, key)
    ensures EarlierRetired(turns, v, turns[key].seqno)
  {
    forall k | k in turns && turns[k].version == v && turns[k].seqno < turns[key].seqno
      ensures Terminal(turns[k].status)
    {
      if !Terminal(turns[k].status) {
        var m := EarliestExists(turns, v, turns.Keys, k);
        assert IsEarliest(turns, v, m);
      }
    }
  }

  lemma {:induction false} EarliestExists(turns: map<Key, Turn>, v: nat, among: set<Key>, k: Key) returns (m: Key)
    requires among <= turns.Keys && k in among && turns[k].version == v && !Terminal(turns[k].status)
    ensures m in among && turns[m].version == v && !Terminal(turns[m].status)
    ensures forall k' :: k' in among && turns[k'].version == v && !Terminal(turns[k'].status) ==>
                           turns[m].seqno <= turns[k'].seqno
    decreases among
  {
    m := k;
    if k' :| k' in among && turns[k'].version == v && !Terminal(turns[k'].status) && turns[k'].seqno < turns[k].seqno {
      m := EarliestExists(turns, v, among - {k}, k');
    }
  }

  lemma ReadRowKeepsInv(s: Slice, tid: TaskId, s': Slice)
    requires Inv(s) && StepReadRow(s, tid, s')
    ensures Inv(s')
  {
    assert TaskOk(s, tid);
    var e := s.tasks[tid].envelope;
    assert s.sent[e.key] == e && EraBegun(s.row, e.version);
    if !Live(s.row) || s.row.host != e.host || s.row.version != e.version {
      assert Over(s.row, e.version);
      ReturnKeepsInv(s, tid, AbortedOutcome);
    } else {
      SetPcKeepsInv(s, tid, SawRow(s.row.token));
    }
  }

  lemma ReadEarliestKeepsInv(s: Slice, tid: TaskId, denied: bool, s': Slice)
    requires Inv(s) && StepReadEarliest(s, tid, denied, s')
    ensures Inv(s')
  {
    hide Inv, ReadsRow, KeepsStatuses, NoNewExecution, TouchesOnly;
    TaskFact(s, tid);
    var e := s.tasks[tid].envelope;
    var pc := s.tasks[tid].pc;
    EnvelopeFact(s, e);
    if Blocked(s.turns, e.version, e.key) {
      ReturnKeepsInv(s, tid, Deferred);
    } else if Terminal(pc.turn.value.status) {
      ReturnKeepsInv(s, tid, SkippedReplay);
    } else if pc.turn.value.status.Queued? {
      UnblockedIsEarliest(s.turns, e.version, e.key);
      SetPcKeepsInv(s, tid, if denied then Denied else Admitting(pc.token));
    } else if pc.turn.value.status.Completed? {
      SetPcKeepsInv(s, tid, Posting(pc.turn.value.result));
    } else {
      SetPcKeepsInv(s, tid, Interrupted);
    }
  }

  // ---- Posts ---------------------------------------------------------------------------------

  lemma PostKeepsInv(s: Slice, p: Post)
    requires Inv(s)
    requires p.Reply? ==> Produced(s.log, p.key, p.text)
    ensures Inv(s.(posts := s.posts + [p]))
  {
    var s' := s.(posts := s.posts + [p]);
    forall tid | tid in s'.tasks ensures TaskOk(s', tid) {
      assert TaskOk(s, tid);
      TaskOkLocal(s, s', tid);
    }
  }

  lemma ResultWasProduced(s: Slice, k: Key)
    requires Inv(s) && k in s.turns && s.turns[k].status.Completed?
    ensures Produced(s.log, k, s.turns[k].result)
  {
    hide Ledger, Chained, PostsOk, EnvelopesOk, NotLost, TasksOk, SentOk;
    assert InLog(s.log, k);
    var i :| 0 <= i < |s.log| && s.log[i].key == k;
    assert Recorded(s.turns[k], s.log[i]);
  }

  lemma PostReplyKeepsInv(s: Slice, tid: TaskId, o: PostOutcome, s': Slice)
    requires Inv(s) && StepPostReply(s, tid, o, s')
    ensures Inv(s')
  {
    hide Inv, Produced, ReadsRow, KeepsStatuses, NoNewExecution, TouchesOnly;
    TaskFact(s, tid);
    var e := s.tasks[tid].envelope;
    var p := Reply(e.key, s.tasks[tid].pc.reply);
    ResultWasProduced(s, e.key);
    PostKeepsInv(s, p);
    var s1 := s.(posts := s.posts + [p]);
    match o
    case Accepted => SetPcKeepsInv(s1, tid, Marking(Delivered));
    case Gone => SetPcKeepsInv(s1, tid, Marking(DeliveryFailed));
    case Unprocessable => SetPcKeepsInv(s1, tid, Marking(DeliveryFailed));
    case Transient => ReturnKeepsInv(s1, tid, Deferred);
  }

  // ---- All actions ---------------------------------------------------------------------------

  lemma ReadTurnKeepsInv(s: Slice, tid: TaskId, s': Slice)
    requires Inv(s) && StepReadTurn(s, tid, s')
    ensures Inv(s')
  {
    assert TaskOk(s, tid);
    SetPcKeepsInv(s, tid, SawTurn(s.tasks[tid].pc.token, Some(s.turns[s.tasks[tid].envelope.key])));
  }

  lemma MarkUncertainKeepsInv(s: Slice, tid: TaskId, s': Slice)
    requires Inv(s) && StepMarkUncertain(s, tid, s')
    ensures Inv(s')
  {
    hide Inv;
    TaskFact(s, tid);
    RetireKeepsInv(s, tid, Uncertain, NoticeUncertain);
  }

  lemma MarkAbortedKeepsInv(s: Slice, tid: TaskId, s': Slice)
    requires Inv(s) && StepMarkAborted(s, tid, s')
    ensures Inv(s')
  {
    hide Inv;
    TaskFact(s, tid);
    RetireKeepsInv(s, tid, Aborted, NoticeDenied);
  }

  lemma MarkTurnKeepsInv(s: Slice, tid: TaskId, s': Slice)
    requires Inv(s) && StepMarkTurn(s, tid, s')
    ensures Inv(s')
  {
    hide Inv;
    TaskFact(s, tid);
    RetireKeepsInv(s, tid, s.tasks[tid].pc.status, Returned);
  }

  lemma PostUncertainKeepsInv(s: Slice, tid: TaskId, o: PostOutcome, s': Slice)
    requires Inv(s) && StepPostUncertain(s, tid, o, s')
    ensures Inv(s')
  {
    hide Inv;
    TaskFact(s, tid);
    PostKeepsInv(s, UncertainNotice(s.tasks[tid].envelope.key));
    ReturnKeepsInv(s.(posts := s'.posts), tid, if o.Accepted? || o.Gone? then AbortedOutcome else Deferred);
  }

  lemma PostDeniedKeepsInv(s: Slice, tid: TaskId, s': Slice)
    requires Inv(s) && StepPostDenied(s, tid, s')
    ensures Inv(s')
  {
    hide Inv;
    TaskFact(s, tid);
    PostKeepsInv(s, DeniedNotice(s.tasks[tid].envelope.key));
    ReturnKeepsInv(s.(posts := s'.posts), tid, AbortedOutcome);
  }

  lemma AckStepKeepsInv(s: Slice, tid: TaskId, s': Slice)
    requires Inv(s) && StepAck(s, tid, s')
    ensures Inv(s')
  {
    hide Inv;
    TaskFact(s, tid);
    EndKeepsInv(s, tid);
    if s.tasks[tid].mid in s.stream {
      AckKeepsInv(End(s, tid), s.tasks[tid].mid, s.tasks[tid].envelope, s');
    }
  }

  lemma AckKeepsInv(s: Slice, mid: MsgId, e: Envelope, s': Slice)
    requires Inv(s) && mid in s.stream && Settled(s.row, s.turns, e.key)
    requires s.stream[mid].envelope == e
    requires s' == s.(stream := s.stream[mid := s.stream[mid].(delivery := Acked)])
    ensures Inv(s')
  {
    StreamKeepsInv(s, mid, s');
  }

  lemma WriteThenEnd(s: Slice, tid: TaskId, w: Write)
    requires Inv(s) && !w.SaveToken?
    ensures Inv(End(WriteRow(s, w), tid))
  {
    WriteRowKeepsInv(s, w);
    EndKeepsInv(WriteRow(s, w), tid);
  }

  lemma ReadResumingKeepsInv(s: Slice, tid: TaskId, s': Slice)
    requires Inv(s) && StepReadResuming(s, tid, s')
    ensures Inv(s')
  {
    assert TaskOk(s, tid);
    TasksOnlyKeepsInv(s, s', tid);
  }

  lemma TryLockKeepsInv(s: Slice, tid: TaskId, s': Slice)
    requires Inv(s) && StepTryLock(s, tid, s')
    ensures Inv(s')
  {
    hide Inv, ReadsRow, KeepsStatuses, NoNewExecution, TouchesOnly;
    TaskFact(s, tid);
    TasksOnlyKeepsInv(s, s', tid);
  }

  lemma FetchKeepsInv(s: Slice, tid: TaskId, mid: MsgId, s': Slice)
    requires Inv(s) && StepFetch(s, tid, mid, s')
    ensures Inv(s')
  {
    NewTaskKeepsInv(s, tid, Input(mid, s.stream[mid].envelope, Fetched), false);
  }

  lemma DeliverOrTrimKeepsInv(s: Slice, a: Action, s': Slice)
    requires Inv(s) && Step(s, a, s') && (a.Deliver? || a.TrimEntry?)
    ensures Inv(s')
  {
    hide Inv;
    StreamKeepsInv(s, a.mid, s');
  }

  lemma LifecycleStepKeepsInv(s: Slice, a: Action, s': Slice)
    requires Inv(s) && Step(s, a, s')
    requires a.Lifecycle? || a.BeginCreate? || a.EndCreate? || a.BeginResume? || a.ReadResuming? || a.FailResume?
             || a.CommitResume? || a.BeginRecover? || a.FailRecover?
    ensures Inv(s')
  {
    hide Inv, WriteRow, Known, ReadsRow, KeepsStatuses, NoNewExecution, TouchesOnly;
    match a
    case Lifecycle(w) => WriteRowKeepsInv(s, w);
    case BeginCreate(tid) => NewTaskKeepsInv(s, tid, Create, false);
    case EndCreate(tid, w) => WriteThenEnd(s, tid, w);
    case BeginResume(tid, v, locked) => NewTaskKeepsInv(s, tid, Task.Resume(v, locked), locked);
    case ReadResuming(tid) => ReadResumingKeepsInv(s, tid, s');
    case FailResume(tid, orphaned) =>
      var v := s.tasks[tid].version;
      WriteThenEnd(s, tid, if orphaned then ResumeOrphaned(v) else ResumeFailed(v));
    case CommitResume(tid, minted) =>
      WriteThenEnd(s, tid, ResumeRunning(s.tasks[tid].version, Coalesce(s.tasks[tid].token, minted)));
    case BeginRecover(tid) => NewTaskKeepsInv(s, tid, Recover(s.row.version), false);
    case FailRecover(tid, orphaned) =>
      var v := s.tasks[tid].version;
      WriteThenEnd(s, tid, if orphaned then RecoverOrphaned(v) else RecoverFailed(v));
  }

  /** The invariant is inductive. */
  lemma StepKeepsInv(s: Slice, a: Action, s': Slice)
    requires Inv(s) && Step(s, a, s')
    ensures Inv(s')
  {
    hide Inv, NoNewExecution, KeepsStatuses, ReadsRow, TouchesOnly;
    hide StepEnqueue, StepPublish, StepRefuse, StepSweepOutbox, StepSweepResult, StepFetch, StepTryLock, StepReadRow,
         StepReadTurn, StepReadEarliest, StepMarkUncertain, StepPostUncertain, StepMarkAborted, StepPostDenied,
         StepAdmitTurn, StepComplete, StepPostReply, StepMarkTurn, StepAck, StepBegin, StepEndCreate, StepBeginResume,
         StepReadResuming, StepFailResume, StepCommitResume, StepFailRecover, StepDeliver, StepTrimEntry, WriteRow, End,
         Standalone;
    match a
    case Enqueue(key, seqno, rid, text) => EnqueueKeepsInv(s, key, seqno, rid, text, s');
    case Publish(rid, mid, committed) => PublishKeepsInv(s, rid, mid, committed, s');
    case Refuse(rid) => RefuseKeepsInv(s, rid, s');
    case SweepOutbox(rid) => SweepOutboxKeepsInv(s, rid, s');
    case Deliver(mid) => DeliverOrTrimKeepsInv(s, a, s');
    case TrimEntry(mid) => DeliverOrTrimKeepsInv(s, a, s');
    case SweepResult(k) => SweepResultKeepsInv(s, k, s');
    case Fetch(tid, mid) => FetchKeepsInv(s, tid, mid, s');
    case TryLock(tid) => TryLockKeepsInv(s, tid, s');
    case ReadRow(tid) => ReadRowKeepsInv(s, tid, s');
    case ReadTurn(tid) => ReadTurnKeepsInv(s, tid, s');
    case ReadEarliest(tid, denied) => ReadEarliestKeepsInv(s, tid, denied, s');
    case MarkUncertain(tid) => MarkUncertainKeepsInv(s, tid, s');
    case PostUncertain(tid, o) => PostUncertainKeepsInv(s, tid, o, s');
    case MarkAborted(tid) => MarkAbortedKeepsInv(s, tid, s');
    case PostDenied(tid) => PostDeniedKeepsInv(s, tid, s');
    case AdmitTurn(tid) => AdmitKeepsInv(s, tid, s');
    case Complete(tid, reply, token) => CompleteKeepsInv(s, tid, reply, token, s');
    case PostReply(tid, o) => PostReplyKeepsInv(s, tid, o, s');
    case MarkTurn(tid) => MarkTurnKeepsInv(s, tid, s');
    case Ack(tid) => AckStepKeepsInv(s, tid, s');
    case Crash(tid) => EndKeepsInv(s, tid);
    case _ => LifecycleStepKeepsInv(s, a, s');
  }
}
