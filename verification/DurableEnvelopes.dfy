/**
 Where the envelope of an open turn is: a message that someone works on is still unacknowledged in the stream, and a turn
 whose outbox row the relay has given up before anything of it reached the stream is stuck for good.
 */
module DurableEnvelopes {
  import opened Options
  import opened Lifecycle
  import opened Durable
  import opened DurableInvariant
  import opened DurableSteps
  import opened DurableRuns

  // ---- What each action leaves alone ---------------------------------------------------------------

  /** No handler appears or changes its message, except the one that fetches. */
  ghost predicate TasksFrom(ts: map<TaskId, Task>, ts': map<TaskId, Task>, fetched: Option<TaskId>) {
    forall t :: t in ts' && ts'[t].Input? && Some(t) != fetched ==>
                  t in ts && ts[t].Input? && ts'[t].mid == ts[t].mid && ts'[t].envelope == ts[t].envelope
  }

  predicate WritesTurn(a: Action) {
    a.AdmitTurn? || a.Complete? || a.MarkUncertain? || a.MarkAborted? || a.MarkTurn?
  }

  predicate MovesEntry(a: Action) {
    a.Publish? || a.Deliver? || a.TrimEntry? || a.Ack?
  }

  predicate WritesOutbox(a: Action) {
    a.Enqueue? || a.Publish? || a.Refuse? || a.SweepOutbox?
  }

  /** The turn that an action may write. */
  ghost predicate MayWrite(s: Slice, a: Action, k: Key) {
    || (WritesTurn(a) && At(s, a.tid) && s.tasks[a.tid].envelope.key == k)
    || (a.SweepResult? && a.key == k && k in s.turns && Terminal(s.turns[k].status))
  }

  ghost predicate Frame(s: Slice, a: Action, s': Slice) {
    && TasksFrom(s.tasks, s'.tasks, if a.Fetch? then Some(a.tid) else None)
    && (!MovesEntry(a) ==> s'.stream == s.stream)
    && (!WritesOutbox(a) ==> s'.outbox == s.outbox)
    && (forall k :: k in s.turns && !MayWrite(s, a, k) ==> k in s'.turns && s'.turns[k] == s.turns[k])
    && (WritesTurn(a) ==> At(s, a.tid))
    && (forall k :: k in s'.turns && k !in s.turns ==>
          (a.Enqueue? && s'.turns[k].status.Queued?) || (a.AdmitTurn? && s.tasks[a.tid].envelope.key == k))
    && s'.posts == s.posts + Posted(s, a)
  }

  /** What an action posts. */
  function Posted(s: Slice, a: Action): seq<Post> {
    match a
    case PostReply(tid, _) => if At(s, tid) && s.tasks[tid].pc.Posting? then [Reply(s.tasks[tid].envelope.key, s.tasks[tid].pc.reply)] else []
    case PostUncertain(tid, _) => if At(s, tid) then [UncertainNotice(s.tasks[tid].envelope.key)] else []
    case PostDenied(tid) => if At(s, tid) then [DeniedNotice(s.tasks[tid].envelope.key)] else []
    case _ => []
  }

  lemma EndTasks(s: Slice, tid: TaskId)
    ensures TasksFrom(s.tasks, End(s, tid).tasks, None)
  {}

  lemma SetPcTasks(s: Slice, tid: TaskId, pc: InputPc)
    requires At(s, tid)
    ensures TasksFrom(s.tasks, SetPc(s, tid, pc).tasks, None)
  {}

  lemma ReturnTasks(s: Slice, tid: TaskId, o: Outcome)
    requires At(s, tid)
    ensures TasksFrom(s.tasks, Return(s, tid, o).tasks, None)
  {}

  lemma GoOnTasks(s: Slice, tid: TaskId, c: Choice)
    requires At(s, tid) && (c.Go? ==> !c.pc.InExecution?)
    ensures TasksFrom(s.tasks, GoOn(s, tid, c).tasks, None)
  {
    hide SetPc, Return, TasksFrom;
    match c
    case Go(pc) => SetPcTasks(s, tid, pc);
    case Back(o) => ReturnTasks(s, tid, o);
  }

  lemma WriterFrame(s: Slice, a: Action, s': Slice)
    requires Step(s, a, s')
    requires a.Lifecycle? || a.EndCreate? || a.FailResume? || a.CommitResume? || a.FailRecover? || a.Crash?
    ensures Frame(s, a, s')
  {
    hide NoNewExecution, KeepsStatuses, ReadsRow, TouchesOnly, WriteRow;
  }

  lemma BeginnerFrame(s: Slice, a: Action, s': Slice)
    requires Step(s, a, s') && (a.BeginCreate? || a.BeginResume? || a.BeginRecover? || a.Fetch?)
    ensures Frame(s, a, s')
  {
    hide NoNewExecution, KeepsStatuses, ReadsRow, TouchesOnly;
  }

  lemma ReadResumingFrame(s: Slice, a: Action, s': Slice)
    requires Step(s, a, s') && a.ReadResuming?
    ensures Frame(s, a, s')
  {
    hide NoNewExecution, KeepsStatuses, ReadsRow, TouchesOnly, End;
    EndTasks(s, a.tid);
  }

  lemma TryLockFrame(s: Slice, a: Action, s': Slice)
    requires Step(s, a, s') && a.TryLock?
    ensures Frame(s, a, s')
  {
    hide NoNewExecution, KeepsStatuses, ReadsRow, TouchesOnly, End, SetPc, TasksFrom;
    EndTasks(s, a.tid);
    SetPcTasks(s, a.tid, Locked);
  }

  lemma PlumbingFrame(s: Slice, a: Action, s': Slice)
    requires Step(s, a, s')
    requires a.Publish? || a.Refuse? || a.SweepOutbox? || a.Deliver? || a.TrimEntry?
    ensures Frame(s, a, s')
  {
    hide NoNewExecution, KeepsStatuses, ReadsRow, TouchesOnly;
  }

  lemma LedgerFrame(s: Slice, a: Action, s': Slice)
    requires Step(s, a, s') && (a.Enqueue? || a.SweepResult?)
    ensures Frame(s, a, s')
  {
    hide NoNewExecution, KeepsStatuses, ReadsRow, TouchesOnly, WriteRow;
  }

  lemma ReadFrame(s: Slice, a: Action, s': Slice)
    requires Step(s, a, s') && (a.ReadRow? || a.ReadTurn?)
    ensures Frame(s, a, s')
  {
    hide NoNewExecution, KeepsStatuses, ReadsRow, TouchesOnly, SetPc, Return, TasksFrom;
    var k, pc := s.tasks[a.tid].envelope.key, s.tasks[a.tid].pc;
    ReturnTasks(s, a.tid, AbortedOutcome);
    if a.ReadRow? {
      SetPcTasks(s, a.tid, SawRow(s.row.token));
    } else {
      SetPcTasks(s, a.tid, SawTurn(pc.token, if k in s.turns then Some(s.turns[k]) else None));
    }
  }

  lemma ChooseFrame(s: Slice, a: Action, s': Slice)
    requires Step(s, a, s') && (a.ReadEarliest? || a.PostReply?)
    ensures Frame(s, a, s')
  {
    hide NoNewExecution, KeepsStatuses, ReadsRow, TouchesOnly, Blocked, GoOn, Choose, TasksFrom;
    var e, pc := s.tasks[a.tid].envelope, s.tasks[a.tid].pc;
    if a.ReadEarliest? {
      GoOnTasks(s, a.tid, Choose(e, pc.turn, pc.token, Blocked(s.turns, e.version, e.key), a.denied));
    } else {
      var c := match a.post
               case Accepted => Go(Marking(Delivered))
               case Gone => Go(Marking(DeliveryFailed))
               case Unprocessable => Go(Marking(DeliveryFailed))
               case Transient => Back(Deferred);
      GoOnTasks(s.(posts := s.posts + [Reply(e.key, pc.reply)]), a.tid, c);
    }
  }

  lemma NoticeFrame(s: Slice, a: Action, s': Slice)
    requires Step(s, a, s') && (a.PostUncertain? || a.PostDenied? || a.Ack?)
    ensures Frame(s, a, s')
  {
    hide NoNewExecution, KeepsStatuses, ReadsRow, TouchesOnly, Return, End, TasksFrom;
    ReturnTasks(s, a.tid, AbortedOutcome);
    ReturnTasks(s, a.tid, Deferred);
    EndTasks(s, a.tid);
  }

  lemma MarkUncertainFrame(s: Slice, a: Action, s': Slice)
    requires Step(s, a, s') && a.MarkUncertain?
    ensures Frame(s, a, s')
  {
    hide NoNewExecution, KeepsStatuses, ReadsRow, TouchesOnly, SetPc, TasksFrom;
    SetPcTasks(SetTurnStatus(s, s.tasks[a.tid].envelope.key, Uncertain), a.tid, NoticeUncertain);
  }

  lemma MarkAbortedFrame(s: Slice, a: Action, s': Slice)
    requires Step(s, a, s') && a.MarkAborted?
    ensures Frame(s, a, s')
  {
    hide NoNewExecution, KeepsStatuses, ReadsRow, TouchesOnly, SetPc, TasksFrom;
    var k := s.tasks[a.tid].envelope.key;
    SetPcTasks(if k in s.turns && s.turns[k].status.Queued? then SetTurnStatus(s, k, Aborted) else s, a.tid, NoticeDenied);
  }

  lemma MarkTurnFrame(s: Slice, a: Action, s': Slice)
    requires Step(s, a, s') && a.MarkTurn?
    ensures Frame(s, a, s')
  {
    hide NoNewExecution, KeepsStatuses, ReadsRow, TouchesOnly, Return, TasksFrom;
    var k, status := s.tasks[a.tid].envelope.key, s.tasks[a.tid].pc.status;
    ReturnTasks(SetTurnStatus(s, k, status), a.tid, if status.Delivered? then DeliveredOutcome else AbortedOutcome);
  }

  lemma AdmitFrame(s: Slice, a: Action, s': Slice)
    requires Step(s, a, s') && a.AdmitTurn?
    ensures Frame(s, a, s')
  {
    hide NoNewExecution, KeepsStatuses, ReadsRow, TouchesOnly, WriteRow, Return, SetPc, TasksFrom;
    ReturnTasks(s, a.tid, AbortedOutcome);
    if LiveAt(s.row, s.tasks[a.tid].envelope.version) {
      SetPcTasks(s'.(tasks := s.tasks), a.tid, InExecution);
    }
  }

  lemma CompleteFrame(s: Slice, a: Action, s': Slice)
    requires Step(s, a, s') && a.Complete?
    ensures Frame(s, a, s')
  {
    hide NoNewExecution, KeepsStatuses, ReadsRow, TouchesOnly, WriteRow, SetPc, TasksFrom;
    SetPcTasks(s'.(tasks := s.tasks), a.tid, Posting(Some(a.reply)));
  }

  lemma StepFrame(s: Slice, a: Action, s': Slice)
    requires Step(s, a, s')
    ensures Frame(s, a, s')
  {
    hide Step, Frame;
    match a
    case ReadRow(_) => ReadFrame(s, a, s');
    case ReadTurn(_) => ReadFrame(s, a, s');
    case ReadEarliest(_, _) => ChooseFrame(s, a, s');
    case PostReply(_, _) => ChooseFrame(s, a, s');
    case MarkUncertain(_) => MarkUncertainFrame(s, a, s');
    case MarkAborted(_) => MarkAbortedFrame(s, a, s');
    case MarkTurn(_) => MarkTurnFrame(s, a, s');
    case PostUncertain(_, _) => NoticeFrame(s, a, s');
    case PostDenied(_) => NoticeFrame(s, a, s');
    case Ack(_) => NoticeFrame(s, a, s');
    case AdmitTurn(_) => AdmitFrame(s, a, s');
    case Complete(_, _, _) => CompleteFrame(s, a, s');
    case TryLock(_) => TryLockFrame(s, a, s');
    case BeginCreate(_) => BeginnerFrame(s, a, s');
    case BeginResume(_, _, _) => BeginnerFrame(s, a, s');
    case ReadResuming(_) => ReadResumingFrame(s, a, s');
    case BeginRecover(_) => BeginnerFrame(s, a, s');
    case Fetch(_, _) => BeginnerFrame(s, a, s');
    case Lifecycle(_) => WriterFrame(s, a, s');
    case EndCreate(_, _) => WriterFrame(s, a, s');
    case FailResume(_, _) => WriterFrame(s, a, s');
    case CommitResume(_, _) => WriterFrame(s, a, s');
    case FailRecover(_, _) => WriterFrame(s, a, s');
    case Crash(_) => WriterFrame(s, a, s');
    case Enqueue(_, _, _, _) => LedgerFrame(s, a, s');
    case SweepResult(_) => LedgerFrame(s, a, s');
    case _ => PlumbingFrame(s, a, s');
  }

  // ---- Messages that are worked on stay in the stream -------------------------------------------------

  ghost predicate TaskHasEntry(s: Slice, t: Task) {
    t.Input? ==> Settled(s.row, s.turns, t.envelope.key) || (t.mid in s.stream && !s.stream[t.mid].delivery.Acked?)
  }

  ghost predicate EntryOk(s: Slice, m: MsgId)
    requires m in s.stream
  {
    s.stream[m].delivery.Acked? ==> Settled(s.row, s.turns, s.stream[m].envelope.key)
  }

  /** A turn that someone has taken up, and that is not settled, has an unacknowledged entry. */
  ghost predicate TurnHasEntry(s: Slice, k: Key)
    requires k in s.turns
  {
    s.turns[k].status.Queued? || Settled(s.row, s.turns, k) || Unacked(s.stream, k)
  }

  ghost predicate EntriesOk(s: Slice) {
    && (forall m :: m in s.stream ==> EntryOk(s, m))
    && (forall t :: t in s.tasks ==> TaskHasEntry(s, s.tasks[t]))
    && (forall k :: k in s.turns ==> TurnHasEntry(s, k))
  }

  /** An unacknowledged entry of an unsettled turn stays, unacknowledged. */
  lemma EntryStays(s: Slice, a: Action, s': Slice, m: MsgId)
    requires Inv(s) && Step(s, a, s') && m in s.stream && !s.stream[m].delivery.Acked?
    requires !Settled(s.row, s.turns, s.stream[m].envelope.key)
    ensures m in s'.stream && !s'.stream[m].delivery.Acked? && s'.stream[m].envelope == s.stream[m].envelope
  {
    hide Inv, Step, Settled;
    StepFrame(s, a, s');
    if MovesEntry(a) {
      EntryMoves(s, a, s', m);
    }
  }

  /** The handler acknowledges one entry, of a settled turn. */
  lemma AckFact(s: Slice, a: Action, s': Slice)
    requires Inv(s) && Step(s, a, s') && a.Ack?
    ensures At(s, a.tid)
    ensures var mid := s.tasks[a.tid].mid;
            if mid in s.stream
            then s'.stream == s.stream[mid := s.stream[mid].(delivery := Acked)] && Settled(s.row, s.turns, s.stream[mid].envelope.key)
            else s'.stream == s.stream
  {
    hide Inv, Settled, NoNewExecution, KeepsStatuses, ReadsRow, TouchesOnly, End;
    TaskFact(s, a.tid);
  }

  lemma EntryMoves(s: Slice, a: Action, s': Slice, m: MsgId)
    requires Inv(s) && Step(s, a, s') && MovesEntry(a) && m in s.stream && !s.stream[m].delivery.Acked?
    requires !Settled(s.row, s.turns, s.stream[m].envelope.key)
    ensures m in s'.stream && !s'.stream[m].delivery.Acked? && s'.stream[m].envelope == s.stream[m].envelope
  {
    hide Inv, Settled, NoNewExecution, KeepsStatuses, ReadsRow, TouchesOnly, StepAck;
    if a.Ack? {
      AckFact(s, a, s');
    } else if a.Publish? {
      EnvelopesFact(s);
    }
  }

  /** An entry that is acknowledged after a step was so before, or its turn is settled. */
  lemma AckedBefore(s: Slice, a: Action, s': Slice, m: MsgId)
    requires Inv(s) && Step(s, a, s') && m in s'.stream && s'.stream[m].delivery.Acked?
    ensures m in s.stream && s'.stream[m].envelope == s.stream[m].envelope
    ensures s.stream[m].delivery.Acked? || Settled(s.row, s.turns, s.stream[m].envelope.key)
  {
    hide Inv, Step, Settled;
    StepFrame(s, a, s');
    if MovesEntry(a) {
      AckMoves(s, a, s', m);
    }
  }

  lemma AckMoves(s: Slice, a: Action, s': Slice, m: MsgId)
    requires Inv(s) && Step(s, a, s') && MovesEntry(a) && m in s'.stream && s'.stream[m].delivery.Acked?
    ensures m in s.stream && s'.stream[m].envelope == s.stream[m].envelope
    ensures s.stream[m].delivery.Acked? || Settled(s.row, s.turns, s.stream[m].envelope.key)
  {
    hide Inv, Settled, NoNewExecution, KeepsStatuses, ReadsRow, TouchesOnly, StepAck;
    if a.Ack? {
      AckFact(s, a, s');
    }
  }

  lemma FetchedEntry(s: Slice, a: Action, s': Slice)
    requires Step(s, a, s') && a.Fetch?
    ensures a.tid in s'.tasks && a.mid in s.stream && s'.tasks[a.tid] == Input(a.mid, s.stream[a.mid].envelope, Fetched)
    ensures s'.stream == s.stream && s'.row == s.row && s'.turns == s.turns
  {
    hide NoNewExecution, KeepsStatuses, ReadsRow, TouchesOnly;
  }

  lemma StepKeepsTaskEntry(s: Slice, a: Action, s': Slice, t: TaskId)
    requires Inv(s) && EntriesOk(s) && Step(s, a, s') && t in s'.tasks
    ensures TaskHasEntry(s', s'.tasks[t])
  {
    hide Inv, Step, Settled;
    if s'.tasks[t].Input? {
      StepFrame(s, a, s');
      if a.Fetch? && a.tid == t {
        FetchedEntry(s, a, s');
        assert EntryOk(s, a.mid);
      } else {
        assert TaskHasEntry(s, s.tasks[t]);
        TaskFact(s, t);
        var k := s.tasks[t].envelope.key;
        if Settled(s.row, s.turns, k) {
          StepStaysSettled(s, a, s', k);
        } else {
          EntryStays(s, a, s', s.tasks[t].mid);
        }
      }
    }
  }

  lemma StepKeepsEntry(s: Slice, a: Action, s': Slice, m: MsgId)
    requires Inv(s) && EntriesOk(s) && Step(s, a, s') && m in s'.stream
    ensures EntryOk(s', m)
  {
    hide Inv, Step, Settled;
    if s'.stream[m].delivery.Acked? {
      AckedBefore(s, a, s', m);
      assert EntryOk(s, m);
      StepStaysSettled(s, a, s', s.stream[m].envelope.key);
    }
  }

  lemma UnackedStays(s: Slice, a: Action, s': Slice, k: Key)
    requires Inv(s) && Step(s, a, s') && Unacked(s.stream, k) && !Settled(s.row, s.turns, k)
    ensures Unacked(s'.stream, k)
  {
    hide Inv, Step, Settled;
    var m :| m in s.stream && !s.stream[m].delivery.Acked? && s.stream[m].envelope.key == k;
    EntryStays(s, a, s', m);
  }

  /** A handler at work on an unsettled turn shows where its entry is. */
  lemma HandlerShowsEntry(s: Slice, t: TaskId)
    requires Inv(s) && EntriesOk(s) && At(s, t) && !Settled(s.row, s.turns, s.tasks[t].envelope.key)
    ensures Unacked(s.stream, s.tasks[t].envelope.key)
  {
    hide Inv, Settled;
    assert TaskHasEntry(s, s.tasks[t]);
    TaskFact(s, t);
    assert s.stream[s.tasks[t].mid].envelope.key == s.tasks[t].envelope.key;
  }

  lemma NewTurnIsQueued(s: Slice, a: Action, s': Slice, k: Key)
    requires Inv(s) && Step(s, a, s') && k in s'.turns && k !in s.turns
    ensures s'.turns[k].status.Queued?
  {
    hide Inv, Step;
    StepFrame(s, a, s');
    if a.AdmitTurn? {
      TaskFact(s, a.tid);
    }
  }

  lemma StepKeepsTurnEntry(s: Slice, a: Action, s': Slice, k: Key)
    requires Inv(s) && EntriesOk(s) && Step(s, a, s') && k in s'.turns
    ensures TurnHasEntry(s', k)
  {
    hide Inv, Step, Settled, Unacked;
    if k !in s.turns {
      NewTurnIsQueued(s, a, s', k);
    } else if Settled(s.row, s.turns, k) {
      StepStaysSettled(s, a, s', k);
    } else if !s'.turns[k].status.Queued? {
      StepFrame(s, a, s');
      assert TurnHasEntry(s, k);
      if s.turns[k].status.Queued? {
        assert MayWrite(s, a, k);
        HandlerShowsEntry(s, a.tid);
      }
      UnackedStays(s, a, s', k);
    }
  }

  lemma StepKeepsEntries(s: Slice, a: Action, s': Slice)
    requires Inv(s) && EntriesOk(s) && Step(s, a, s')
    ensures EntriesOk(s')
  {
    hide Inv, Step, TaskHasEntry, EntryOk, TurnHasEntry;
    forall m | m in s'.stream ensures EntryOk(s', m) {
      StepKeepsEntry(s, a, s', m);
    }
    forall t | t in s'.tasks ensures TaskHasEntry(s', s'.tasks[t]) {
      StepKeepsTaskEntry(s, a, s', t);
    }
    forall k | k in s'.turns ensures TurnHasEntry(s', k) {
      StepKeepsTurnEntry(s, a, s', k);
    }
  }

  lemma {:induction false} RunKeepsEntries(ss: seq<Slice>, acts: seq<Option<Action>>, i: nat)
    requires Run(ss, acts) && i < |ss|
    ensures EntriesOk(ss[i])
  {
    hide Step, Inv;
    if i > 0 {
      RunKeepsEntries(ss, acts, i - 1);
      RunKeepsInv(ss, acts, i - 1);
      assert Next(ss[i - 1], acts[i - 1], ss[i]);
      if acts[i - 1].Some? {
        StepKeepsEntries(ss[i - 1], acts[i - 1].value, ss[i]);
      }
    }
  }

  // ---- Turns that the relay has given up ------------------------------------------------------------------

  /** The relay still attempts a row of the turn, or an entry of it is unacknowledged. */
  ghost predicate Deliverable(s: Slice, k: Key) {
    (exists r :: r in s.outbox && Attempted(s.outbox[r]) && s.outbox[r].envelope.key == k) || Unacked(s.stream, k)
  }

  /** Nothing of the queued turn is left but outbox rows that nobody attempts. */
  ghost predicate GivenUp(s: Slice, k: Key) {
    && k in s.turns && s.turns[k].status.Queued?
    && (forall r :: r in s.outbox && s.outbox[r].envelope.key == k ==> !Attempted(s.outbox[r]))
    && (forall m :: m in s.stream ==> s.stream[m].envelope.key != k)
    && (forall t :: t in s.tasks && s.tasks[t].Input? ==> s.tasks[t].envelope.key != k)
  }

  /** An open turn of a live version that is not deliverable has been given up, and only such a one. */
  lemma UndeliverableIsGivenUp(s: Slice, v: nat, k: Key)
    requires Inv(s) && EntriesOk(s) && LiveAt(s.row, v) && k in s.turns && s.turns[k].version == v
    requires !Terminal(s.turns[k].status) && !s.turns[k].status.Uncertain? && !Deliverable(s, k)
    ensures GivenUp(s, k)
  {
    hide Inv;
    assert TurnHasEntry(s, k);
    forall m | m in s.stream ensures s.stream[m].envelope.key != k {
      assert EntryOk(s, m);
    }
    forall t | t in s.tasks && s.tasks[t].Input? ensures s.tasks[t].envelope.key != k {
      if s.tasks[t].envelope.key == k {
        HandlerShowsEntry(s, t);
      }
    }
  }

  lemma OutboxStaysGivenUp(s: Slice, a: Action, s': Slice, k: Key)
    requires GivenUp(s, k) && Step(s, a, s') && (a.Publish? || a.Refuse? || a.SweepOutbox?)
    ensures forall r :: r in s'.outbox && s'.outbox[r].envelope.key == k ==> !Attempted(s'.outbox[r])
  {
    hide NoNewExecution, KeepsStatuses, ReadsRow, TouchesOnly;
  }

  lemma EnqueueStaysGivenUp(s: Slice, a: Action, s': Slice, k: Key)
    requires GivenUp(s, k) && Step(s, a, s') && a.Enqueue?
    ensures forall r :: r in s'.outbox && s'.outbox[r].envelope.key == k ==> !Attempted(s'.outbox[r])
  {
    hide NoNewExecution, KeepsStatuses, ReadsRow, TouchesOnly, WriteRow;
  }

  lemma PublicationStaysGivenUp(s: Slice, a: Action, s': Slice, k: Key)
    requires GivenUp(s, k) && Step(s, a, s') && a.Publish?
    ensures forall m :: m in s'.stream ==> s'.stream[m].envelope.key != k
  {
    hide NoNewExecution, KeepsStatuses, ReadsRow, TouchesOnly;
  }

  lemma StreamStaysGivenUp(s: Slice, a: Action, s': Slice, k: Key)
    requires GivenUp(s, k) && Step(s, a, s') && (a.Deliver? || a.TrimEntry? || a.Ack?)
    ensures forall m :: m in s'.stream ==> s'.stream[m].envelope.key != k
  {
    hide NoNewExecution, KeepsStatuses, ReadsRow, TouchesOnly, End;
  }

  lemma StepStaysGivenUp(s: Slice, a: Action, s': Slice, k: Key)
    requires GivenUp(s, k) && Step(s, a, s')
    ensures GivenUp(s', k) && s'.turns[k] == s.turns[k]
  {
    hide Step;
    StepFrame(s, a, s');
    if a.Fetch? {
      FetchedEntry(s, a, s');
    }
    if a.Enqueue? {
      EnqueueStaysGivenUp(s, a, s', k);
    } else if WritesOutbox(a) {
      OutboxStaysGivenUp(s, a, s', k);
    }
    if a.Publish? {
      PublicationStaysGivenUp(s, a, s', k);
    } else if MovesEntry(a) {
      StreamStaysGivenUp(s, a, s', k);
    }
  }

  /** The second poison stop: a turn that was given up stays queued for ever, and in every later state nothing of its
      version that was accepted after it has been executed, nor itself. */
  lemma {:induction false} GivenUpStop(ss: seq<Slice>, acts: seq<Option<Action>>, i: nat, j: nat, k: Key)
    requires Run(ss, acts) && i <= j < |ss| && GivenUp(ss[i], k)
    ensures GivenUp(ss[j], k) && ss[j].turns[k] == ss[i].turns[k]
    ensures forall n :: 0 <= n < |ss[j].log| && ss[j].log[n].version == ss[i].turns[k].version ==>
              ss[j].log[n].key != k && ss[j].log[n].seqno < ss[i].turns[k].seqno
    decreases j - i
  {
    hide Step, Inv;
    if i < j {
      GivenUpStop(ss, acts, i, j - 1, k);
      assert Next(ss[j - 1], acts[j - 1], ss[j]);
      if acts[j - 1].Some? {
        StepStaysGivenUp(ss[j - 1], acts[j - 1].value, ss[j], k);
      }
    }
    RunKeepsInv(ss, acts, j);
    QueuedBlocksLater(ss[j], k);
  }

  lemma QueuedBlocksLater(s: Slice, k: Key)
    requires Inv(s) && k in s.turns && s.turns[k].status.Queued?
    ensures forall n :: 0 <= n < |s.log| && s.log[n].version == s.turns[k].version ==>
              s.log[n].key != k && s.log[n].seqno < s.turns[k].seqno
  {
    hide Inv;
    LedgerFact(s, k);
    forall n | 0 <= n < |s.log| && s.log[n].version == s.turns[k].version
      ensures s.log[n].key != k && s.log[n].seqno < s.turns[k].seqno
    {
      LogFact(s, n);
    }
  }
}
