/**
 What a handler decides after its reads, in terms of the ledger; and that the verdict of the workspace check is obeyed: a
 turn whose workspace was denied is not run by that handler, and one that was refused is never run at all.
 */
module DurableVerdicts {
  import opened Options
  import opened Lifecycle
  import opened Durable
  import opened DurableInvariant
  import opened DurableSteps
  import opened DurableRuns
  import opened DurableEnvelopes
  import SessionStore

  // ---- The decision -----------------------------------------------------------------------------

  /** Where a handler is after its decision; without a message it has deferred and given up. */
  ghost predicate IsAt(s: Slice, tid: TaskId, pc: InputPc) {
    At(s, tid) && s.tasks[tid].pc == pc
  }

  ghost predicate SomeoneEarlier(s: Slice, e: Envelope) {
    exists k :: k in s.turns && s.turns[k].version == e.version && !Terminal(s.turns[k].status)
                && e.key in s.turns && s.turns[k].seqno < s.turns[e.key].seqno
  }

  lemma EarlierBlocks(s: Slice, e: Envelope, k: Key)
    requires Inv(s) && e.key in s.turns && s.turns[e.key].version == e.version
    requires k in s.turns && s.turns[k].version == e.version && !Terminal(s.turns[k].status) && s.turns[k].seqno < s.turns[e.key].seqno
    ensures Blocked(s.turns, e.version, e.key)
  {
    hide Inv;
    var m := EarliestExists(s.turns, e.version, s.turns.Keys, k);
    assert IsEarliest(s.turns, e.version, m) && m != e.key;
  }

  /** The FIFO check, in terms of sequence numbers: an open turn waits exactly for an earlier open one, and a retired one
      for any open one of its version. */
  lemma BlockedMeans(s: Slice, e: Envelope)
    requires Inv(s) && e.key in s.turns && s.turns[e.key].version == e.version
    ensures !Terminal(s.turns[e.key].status) ==> (Blocked(s.turns, e.version, e.key) <==> SomeoneEarlier(s, e))
    ensures Terminal(s.turns[e.key].status) ==>
              (Blocked(s.turns, e.version, e.key) <==>
                exists k :: k in s.turns && s.turns[k].version == e.version && !Terminal(s.turns[k].status))
  {
    hide Inv;
    if Blocked(s.turns, e.version, e.key) {
      var k :| IsEarliest(s.turns, e.version, k) && k != e.key;
      LedgerFact(s, k);
      assert k in s.turns && s.turns[k].version == e.version && !Terminal(s.turns[k].status);
    }
    if SomeoneEarlier(s, e) {
      var k :| k in s.turns && s.turns[k].version == e.version && !Terminal(s.turns[k].status) && s.turns[k].seqno < s.turns[e.key].seqno;
      EarlierBlocks(s, e, k);
    }
    if Terminal(s.turns[e.key].status) {
      if k :| k in s.turns && s.turns[k].version == e.version && !Terminal(s.turns[k].status) {
        var m := EarliestExists(s.turns, e.version, s.turns.Keys, k);
        assert IsEarliest(s.turns, e.version, m) && m != e.key;
      }
    }
  }

  /** The decision of the handler of an open or retired turn, as the ledger stands when it is made. */
  ghost predicate Decides(s: Slice, tid: TaskId, denied: bool, s': Slice)
    requires At(s, tid) && s.tasks[tid].envelope.key in s.turns
  {
    var e := s.tasks[tid].envelope;
    var turn := s.turns[e.key];
    if Blocked(s.turns, e.version, e.key) then tid !in s'.tasks
    else match turn.status
         case Queued => if denied then IsAt(s', tid, Denied) else At(s', tid) && s'.tasks[tid].pc.Admitting?
         case Executing => IsAt(s', tid, Interrupted)
         case Uncertain => IsAt(s', tid, Interrupted)
         case Completed => IsAt(s', tid, Posting(turn.result))
         case _ => IsAt(s', tid, Returned)
  }

  lemma DecisionFollowsLedger(s: Slice, tid: TaskId, denied: bool, s': Slice)
    requires Inv(s) && Step(s, ReadEarliest(tid, denied), s')
    ensures At(s, tid) && s.tasks[tid].envelope.key in s.turns && Decides(s, tid, denied, s')
    ensures s'.turns == s.turns && s'.log == s.log && s'.posts == s.posts
  {
    hide Inv, Blocked, NoNewExecution, KeepsStatuses, ReadsRow, TouchesOnly;
    TaskFact(s, tid);
    EnvelopeFact(s, s.tasks[tid].envelope);
  }

  /** In every run the decision follows the ledger as it is at that moment, although the turn was read earlier. */
  lemma DecisionsFollowTheLedger(ss: seq<Slice>, acts: seq<Option<Action>>, i: nat, tid: TaskId, denied: bool)
    requires Run(ss, acts) && i < |acts| && acts[i] == Some(ReadEarliest(tid, denied))
    ensures At(ss[i], tid) && ss[i].tasks[tid].envelope.key in ss[i].turns && Decides(ss[i], tid, denied, ss[i + 1])
  {
    hide Inv, Step, Decides;
    assert Next(ss[i], acts[i], ss[i + 1]);
    RunKeepsInv(ss, acts, i);
    DecisionFollowsLedger(ss[i], tid, denied, ss[i + 1]);
  }

  // ---- Allowed and denied ----------------------------------------------------------------------------

  predicate Judged(pc: InputPc) {
    pc.Admitting? || pc.Denied?
  }

  predicate BeforeDecision(pc: InputPc) {
    pc.Fetched? || pc.Locked? || pc.SawRow? || pc.SawTurn?
  }

  /** The handler is gone, or is past its decision and past what that led to. */
  ghost predicate Beyond(s: Slice, tid: TaskId) {
    At(s, tid) ==> !BeforeDecision(s.tasks[tid].pc) && !Judged(s.tasks[tid].pc)
  }

  lemma SetPcBeyond(s: Slice, tid: TaskId, pc: InputPc)
    requires At(s, tid) && !BeforeDecision(pc) && !Judged(pc)
    ensures Beyond(SetPc(s, tid, pc), tid)
  {}

  lemma ReturnBeyond(s: Slice, tid: TaskId, o: Outcome)
    requires At(s, tid)
    ensures Beyond(Return(s, tid, o), tid)
  {}

  lemma EndBeyond(s: Slice, tid: TaskId)
    ensures Beyond(End(s, tid), tid)
  {}

  lemma ReadIsBeforeDecision(s: Slice, a: Action, s': Slice)
    requires Step(s, a, s') && (a.ReadRow? || a.ReadTurn?)
    ensures At(s, a.tid) && BeforeDecision(s.tasks[a.tid].pc) && At(s', a.tid) && !Judged(s'.tasks[a.tid].pc)
  {
    hide NoNewExecution, KeepsStatuses, ReadsRow, TouchesOnly;
  }

  lemma MarkBeyond(s: Slice, a: Action, s': Slice)
    requires Step(s, a, s') && (a.MarkUncertain? || a.MarkAborted? || a.MarkTurn?)
    ensures Beyond(s', a.tid)
  {
    hide NoNewExecution, KeepsStatuses, ReadsRow, TouchesOnly, SetPc, Return, Beyond, SetTurnStatus;
    if a.MarkUncertain? {
      KeepsTasks(s, Uncertain, a.tid);
      SetPcBeyond(SetTurnStatus(s, s.tasks[a.tid].envelope.key, Uncertain), a.tid, NoticeUncertain);
    } else if a.MarkAborted? {
      var k := s.tasks[a.tid].envelope.key;
      KeepsTasks(s, Aborted, a.tid);
      SetPcBeyond(if k in s.turns && s.turns[k].status.Queued? then SetTurnStatus(s, k, Aborted) else s, a.tid, NoticeDenied);
    } else {
      var status := s.tasks[a.tid].pc.status;
      KeepsTasks(s, status, a.tid);
      ReturnBeyond(SetTurnStatus(s, s.tasks[a.tid].envelope.key, status), a.tid,
                      if status.Delivered? then DeliveredOutcome else AbortedOutcome);
    }
  }

  lemma KeepsTasks(s: Slice, status: TurnStatus, tid: TaskId)
    requires At(s, tid)
    ensures SetTurnStatus(s, s.tasks[tid].envelope.key, status).tasks == s.tasks
  {}

  lemma NoticeBeyond(s: Slice, a: Action, s': Slice)
    requires Step(s, a, s') && (a.PostUncertain? || a.PostDenied? || a.Ack? || a.PostReply?)
    ensures Beyond(s', a.tid)
  {
    hide NoNewExecution, KeepsStatuses, ReadsRow, TouchesOnly, SetPc, Return, End, Beyond;
    if a.PostReply? {
      var s1 := s.(posts := s.posts + [Reply(s.tasks[a.tid].envelope.key, s.tasks[a.tid].pc.reply)]);
      SetPcBeyond(s1, a.tid, Marking(Delivered));
      SetPcBeyond(s1, a.tid, Marking(DeliveryFailed));
      ReturnBeyond(s1, a.tid, Deferred);
    } else {
      ReturnBeyond(s, a.tid, AbortedOutcome);
      ReturnBeyond(s, a.tid, Deferred);
      EndBeyond(s, a.tid);
      SameTasksBeyond(Return(s, a.tid, AbortedOutcome), s', a.tid);
      SameTasksBeyond(Return(s, a.tid, Deferred), s', a.tid);
      SameTasksBeyond(End(s, a.tid), s', a.tid);
    }
  }

  lemma SameTasksBeyond(s: Slice, s': Slice, tid: TaskId)
    requires Beyond(s, tid)
    ensures s'.tasks == s.tasks ==> Beyond(s', tid)
  {}

  lemma ExecuteBeyond(s: Slice, a: Action, s': Slice)
    requires Step(s, a, s') && (a.AdmitTurn? || a.Complete?)
    ensures Beyond(s', a.tid)
  {
    hide NoNewExecution, KeepsStatuses, ReadsRow, TouchesOnly, WriteRow, Return, SetPc, Beyond;
    ReturnBeyond(s, a.tid, AbortedOutcome);
    if a.Complete? || LiveAt(s.row, s.tasks[a.tid].envelope.version) {
      SetPcBeyond(s'.(tasks := s.tasks), a.tid, if a.AdmitTurn? then InExecution else Posting(Some(a.reply)));
    }
  }

  lemma OtherBeyond(s: Slice, a: Action, s': Slice)
    requires Step(s, a, s')
    requires a.BeginCreate? || a.EndCreate? || a.BeginResume? || a.ReadResuming? || a.FailResume? || a.CommitResume?
             || a.BeginRecover? || a.FailRecover? || a.Crash?
    ensures Beyond(s', a.tid)
  {
    hide NoNewExecution, KeepsStatuses, ReadsRow, TouchesOnly, WriteRow;
  }

  lemma BeginIsBeforeDecision(s: Slice, a: Action, s': Slice)
    requires Step(s, a, s') && (a.Fetch? || a.TryLock?)
    ensures a.Fetch? ==> a.tid !in s.tasks
    ensures a.TryLock? ==> At(s, a.tid) && BeforeDecision(s.tasks[a.tid].pc)
    ensures At(s', a.tid) ==> BeforeDecision(s'.tasks[a.tid].pc)
  {
    hide NoNewExecution, KeepsStatuses, ReadsRow, TouchesOnly;
  }

  /** What a handler's own steps, other than its decision, lead to. */
  lemma OwnerGoesOn(s: Slice, a: Action, s': Slice)
    requires Step(s, a, s') && SessionStore.Owner(a).Some? && !a.ReadEarliest?
    ensures Beyond(s', a.tid)
            || (At(s', a.tid) && (a.Fetch? || (At(s, a.tid) && BeforeDecision(s.tasks[a.tid].pc))) && !Judged(s'.tasks[a.tid].pc))
  {
    hide Step, Beyond;
    match a
    case ReadRow(_) => ReadIsBeforeDecision(s, a, s');
    case ReadTurn(_) => ReadIsBeforeDecision(s, a, s');
    case Fetch(_, _) => BeginGoesOn(s, a, s');
    case TryLock(_) => BeginGoesOn(s, a, s');
    case MarkUncertain(_) => MarkBeyond(s, a, s');
    case MarkAborted(_) => MarkBeyond(s, a, s');
    case MarkTurn(_) => MarkBeyond(s, a, s');
    case PostUncertain(_, _) => NoticeBeyond(s, a, s');
    case PostDenied(_) => NoticeBeyond(s, a, s');
    case PostReply(_, _) => NoticeBeyond(s, a, s');
    case Ack(_) => NoticeBeyond(s, a, s');
    case AdmitTurn(_) => ExecuteBeyond(s, a, s');
    case Complete(_, _, _) => ExecuteBeyond(s, a, s');
    case _ => OtherBeyond(s, a, s');
  }

  lemma BeginGoesOn(s: Slice, a: Action, s': Slice)
    requires Step(s, a, s') && (a.Fetch? || a.TryLock?)
    ensures Beyond(s', a.tid) || (At(s', a.tid) && (a.Fetch? || (At(s, a.tid) && BeforeDecision(s.tasks[a.tid].pc))) && !Judged(s'.tasks[a.tid].pc))
  {
    hide Step;
    BeginIsBeforeDecision(s, a, s');
  }

  /** Only a favourable verdict leads to admission, only an unfavourable one to refusal. */
  lemma WhereVerdictsLead(s: Slice, a: Action, s': Slice, tid: TaskId)
    requires Inv(s) && Step(s, a, s') && At(s', tid) && Judged(s'.tasks[tid].pc)
    ensures (At(s, tid) && s.tasks[tid] == s'.tasks[tid] && SessionStore.Owner(a) != Some(tid))
            || a == ReadEarliest(tid, s'.tasks[tid].pc.Denied?)
  {
    hide Inv, Step;
    if SessionStore.Owner(a) == Some(tid) {
      if a.ReadEarliest? {
        DecisionFollowsLedger(s, tid, a.denied, s');
      } else {
        OwnerGoesOn(s, a, s');
      }
    } else {
      StepFrame(s, a, s');
      SessionStore.OthersKeepTask(s, a, s', tid);
    }
  }

  /** A handler decides once. */
  lemma StaysDecided(s: Slice, a: Action, s': Slice, tid: TaskId)
    requires Inv(s) && Step(s, a, s') && (At(s, tid) ==> !BeforeDecision(s.tasks[tid].pc))
    requires a.Fetch? ==> a.tid != tid
    ensures At(s', tid) ==> !BeforeDecision(s'.tasks[tid].pc)
  {
    hide Inv, Step;
    if At(s', tid) {
      StepFrame(s, a, s');
      if SessionStore.Owner(a) != Some(tid) {
        SessionStore.OthersKeepTask(s, a, s', tid);
      } else if a.ReadEarliest? {
        DecisionFollowsLedger(s, tid, a.denied, s');
      } else {
        OwnerGoesOn(s, a, s');
      }
    }
  }

  lemma {:induction false} DecidesOnce(ss: seq<Slice>, acts: seq<Option<Action>>, i: nat, j: nat, tid: TaskId)
    requires Run(ss, acts) && i < j < |ss| && acts[i].Some? && acts[i].value.ReadEarliest? && acts[i].value.tid == tid
    requires forall n :: i < n < j && acts[n].Some? && acts[n].value.Fetch? ==> acts[n].value.tid != tid
    ensures At(ss[j], tid) ==> !BeforeDecision(ss[j].tasks[tid].pc)
    decreases j - i
  {
    hide Inv, Step;
    RunKeepsInv(ss, acts, j - 1);
    assert Next(ss[j - 1], acts[j - 1], ss[j]);
    if j == i + 1 {
      DecisionFollowsLedger(ss[i], tid, acts[i].value.denied, ss[j]);
    } else {
      DecidesOnce(ss, acts, i, j - 1, tid);
      if acts[j - 1].Some? {
        StaysDecided(ss[j - 1], acts[j - 1].value, ss[j], tid);
      }
    }
  }

  // ---- Over runs -----------------------------------------------------------------------------------

  /** Whoever is to admit or to refuse a turn has decided so at one moment `i`, on that verdict, and has done nothing
      since; at that moment the turn was queued and not blocked. */
  lemma {:induction false} JudgedByVerdict(ss: seq<Slice>, acts: seq<Option<Action>>, j: nat, tid: TaskId) returns (i: nat)
    requires Run(ss, acts) && j < |ss| && At(ss[j], tid) && Judged(ss[j].tasks[tid].pc)
    ensures i < j && acts[i] == Some(ReadEarliest(tid, ss[j].tasks[tid].pc.Denied?))
    ensures forall n :: i < n < j ==> acts[n].None? || SessionStore.Owner(acts[n].value) != Some(tid)
    ensures At(ss[i], tid) && ss[i].tasks[tid].envelope == ss[j].tasks[tid].envelope
    ensures var e := ss[i].tasks[tid].envelope;
            e.key in ss[i].turns && ss[i].turns[e.key].status.Queued? && !Blocked(ss[i].turns, e.version, e.key)
  {
    hide Inv, Step, Blocked;
    i := 0;
    if j > 0 {
      RunKeepsInv(ss, acts, j - 1);
      assert Next(ss[j - 1], acts[j - 1], ss[j]);
      if acts[j - 1].Some? {
        WhereVerdictsLead(ss[j - 1], acts[j - 1].value, ss[j], tid);
      }
      if acts[j - 1].Some? && SessionStore.Owner(acts[j - 1].value) == Some(tid) {
        i := j - 1;
        DecisionFollowsLedger(ss[i], tid, ss[j].tasks[tid].pc.Denied?, ss[j]);
        StepFrame(ss[i], acts[i].value, ss[j]);
      } else {
        i := JudgedByVerdict(ss, acts, j - 1, tid);
      }
    }
  }

  /** Every admission rests on a favourable verdict that its handler has obtained itself and acted on next. */
  lemma AdmittedWasAllowed(ss: seq<Slice>, acts: seq<Option<Action>>, j: nat, tid: TaskId) returns (i: nat)
    requires Run(ss, acts) && j < |acts| && acts[j] == Some(AdmitTurn(tid))
    ensures i < j && acts[i] == Some(ReadEarliest(tid, false))
    ensures forall n :: i < n < j ==> acts[n].None? || SessionStore.Owner(acts[n].value) != Some(tid)
  {
    hide Inv, StepAdmitTurn;
    assert Next(ss[j], acts[j], ss[j + 1]);
    AdmitterIsJudged(ss[j], tid, ss[j + 1]);
    i := JudgedByVerdict(ss, acts, j, tid);
  }

  lemma AdmitterIsJudged(s: Slice, tid: TaskId, s': Slice)
    requires StepAdmitTurn(s, tid, s')
    ensures At(s, tid) && s.tasks[tid].pc.Admitting?
  {}

  /** Over every run, no admission follows a denial of the same handler. */
  lemma DeniedIsNeverAdmitted(ss: seq<Slice>, acts: seq<Option<Action>>, i: nat, j: nat, tid: TaskId) returns (m: nat)
    requires Run(ss, acts) && i < j < |acts| && acts[i] == Some(ReadEarliest(tid, true)) && acts[j] == Some(AdmitTurn(tid))
    ensures i < m < j && acts[m].Some? && acts[m].value.Fetch? && acts[m].value.tid == tid
  {
    hide Inv, Step;
    m := i;
    var k := AdmittedWasAllowed(ss, acts, j, tid);
    assert i < k;
    if m' :| i < m' < k && acts[m'].Some? && acts[m'].value.Fetch? && acts[m'].value.tid == tid {
      m := m';
    } else {
      DecidesOnce(ss, acts, i, k, tid);
      assert Next(ss[k], acts[k], ss[k + 1]);
      DeciderHasRead(ss[k], tid, false, ss[k + 1]);
    }
  }

  lemma DeciderHasRead(s: Slice, tid: TaskId, denied: bool, s': Slice)
    requires Step(s, ReadEarliest(tid, denied), s')
    ensures At(s, tid) && s.tasks[tid].pc.SawTurn?
  {
    hide Blocked, NoNewExecution, KeepsStatuses, ReadsRow, TouchesOnly;
  }

  // ---- Refused turns ---------------------------------------------------------------------------------

  lemma RefusalAborts(s: Slice, tid: TaskId, s': Slice)
    requires Inv(s) && Step(s, MarkAborted(tid), s')
    ensures At(s, tid) && s.tasks[tid].pc.Denied? && s.tasks[tid].envelope.key in s'.turns
    ensures s'.turns[s.tasks[tid].envelope.key].status.Aborted? && IsAt(s', tid, NoticeDenied)
  {
    hide Inv, NoNewExecution, KeepsStatuses, ReadsRow, TouchesOnly;
    TaskFact(s, tid);
  }

  ghost predicate IsAborted(s: Slice, k: Key) {
    k in s.turns && s.turns[k].status.Aborted?
  }

  lemma {:induction false} StaysAborted(ss: seq<Slice>, acts: seq<Option<Action>>, i: nat, j: nat, k: Key)
    requires Run(ss, acts) && i <= j < |ss| && IsAborted(ss[i], k)
    ensures IsAborted(ss[j], k)
    decreases j - i
  {
    hide Inv, Step;
    if i < j {
      StaysAborted(ss, acts, i, j - 1, k);
      RunKeepsInv(ss, acts, j - 1);
      assert Next(ss[j - 1], acts[j - 1], ss[j]);
      if acts[j - 1].Some? {
        StepStaysDone(ss[j - 1], acts[j - 1].value, ss[j], k);
      }
    }
  }

  lemma AbortedIsNotLogged(s: Slice, k: Key)
    requires Inv(s) && IsAborted(s, k)
    ensures !InLog(s.log, k)
  {
    hide Inv;
    forall n | 0 <= n < |s.log| ensures s.log[n].key != k {
      LogFact(s, n);
    }
  }

  /** A turn that has been refused stays aborted in every later state and is never executed. */
  lemma RefusedIsNeverRun(ss: seq<Slice>, acts: seq<Option<Action>>, i: nat, j: nat, tid: TaskId)
    requires Run(ss, acts) && i < j < |ss| && acts[i] == Some(MarkAborted(tid))
    ensures At(ss[i], tid) && IsAborted(ss[j], ss[i].tasks[tid].envelope.key) && !InLog(ss[j].log, ss[i].tasks[tid].envelope.key)
  {
    hide Inv, Step;
    RunKeepsInv(ss, acts, i);
    RunKeepsInv(ss, acts, j);
    assert Next(ss[i], acts[i], ss[i + 1]);
    RefusalAborts(ss[i], tid, ss[i + 1]);
    StaysAborted(ss, acts, i + 1, j, ss[i].tasks[tid].envelope.key);
    AbortedIsNotLogged(ss[j], ss[i].tasks[tid].envelope.key);
  }

  lemma MarkWrites(s: Slice, a: Action, s': Slice)
    requires Inv(s) && Step(s, a, s') && WritesTurn(a)
    ensures At(s, a.tid) && s.tasks[a.tid].envelope.key in s'.turns && s.tasks[a.tid].envelope.key in s.turns
    ensures var k := s.tasks[a.tid].envelope.key;
            s'.turns[k].status.Aborted? ==> a.MarkAborted? || s.turns[k].status.Aborted?
  {
    hide Inv, Step;
    WriterAt(s, a, s');
    TaskFact(s, a.tid);
    if a.AdmitTurn? || a.Complete? {
      ExecutionWrites(s, a, s');
    } else {
      RetirementWrites(s, a, s');
    }
  }

  lemma ExecutionWrites(s: Slice, a: Action, s': Slice)
    requires Step(s, a, s') && (a.AdmitTurn? || a.Complete?) && At(s, a.tid) && s.tasks[a.tid].envelope.key in s.turns
    ensures var k := s.tasks[a.tid].envelope.key;
            k in s'.turns && (s'.turns[k].status.Aborted? ==> s.turns[k].status.Aborted?)
  {
    hide NoNewExecution, KeepsStatuses, ReadsRow, TouchesOnly, WriteRow, SetPc, Return;
  }

  lemma RetirementWrites(s: Slice, a: Action, s': Slice)
    requires Step(s, a, s') && (a.MarkUncertain? || a.MarkAborted? || a.MarkTurn?) && At(s, a.tid)
    requires s.tasks[a.tid].envelope.key in s.turns
    requires a.MarkTurn? ==> (s.tasks[a.tid].pc.Marking? ==> !s.tasks[a.tid].pc.status.Aborted?)
    ensures var k := s.tasks[a.tid].envelope.key;
            k in s'.turns && (s'.turns[k].status.Aborted? ==> a.MarkAborted? || s.turns[k].status.Aborted?)
  {
    hide NoNewExecution, KeepsStatuses, ReadsRow, TouchesOnly, SetPc, Return;
  }

  lemma WriterAt(s: Slice, a: Action, s': Slice)
    requires Step(s, a, s') && WritesTurn(a)
    ensures At(s, a.tid)
  {
    hide Step;
    StepFrame(s, a, s');
  }

  lemma WhoAborts(s: Slice, a: Action, s': Slice, k: Key)
    requires Inv(s) && Step(s, a, s') && IsAborted(s', k) && !IsAborted(s, k)
    ensures a.MarkAborted? && At(s, a.tid) && s.tasks[a.tid].envelope.key == k
  {
    hide Inv, Step;
    StepFrame(s, a, s');
    if WritesTurn(a) {
      MarkWrites(s, a, s');
    }
    if k !in s.turns {
      NewTurnIsQueued(s, a, s', k);
    } else if a.SweepResult? {
      StepStaysDone(s, a, s', k);
    }
  }

  /** And only such a turn is ever aborted: some handler of it has obtained an unfavourable verdict while it was queued and
      not blocked, and acted on that verdict next. */
  lemma {:induction false} AbortedWasDenied(ss: seq<Slice>, acts: seq<Option<Action>>, j: nat, k: Key)
      returns (i: nat, n: nat, tid: TaskId)
    requires Run(ss, acts) && j < |ss| && IsAborted(ss[j], k)
    ensures i < n < j && acts[i] == Some(ReadEarliest(tid, true)) && acts[n] == Some(MarkAborted(tid))
    ensures forall l :: i < l < n ==> acts[l].None? || SessionStore.Owner(acts[l].value) != Some(tid)
    ensures At(ss[i], tid) && ss[i].tasks[tid].envelope.key == k && k in ss[i].turns && ss[i].turns[k].status.Queued?
  {
    hide Inv, Step;
    i, n, tid := 0, 0, 0;
    if j > 0 {
      RunKeepsInv(ss, acts, j - 1);
      assert Next(ss[j - 1], acts[j - 1], ss[j]);
      if IsAborted(ss[j - 1], k) {
        i, n, tid := AbortedWasDenied(ss, acts, j - 1, k);
      } else {
        WhoAborts(ss[j - 1], acts[j - 1].value, ss[j], k);
        n, tid := j - 1, acts[j - 1].value.tid;
        RefusalAborts(ss[n], tid, ss[j]);
        i := JudgedByVerdict(ss, acts, n, tid);
      }
    }
  }

  /** A refusal is announced only for a turn that is aborted and has never been executed, and by the next step of its handler. */
  lemma {:induction false} RefusalIsAnnounced(ss: seq<Slice>, acts: seq<Option<Action>>, j: nat, p: nat)
    requires Run(ss, acts) && j < |ss| && p < |ss[j].posts| && ss[j].posts[p].DeniedNotice?
    ensures IsAborted(ss[j], ss[j].posts[p].key) && !InLog(ss[j].log, ss[j].posts[p].key)
  {
    hide Inv, Step;
    RunKeepsInv(ss, acts, j);
    if j > 0 {
      RunKeepsInv(ss, acts, j - 1);
      assert Next(ss[j - 1], acts[j - 1], ss[j]);
      if acts[j - 1].Some? {
        StepFrame(ss[j - 1], acts[j - 1].value, ss[j]);
      }
      var k := ss[j].posts[p].key;
      if p < |ss[j - 1].posts| {
        RefusalIsAnnounced(ss, acts, j - 1, p);
      } else {
        AnnouncerIsAt(ss[j - 1], acts[j - 1].value, ss[j]);
        TaskFact(ss[j - 1], acts[j - 1].value.tid);
      }
      StaysAborted(ss, acts, j - 1, j, k);
      AbortedIsNotLogged(ss[j], k);
    }
  }

  lemma AnnouncerIsAt(s: Slice, a: Action, s': Slice)
    requires Step(s, a, s') && a.PostDenied?
    ensures At(s, a.tid) && s.tasks[a.tid].pc.NoticeDenied? && IsAt(s', a.tid, Returned)
    ensures s'.posts == s.posts + [DeniedNotice(s.tasks[a.tid].envelope.key)]
  {
    hide NoNewExecution, KeepsStatuses, ReadsRow, TouchesOnly;
  }
}
