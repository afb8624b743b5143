/**
 The bot's sagas, the janitor's sweeps and the runner's jobs as they are written: procedures that update
 the tables of one session, one transaction at a time.

 A procedure of several transactions calls `Interfere` between them: everything that other handlers, the
 bot, the janitor and the relay may have done meanwhile. What the procedures read is kept in local
 variables, as in the source; the ghost field `tasks` records the same values as the state of the
 handler, which is how the invariant speaks of them.
 */
module SessionStore {
  import opened Options
  import opened Lifecycle
  import opened Durable
  import opened DurableInvariant
  import opened DurableSteps
  import InputQuota

  /** A sequence of actions, none of them by task `tid` when one is given. */
  ghost predicate Path(ss: seq<Slice>, acts: seq<Action>, without: Option<TaskId>) {
    && |ss| == |acts| + 1
    && forall i :: 0 <= i < |acts| ==> Step(ss[i], acts[i], ss[i + 1]) && (without.Some? ==> Owner(acts[i]) != without)
  }

  ghost predicate Reaches(s: Slice, s': Slice, without: Option<TaskId>) {
    exists ss: seq<Slice>, acts: seq<Action> :: Path(ss, acts, without) && ss[0] == s && ss[|acts|] == s'
  }

  /** The task that performs an action. */
  function Owner(a: Action): Option<TaskId> {
    match a
    case Lifecycle(_) => None
    case Enqueue(_, _, _, _) => None
    case Publish(_, _, _) => None
    case Refuse(_) => None
    case SweepOutbox(_) => None
    case Deliver(_) => None
    case TrimEntry(_) => None
    case SweepResult(_) => None
    case _ => Some(a.tid)
  }

  lemma ReachesSelf(s: Slice, without: Option<TaskId>)
    ensures Reaches(s, s, without)
  {
    hide Step;
    assert Path([s], [], without);
  }

  lemma StepReaches(s: Slice, a: Action, s': Slice)
    requires Step(s, a, s')
    ensures Reaches(s, s', None)
  {
    hide Step;
    assert Path([s, s'], [a], None);
  }

  lemma ReachesTransitive(s: Slice, s': Slice, s'': Slice, without: Option<TaskId>)
    requires Reaches(s, s', None) && Reaches(s', s'', without)
    ensures Reaches(s, s'', None)
  {
    hide Step, Owner;
    var ss, acts :| Path(ss, acts, None) && ss[0] == s && ss[|acts|] == s';
    var ss', acts' :| Path(ss', acts', without) && ss'[0] == s' && ss'[|acts'|] == s'';
    var tt, bb := ss + ss'[1..], acts + acts';
    forall i | 0 <= i < |bb| ensures Step(tt[i], bb[i], tt[i + 1]) {
      if i < |acts| {
        assert tt[i] == ss[i] && tt[i + 1] == ss[i + 1];
      } else {
        assert tt[i] == ss'[i - |acts|] && tt[i + 1] == ss'[i - |acts| + 1];
      }
    }
    assert Path(tt, bb, None);
    assert tt[|bb|] == s'';
  }

  lemma ThenStep(start: Slice, s: Slice, a: Action, s': Slice)
    requires Reaches(start, s, None) && Step(s, a, s')
    ensures Reaches(start, s', None)
  {
    hide Step;
    StepReaches(s, a, s');
    ReachesTransitive(start, s, s', None);
  }

  /** A step of another task leaves this task where it was, and cannot take its lock away. */
  ghost predicate SameTask(s: Slice, s': Slice, tid: TaskId) {
    && tid in s'.tasks && tid in s.tasks && s'.tasks[tid] == s.tasks[tid]
    && (s.lock == Some(tid) ==> s'.lock == Some(tid))
  }

  lemma OthersKeepTask(s: Slice, a: Action, s': Slice, tid: TaskId)
    requires Step(s, a, s') && Owner(a) != Some(tid) && tid in s.tasks
    ensures SameTask(s, s', tid)
  {
    hide WriteRow, End, NoNewExecution, KeepsStatuses, ReadsRow;
    hide StepBegin, StepEndCreate, StepBeginResume, StepReadResuming, StepFailResume, StepCommitResume,
         StepFailRecover, StepEnqueue, StepPublish, StepRefuse, StepSweepOutbox, StepDeliver, StepTrimEntry, StepSweepResult,
         StepFetch, StepTryLock, StepReadRow, StepReadTurn, StepReadEarliest, StepMarkUncertain,
         StepPostUncertain, StepMarkAborted, StepPostDenied, StepAdmitTurn, StepComplete, StepPostReply,
         StepMarkTurn, StepAck;
  }

  lemma {:induction false} PathKeepsTask(ss: seq<Slice>, acts: seq<Action>, n: nat, tid: TaskId)
    requires Path(ss, acts, Some(tid)) && n < |ss| && tid in ss[0].tasks && Inv(ss[0])
    ensures Inv(ss[n]) && SameTask(ss[0], ss[n], tid)
  {
    hide Step, Inv;
    if n > 0 {
      PathKeepsTask(ss, acts, n - 1, tid);
      StepKeepsInv(ss[n - 1], acts[n - 1], ss[n]);
      OthersKeepTask(ss[n - 1], acts[n - 1], ss[n], tid);
    }
  }

  lemma InterferenceKeeps(s: Slice, s': Slice, tid: TaskId)
    requires Reaches(s, s', Some(tid)) && Inv(s) && tid in s.tasks
    ensures Inv(s') && SameTask(s, s', tid)
  {
    hide Step, Inv;
    var ss, acts :| Path(ss, acts, Some(tid)) && ss[0] == s && ss[|acts|] == s';
    PathKeepsTask(ss, acts, |acts|, tid);
  }

  lemma SentFact(s: Slice)
    requires Inv(s)
    ensures s.sent.Keys == s.turns.Keys
  {
    hide Ledger, Logged, DurableInvariant.Chained, EnvelopesOk, NotLost, TasksOk, PostsOk;
  }

  /** In a ledger with distinct sequence numbers, at most one turn is the earliest. */
  lemma EarliestIsUnique(s: Slice, v: nat, k: Key, key: Key)
    requires Inv(s) && IsEarliest(s.turns, v, k)
    ensures Blocked(s.turns, v, key) <==> k != key
  {
    hide Logged, DurableInvariant.Chained, EnvelopesOk, NotLost, TasksOk, PostsOk, SentOk;
  }

  lemma ReturnedIsSettled(s: Slice, tid: TaskId)
    requires Inv(s) && At(s, tid) && s.tasks[tid].pc.Returned?
    ensures Settled(s.row, s.turns, s.tasks[tid].envelope.key)
  {
    hide Inv;
    TaskFact(s, tid);
  }

  // The larger transactions, as steps.

  /** What the input saga's transaction writes: the turn and its outbox row together. */
  ghost predicate Enqueued(s: Slice, key: Key, seqno: nat, rid: RowId, text: string, s': Slice) {
    var e := Envelope(key, s.row.version, s.row.host, text);
    s' == s.(row := s.row.(status := Running),
             turns := s.turns[key := Turn(seqno, s.row.version, Queued, None)],
             nextSeq := seqno + 1,
             outbox := s.outbox[rid := OutboxRow(e, false, 0)],
             sent := s.sent[key := e])
  }

  lemma EnqueueIsStep(s: Slice, key: Key, seqno: nat, rid: RowId, text: string, s': Slice)
    requires Live(s.row) && key !in s.sent && key !in s.turns && s.nextSeq <= seqno && rid !in s.outbox
    requires Enqueued(s, key, seqno, rid, text, s')
    ensures Step(s, Enqueue(key, seqno, rid, text), s')
    ensures key in s'.turns && s'.turns[key].status.Queued? && s'.turns[key].version == s'.row.version
    ensures Unpublished(s'.outbox, key)
  {
    hide NoNewExecution, KeepsStatuses, ReadsRow, TouchesOnly;
    assert rid in s'.outbox && s'.outbox[rid].envelope.key == key;
  }

  /** What the admission transaction writes. */
  ghost predicate Admitted(s: Slice, tid: TaskId, e: Envelope, token: Option<Token>, s': Slice)
    requires At(s, tid)
  {
    var turns := UpsertExecuting(s.turns, e, s.nextSeq);
    && e.key in turns
    && s' == s.(row := s.row.(status := Running),
                turns := turns,
                nextSeq := if e.key in s.turns then s.nextSeq else s.nextSeq + 1,
                log := s.log + [Exec(e.key, e.version, turns[e.key].seqno, e.text, token, None)],
                tasks := s.tasks[tid := s.tasks[tid].(pc := InExecution)])
  }

  lemma AdmitterFact(s: Slice, tid: TaskId)
    requires Inv(s) && At(s, tid) && s.tasks[tid].pc.Admitting?
    ensures var e := s.tasks[tid].envelope; e.key in s.turns && s.turns[e.key].status.Queued? && s.turns[e.key].version == e.version
  {
    hide Inv;
    TaskFact(s, tid);
    EnvelopeFact(s, s.tasks[tid].envelope);
  }

  lemma AdmittedFact(s: Slice, tid: TaskId, e: Envelope, token: Option<Token>, s': Slice)
    requires At(s, tid) && Admitted(s, tid, e, token, s')
    requires e.key in s.turns && s.turns[e.key].status.Queued? && s.turns[e.key].version == e.version
    ensures s'.row == s.row.(status := Running) && s'.turns == s.turns[e.key := s.turns[e.key].(status := Executing)]
    ensures s'.log == s.log + [Exec(e.key, e.version, s.turns[e.key].seqno, e.text, token, None)]
  {}

  lemma AdmitIsStep(s: Slice, tid: TaskId, e: Envelope, token: Option<Token>, s': Slice)
    requires At(s, tid) && s.tasks[tid].pc == Admitting(token) && s.tasks[tid].envelope == e && LiveAt(s.row, e.version)
    requires Admitted(s, tid, e, token, s')
    ensures Step(s, AdmitTurn(tid), s')
    ensures At(s', tid) && s'.tasks[tid] == s.tasks[tid].(pc := InExecution)
  {
    hide NoNewExecution, KeepsStatuses, ReadsRow, TouchesOnly;
  }

  lemma RefusedIsStep(s: Slice, tid: TaskId, s': Slice)
    requires At(s, tid) && s.tasks[tid].pc.Admitting? && !LiveAt(s.row, s.tasks[tid].envelope.version)
    requires s' == Return(s, tid, AbortedOutcome)
    ensures Step(s, AdmitTurn(tid), s')
  {
    hide NoNewExecution, KeepsStatuses, ReadsRow, TouchesOnly, Return;
  }

  lemma MarkTurnIsStep(s: Slice, tid: TaskId, status: TurnStatus, s': Slice)
    requires At(s, tid) && s.tasks[tid].pc == Marking(status)
    requires s' == Return(SetTurnStatus(s, s.tasks[tid].envelope.key, status), tid,
                          if status.Delivered? then DeliveredOutcome else AbortedOutcome)
    ensures Step(s, MarkTurn(tid), s')
  {
    hide NoNewExecution, KeepsStatuses, ReadsRow, TouchesOnly, Return, SetTurnStatus;
  }

  lemma PostUncertainIsStep(s: Slice, tid: TaskId, post: PostOutcome, s': Slice)
    requires At(s, tid) && s.tasks[tid].pc.NoticeUncertain?
    requires s' == Return(s.(posts := s.posts + [UncertainNotice(s.tasks[tid].envelope.key)]), tid,
                          if post.Accepted? || post.Gone? then AbortedOutcome else Deferred)
    ensures Step(s, PostUncertain(tid, post), s')
  {
    hide NoNewExecution, KeepsStatuses, ReadsRow, TouchesOnly;
  }

  lemma MarkAbortedIsStep(s: Slice, tid: TaskId, s': Slice)
    requires At(s, tid) && s.tasks[tid].pc.Denied? && s.tasks[tid].envelope.key in s.turns
    requires s.turns[s.tasks[tid].envelope.key].status.Queued?
    requires var k := s.tasks[tid].envelope.key;
             s' == s.(turns := s.turns[k := s.turns[k].(status := Aborted)],
                      tasks := s.tasks[tid := s.tasks[tid].(pc := NoticeDenied)])
    ensures Step(s, MarkAborted(tid), s')
  {
    hide NoNewExecution, KeepsStatuses, ReadsRow, TouchesOnly;
  }

  lemma PostDeniedIsStep(s: Slice, tid: TaskId, s': Slice)
    requires At(s, tid) && s.tasks[tid].pc.NoticeDenied?
    requires s' == Return(s.(posts := s.posts + [DeniedNotice(s.tasks[tid].envelope.key)]), tid, AbortedOutcome)
    ensures Step(s, PostDenied(tid), s')
  {
    hide NoNewExecution, KeepsStatuses, ReadsRow, TouchesOnly;
  }

  lemma FailResumeIsStep(s: Slice, tid: TaskId, orphaned: bool, s1: Slice, s': Slice)
    requires tid in s.tasks && s.tasks[tid].Resuming?
    requires s1 == if s.row.version == s.tasks[tid].version && s.row.status.Resuming?
                   then s.(row := s.row.(status := if orphaned then Orphaned else Failed)) else s
    requires s' == End(s1, tid)
    ensures Step(s, FailResume(tid, orphaned), s')
  {
    hide NoNewExecution, KeepsStatuses, ReadsRow, TouchesOnly, End;
    var v := s.tasks[tid].version;
    assert s1 == WriteRow(s, if orphaned then ResumeOrphaned(v) else ResumeFailed(v));
  }

  lemma PostReplyIsStep(s: Slice, tid: TaskId, post: PostOutcome, s': Slice)
    requires At(s, tid) && s.tasks[tid].pc.Posting?
    requires var posted := s.(posts := s.posts + [Reply(s.tasks[tid].envelope.key, s.tasks[tid].pc.reply)]);
             match post
             case Accepted => s' == SetPc(posted, tid, Marking(Delivered))
             case Transient => s' == Return(posted, tid, Deferred)
             case _ => s' == SetPc(posted, tid, Marking(DeliveryFailed))
    ensures Step(s, PostReply(tid, post), s')
  {
    hide NoNewExecution, KeepsStatuses, ReadsRow, TouchesOnly, Return, SetPc;
  }

  /** What the completion transaction writes. */
  ghost predicate Completes(s: Slice, tid: TaskId, e: Envelope, reply: string, token: Option<Token>, s': Slice)
    requires At(s, tid) && |s.log| > 0
  {
    var n := |s.log| - 1;
    s' == s.(row := if LiveAt(s.row, e.version) then s.row.(token := Coalesce(token, s.row.token)) else s.row,
             turns := if e.key !in s.turns then s.turns
                      else s.turns[e.key := s.turns[e.key].(status := Completed, result := Some(reply))],
             log := s.log[n := s.log[n].(result := Some(Result(reply, token)))],
             tasks := s.tasks[tid := s.tasks[tid].(pc := Posting(Some(reply)))])
  }

  lemma CompletedFact(s: Slice, tid: TaskId, e: Envelope, reply: string, token: Option<Token>, s': Slice)
    requires At(s, tid) && |s.log| > 0 && e.key in s.turns && Completes(s, tid, e, reply, token, s')
    ensures s'.turns == s.turns[e.key := s.turns[e.key].(status := Completed, result := Some(reply))]
    ensures s'.row == if s.row.status in {Running, Idle} && s.row.version == e.version && token.Some?
                      then s.row.(token := token) else s.row
  {}

  lemma CompleteIsStep(s: Slice, tid: TaskId, e: Envelope, reply: string, token: Option<Token>, s': Slice)
    requires At(s, tid) && s.tasks[tid].pc.InExecution? && s.tasks[tid].envelope == e && |s.log| > 0
    requires Completes(s, tid, e, reply, token, s')
    ensures Step(s, Complete(tid, reply, token), s')
    ensures At(s', tid) && s'.tasks[tid] == s.tasks[tid].(pc := Posting(Some(reply)))
  {
    hide NoNewExecution, KeepsStatuses, ReadsRow, TouchesOnly;
  }

  lemma CommitResumeIsStep(s: Slice, tid: TaskId, minted: Option<Token>, s1: Slice, s': Slice)
    requires tid in s.tasks && s.tasks[tid].Resuming?
    requires var t := s.tasks[tid];
             s1 == if s.row.version == t.version && s.row.status.Resuming?
                   then s.(row := s.row.(status := Running, token := Coalesce(t.token, minted)),
                           eraStart := s.eraStart[t.version := Coalesce(t.token, minted)])
                   else s
    requires s' == End(s1, tid)
    ensures Step(s, CommitResume(tid, minted), s')
  {
    hide NoNewExecution, KeepsStatuses, ReadsRow, TouchesOnly;
    assert s1 == WriteRow(s, ResumeRunning(s.tasks[tid].version, Coalesce(s.tasks[tid].token, minted)));
  }

  lemma ReadTokenIsCurrent(s: Slice, tid: TaskId)
    requires Inv(s) && tid in s.tasks && s.tasks[tid].Resuming?
    ensures s.row.version == s.tasks[tid].version && s.row.status.Resuming? ==> s.row.token == s.tasks[tid].token
  {
    hide Inv;
    TaskFact(s, tid);
  }

  lemma EarliestDecides(s: Slice, e: Envelope, earliest: Option<Key>)
    requires Inv(s)
    requires earliest.Some? ==> IsEarliest(s.turns, e.version, earliest.value)
    requires earliest.None? ==> forall k :: !IsEarliest(s.turns, e.version, k)
    ensures Blocked(s.turns, e.version, e.key) <==> earliest.Some? && earliest.value != e.key
  {
    hide Inv;
    if earliest.Some? {
      EarliestIsUnique(s, e.version, earliest.value, e.key);
    }
  }

  /** What is to be done with a turn, as it is in the ledger. */
  ghost predicate Fits(c: Choice, blocked: bool, turn: Turn, token: Option<Token>, denied: bool) {
    if blocked then c == Back(Deferred)
    else match turn.status
         case Queued => c == Go(if denied then Denied else Admitting(token))
         case Executing => c == Go(Interrupted)
         case Uncertain => c == Go(Interrupted)
         case Completed => c == Go(Posting(turn.result))
         case _ => c == Back(SkippedReplay)
  }

  /** With the turn as it is in the ledger, the branches lead where its status says. */
  lemma ChoiceFitsLedger(e: Envelope, turn: Option<Turn>, token: Option<Token>, blocked: bool, denied: bool, now: Turn)
    requires turn.Some? && turn.value.status == now.status && turn.value.version == e.version
    requires turn.value.status.Completed? ==> turn.value.result == now.result
    ensures var c := Choose(e, turn, token, blocked, denied);
            (c.Go? ==> !c.pc.InExecution?) && Fits(c, blocked, now, token, denied)
  {}

  lemma FollowedFact(s: Slice, tid: TaskId, c: Choice)
    requires At(s, tid) && (c.Go? ==> !c.pc.InExecution?)
    ensures var s' := GoOn(s, tid, c);
            match c
            case Go(pc) => At(s', tid) && s'.tasks[tid] == s.tasks[tid].(pc := pc)
            case Back(o) => if o.Deferred? then tid !in s'.tasks
                            else At(s', tid) && s'.tasks[tid] == s.tasks[tid].(pc := Returned)
  {}

  lemma ReadEarliestIsStep(s: Slice, tid: TaskId, denied: bool, c: Choice, s': Slice)
    requires At(s, tid) && s.tasks[tid].pc.SawTurn? && (c.Go? ==> !c.pc.InExecution?)
    requires var e, pc := s.tasks[tid].envelope, s.tasks[tid].pc;
             c == Choose(e, pc.turn, pc.token, Blocked(s.turns, e.version, e.key), denied)
    requires s' == GoOn(s, tid, c)
    ensures Step(s, ReadEarliest(tid, denied), s')
  {
    hide NoNewExecution, KeepsStatuses, ReadsRow, TouchesOnly, GoOn, Choose, Blocked;
  }

  /** What was read of a turn still holds when its handler decides. */
  lemma ReadTurnIsCurrent(s: Slice, tid: TaskId)
    requires Inv(s) && At(s, tid) && s.tasks[tid].pc.SawTurn?
    ensures var e, turn := s.tasks[tid].envelope, s.tasks[tid].pc.turn;
            && turn.Some? && e.key in s.turns && turn.value.status == s.turns[e.key].status && turn.value.version == e.version
            && (turn.value.status.Completed? ==> turn.value.result == s.turns[e.key].result)
  {
    hide Inv;
    TaskFact(s, tid);
    EnvelopeFact(s, s.tasks[tid].envelope);
  }

  lemma ExecutingHasLog(s: Slice, tid: TaskId)
    requires Inv(s) && At(s, tid) && s.tasks[tid].pc.InExecution?
    ensures |s.log| > 0
  {
    hide Inv;
    TaskFact(s, tid);
  }

  // ---- Why an input job ends as it does -----------------------------------------------------------

  datatype Why =
    | LockHeld                      // somebody else holds the session's lock
    | NotLive                       // the session is not live at the envelope's version and host
    | Waits                         // another turn of the version comes first
    | AlreadyRetired
    | WasInterrupted                // the turn was found executing or uncertain
    | WasRefused                    // the workspace is no longer allowed
    | NoLongerLive                  // the session left its version before the admission
    | HasReply(executed: bool)      // the tool has replied, in this job or an earlier one

  /** `seen` is the session when the reason was established, `post` the fate of the job's post, `denied` the verdict of the
      workspace check. */
  ghost predicate Explains(why: Why, seen: Slice, e: Envelope, denied: bool, post: PostOutcome, o: Outcome) {
    match why
    case LockHeld => seen.lock.Some? && o.Deferred?
    case NotLive => !(seen.row.status in {Running, Idle} && seen.row.version == e.version && seen.row.host == e.host) && o.AbortedOutcome?
    case Waits => Blocked(seen.turns, e.version, e.key) && o.Deferred?
    case AlreadyRetired => e.key in seen.turns && Terminal(seen.turns[e.key].status) && o.SkippedReplay?
    case WasInterrupted =>
      && e.key in seen.turns && (seen.turns[e.key].status.Executing? || seen.turns[e.key].status.Uncertain?)
      && o == if post.Accepted? || post.Gone? then AbortedOutcome else Deferred
    case WasRefused => e.key in seen.turns && seen.turns[e.key].status.Queued? && denied && o.AbortedOutcome?
    case NoLongerLive => !(seen.row.status in {Running, Idle} && seen.row.version == e.version) && !denied && o.AbortedOutcome?
    case HasReply(executed) =>
      && e.key in seen.turns
      && (if executed then seen.turns[e.key].status.Queued? && !denied else seen.turns[e.key].status.Completed?)
      && o == if post.Accepted? then DeliveredOutcome else if post.Transient? then Deferred else AbortedOutcome
  }

  /** What the job leaves behind, for the reasons that make it write or post. */
  ghost predicate Leaves(why: Why, s: Slice, e: Envelope, post: PostOutcome) {
    match why
    case WasInterrupted =>
      e.key in s.turns && s.turns[e.key].status.Uncertain? && |s.posts| > 0 && s.posts[|s.posts| - 1] == UncertainNotice(e.key)
    case WasRefused =>
      && e.key in s.turns && s.turns[e.key].status.Aborted? && !InLog(s.log, e.key)
      && |s.posts| > 0 && s.posts[|s.posts| - 1] == DeniedNotice(e.key)
    case HasReply(_) =>
      e.key in s.turns && (post.Accepted? ==> s.turns[e.key].status.Delivered?)
      && (post.Gone? || post.Unprocessable? ==> s.turns[e.key].status.DeliveryFailed?)
      && (post.Transient? ==> s.turns[e.key].status.Completed?)
    case _ => true
  }

  /** A decision to go on, and what the ledger said when it was taken. */
  ghost predicate Justified(pc: InputPc, token: Option<Token>, seen: Slice, e: Envelope, denied: bool) {
    && e.key in seen.turns && !Blocked(seen.turns, e.version, e.key)
    && match seen.turns[e.key].status
       case Queued => if denied then pc == Denied else pc == Admitting(token)
       case Executing => pc == Interrupted
       case Uncertain => pc == Interrupted
       case Completed => pc == Posting(seen.turns[e.key].result)
       case _ => false
  }

  lemma JustifiedExplains(pc: InputPc, token: Option<Token>, seen: Slice, e: Envelope, denied: bool, post: PostOutcome)
    requires Justified(pc, token, seen, e, denied)
    ensures pc.Interrupted? || pc.Denied? || pc == Admitting(token) || pc.Posting?
    ensures var reply := if post.Accepted? then DeliveredOutcome else if post.Transient? then Deferred else AbortedOutcome;
            && (pc.Interrupted? ==>
                  Explains(WasInterrupted, seen, e, denied, post, if post.Accepted? || post.Gone? then AbortedOutcome else Deferred))
            && (pc.Denied? ==> Explains(WasRefused, seen, e, denied, post, AbortedOutcome))
            && (pc.Posting? ==> Explains(HasReply(false), seen, e, denied, post, reply))
            && (pc == Admitting(token) ==> !denied && Explains(HasReply(true), seen, e, denied, post, reply))
  {
    hide Blocked;
  }

  lemma NothingLeft(s: Slice, e: Envelope, post: PostOutcome)
    ensures Leaves(LockHeld, s, e, post)
  {}

  lemma UncertainStays(s: Slice, tid: TaskId)
    requires Inv(s) && At(s, tid) && s.tasks[tid].pc.NoticeUncertain?
    ensures s.tasks[tid].envelope.key in s.turns && s.turns[s.tasks[tid].envelope.key].status.Uncertain?
  {
    hide Inv;
    TaskFact(s, tid);
  }

  lemma AbortedStays(s: Slice, tid: TaskId)
    requires Inv(s) && At(s, tid) && s.tasks[tid].pc.NoticeDenied?
    ensures var k := s.tasks[tid].envelope.key; k in s.turns && s.turns[k].status.Aborted? && !InLog(s.log, k)
  {
    hide Inv;
    TaskFact(s, tid);
    forall n | 0 <= n < |s.log| ensures s.log[n].key != s.tasks[tid].envelope.key {
      LogFact(s, n);
    }
  }

  lemma CompletedStays(s: Slice, tid: TaskId)
    requires Inv(s) && At(s, tid) && s.tasks[tid].pc.Posting?
    ensures var k := s.tasks[tid].envelope.key; k in s.turns && s.turns[k].status.Completed?
  {
    hide Inv;
    TaskFact(s, tid);
  }

  class Store {
    var row: Row
    var turns: map<Key, Turn>
    var nextSeq: nat
    var outbox: map<RowId, OutboxRow>
    var stream: map<MsgId, Entry>
    var lastId: MsgId
    var lock: Option<TaskId>
    ghost var tasks: map<TaskId, Task>
    ghost var sent: map<Key, Envelope>
    ghost var eraStart: map<nat, Option<Token>>
    ghost var log: seq<Exec>
    ghost var posts: seq<Post>

    ghost function View(): Slice
      reads this
    {
      Slice(row, turns, nextSeq, outbox, stream, lastId, tasks, lock, sent, eraStart, log, posts)
    }

    /** The create saga's INSERT. */
    constructor (host: Host)
      ensures View() == NewSession(host) && Inv(View())
    {
      row := Row(Creating, 0, None, host);
      turns, nextSeq, outbox, stream, lastId, lock := map[], 0, map[], map[], 0, None;
      tasks, sent, eraStart, log, posts := map[], map[], map[], [], [];
      new;
      InvInitially(host);
    }

    // ---- Bot sagas ------------------------------------------------------------------------

    method RunStopSaga() returns (ok: bool)
      requires Inv(View())
      modifies this
      ensures Step(old(View()), Lifecycle(StopSaga), View()) && Inv(View())
      ensures ok <==> old(row.status) in {Creating, Status.Resuming, Running, Idle}
      ensures View() == if ok then old(View()).(row := Row(Stopping, old(row.version) + 1, old(row.token), old(row.host))) else old(View())
      ensures ok ==> forall v :: LiveAt(old(row), v) ==> Over(row, v)
    {
      hide Inv, NoNewExecution, KeepsStatuses, ReadsRow, TouchesOnly;
      ok := row.status.Creating? || row.status.Resuming? || row.status.Running? || row.status.Idle?;
      if ok {
        row := row.(status := Stopping, version := row.version + 1);
      }
      StepKeepsInv(old(View()), Lifecycle(StopSaga), View());
    }

    method RunArchiveSaga() returns (ok: bool)
      requires Inv(View())
      modifies this
      ensures Step(old(View()), Lifecycle(ArchiveSaga), View()) && Inv(View())
      ensures ok <==> old(row.status) in {Running, Idle, Stopped}
      ensures View() == if ok then old(View()).(row := Row(Archived, old(row.version) + 1, old(row.token), old(row.host))) else old(View())
      ensures ok ==> forall v :: LiveAt(old(row), v) ==> Over(row, v)
    {
      hide Inv, NoNewExecution, KeepsStatuses, ReadsRow, TouchesOnly;
      ok := row.status.Running? || row.status.Idle? || row.status.Stopped?;
      if ok {
        row := row.(status := Archived, version := row.version + 1);
      }
      StepKeepsInv(old(View()), Lifecycle(ArchiveSaga), View());
    }

    method RunResumeSaga() returns (ok: bool)
      requires Inv(View())
      modifies this
      ensures Step(old(View()), Lifecycle(ResumeSaga), View()) && Inv(View())
      ensures ok <==> old(row.status).Archived?
      ensures View() == if ok then old(View()).(row := Row(Status.Resuming, old(row.version) + 1, old(row.token), old(row.host)))
                        else old(View())
      ensures ok ==> Over(row, old(row.version))
    {
      hide Inv, NoNewExecution, KeepsStatuses, ReadsRow, TouchesOnly;
      ok := row.status.Archived?;
      if ok {
        row := row.(status := Status.Resuming, version := row.version + 1);
      }
      StepKeepsInv(old(View()), Lifecycle(ResumeSaga), View());
    }

    method RunRestartSaga() returns (ok: bool)
      requires Inv(View())
      modifies this
      ensures Step(old(View()), Lifecycle(RestartSaga), View()) && Inv(View())
      ensures ok <==> old(row.status) in {Running, Idle, Stopped}
      ensures View() == if ok then old(View()).(row := Row(Status.Resuming, old(row.version) + 1, None, old(row.host))) else old(View())
      ensures ok ==> Over(row, old(row.version))
    {
      hide Inv, NoNewExecution, KeepsStatuses, ReadsRow, TouchesOnly;
      ok := row.status.Running? || row.status.Idle? || row.status.Stopped?;
      if ok {
        row := row.(status := Status.Resuming, version := row.version + 1, token := None);
      }
      StepKeepsInv(old(View()), Lifecycle(RestartSaga), View());
    }

    /** The input saga's transaction: the turn, its outbox row and its quota event are written together or not at all.
        `created` is the start of the transaction, `now` the moment after the row lock was obtained. */
    method RunInputSaga(quota: InputQuota.Quota, key: Key, seqno: nat, rid: RowId, text: string, created: real, now: real, bytes: nat,
                        ghost wait: real)
      returns (ok: bool)
      requires Inv(View())
      requires key !in turns && nextSeq <= seqno && rid !in outbox
      requires InputQuota.History(quota.maxMessages, quota.maxBytes, wait, quota.events)
      requires created <= now <= created + wait && forall i :: 0 <= i < |quota.events| ==> quota.events[i].checked <= now
      modifies this, quota
      ensures Inv(View()) && InputQuota.History(quota.maxMessages, quota.maxBytes, wait, quota.events)
      ensures ok <==> Live(old(row))
                      && InputQuota.Admits(quota.maxMessages, quota.maxBytes, old(quota.events), |old(quota.events)|, now, bytes)
      ensures !ok ==> View() == old(View()) && quota.events == old(quota.events)
      ensures ok ==> Step(old(View()), Enqueue(key, seqno, rid, text), View())
      ensures ok ==> && row == Row(Running, old(row.version), old(row.token), old(row.host))
                     && turns == old(turns)[key := Turn(seqno, old(row.version), Queued, None)]
                     && outbox == old(outbox)[rid := OutboxRow(Envelope(key, old(row.version), old(row.host), text), false, 0)]
                     && Unpublished(outbox, key)
                     && quota.events == old(quota.events) + [InputQuota.Accepted(created, now, bytes)]
    {
      hide Inv, Step, Unpublished, Enqueued, InputQuota.History, InputQuota.Admits;
      SentFact(View());
      ok := row.status.Running? || row.status.Idle?;
      if ok {
        ok := quota.TryAccept(created, now, bytes, wait);
      }
      if ok {
        WriteInput(key, seqno, rid, text);
        EnqueueIsStep(old(View()), key, seqno, rid, text, View());
        StepKeepsInv(old(View()), Enqueue(key, seqno, rid, text), View());
      }
    }

    method WriteInput(key: Key, seqno: nat, rid: RowId, text: string)
      modifies this
      ensures Enqueued(old(View()), key, seqno, rid, text, View())
    {
      var envelope := Envelope(key, row.version, row.host, text);
      row := row.(status := Running);
      turns := turns[key := Turn(seqno, row.version, Queued, None)];
      nextSeq := seqno + 1;
      outbox := outbox[rid := OutboxRow(envelope, false, 0)];
      sent := sent[key := envelope];
    }

    // ---- Janitor sweeps -------------------------------------------------------------------

    /** EXISTS (a queued, executing or completed turn of version v). */
    method HasOpenTurn(v: nat) returns (open: bool)
      ensures open <==> exists k :: k in turns && turns[k].version == v && turns[k].status in {Queued, Executing, Completed}
      ensures open <==> Busy(turns, v)
    {
      var rest := turns.Keys;
      open := false;
      while rest != {} && !open
        invariant rest <= turns.Keys
        invariant open ==> Busy(turns, v)
        invariant !open ==> forall k :: k in turns && k !in rest ==> !(turns[k].version == v && Open(turns[k].status))
      {
        var k :| k in rest;
        rest := rest - {k};
        open := turns[k].version == v && Open(turns[k].status);
      }
    }

    method SweepIdleTimeout() returns (swept: bool)
      requires Inv(View())
      modifies this
      ensures Step(old(View()), Lifecycle(IdleSweep), View()) && Inv(View())
      ensures swept <==> old(row.status).Running? && !Busy(turns, old(row.version))
      ensures View() == if swept then old(View()).(row := Row(Idle, old(row.version), old(row.token), old(row.host))) else old(View())
      ensures Busy(turns, row.version) ==> View() == old(View())
    {
      hide Inv, NoNewExecution, KeepsStatuses, ReadsRow, TouchesOnly;
      var open := HasOpenTurn(row.version);
      swept := row.status.Running? && !open;
      if swept {
        row := row.(status := Idle);
      }
      StepKeepsInv(old(View()), Lifecycle(IdleSweep), View());
    }

    method SweepArchiveTimeout() returns (swept: bool)
      requires Inv(View())
      modifies this
      ensures Step(old(View()), Lifecycle(ArchiveSweep), View()) && Inv(View())
      ensures swept <==> old(row.status).Idle? && !Busy(turns, old(row.version))
      ensures View() == if swept then old(View()).(row := Row(Archived, old(row.version) + 1, old(row.token), old(row.host)))
                        else old(View())
      ensures Busy(turns, old(row.version)) ==> View() == old(View())
    {
      hide Inv, NoNewExecution, KeepsStatuses, ReadsRow, TouchesOnly;
      var open := HasOpenTurn(row.version);
      swept := row.status.Idle? && !open;
      if swept {
        row := row.(status := Archived, version := row.version + 1);
      }
      StepKeepsInv(old(View()), Lifecycle(ArchiveSweep), View());
    }

    method SweepStopTimeout(hasHost: bool) returns (swept: bool)
      requires Inv(View())
      modifies this
      ensures Step(old(View()), Lifecycle(StopSweep(hasHost)), View()) && Inv(View())
      ensures swept <==> old(row.status) in {Running, Idle, Archived} && !Busy(turns, old(row.version))
      ensures View() == if swept then old(View()).(row := Row(if hasHost then Stopping else Stopped, old(row.version) + 1,
                                                              old(row.token), old(row.host)))
                        else old(View())
      ensures Busy(turns, old(row.version)) ==> View() == old(View())
    {
      hide Inv, NoNewExecution, KeepsStatuses, ReadsRow, TouchesOnly;
      var open := HasOpenTurn(row.version);
      swept := (row.status.Running? || row.status.Idle? || row.status.Archived?) && !open;
      if swept {
        row := row.(status := Stopping, version := row.version + 1);
        if !hasHost {
          row := row.(status := Stopped);
        }
      }
      StepKeepsInv(old(View()), Lifecycle(StopSweep(hasHost)), View());
    }

    // ---- Interference ---------------------------------------------------------------------

    /** Any number of actions of everyone but task `tid`. Nothing more is promised of them. */
    method Others(ghost tid: TaskId)
      modifies this
      ensures Reaches(old(View()), View(), Some(tid))
    {
      ReachesSelf(View(), Some(tid));
    }

    /** Between two transactions: what any such interference leaves to task `tid`. */
    method Interfere(ghost tid: TaskId, ghost start: Slice)
      requires Inv(View()) && tid in tasks && Reaches(start, View(), None)
      modifies this
      ensures Inv(View()) && SameTask(old(View()), View(), tid)
      ensures Reaches(old(View()), View(), Some(tid)) && Reaches(start, View(), None)
    {
      hide Inv, Reaches, SameTask;
      Others(tid);
      InterferenceKeeps(old(View()), View(), tid);
      ReachesTransitive(start, old(View()), View(), Some(tid));
    }

    // ---- The input job, transaction by transaction --------------------------------------------

    ghost predicate Here(tid: TaskId, e: Envelope, pc: InputPc)
      reads this
    {
      tid in tasks && tasks[tid].Input? && tasks[tid].envelope == e && tasks[tid].pc == pc
    }

    /** Leaving the lock's transaction with an outcome. */
    method Leave(tid: TaskId, o: Outcome)
      requires tid in tasks && tasks[tid].Input?
      modifies this`lock, this`tasks
      ensures View() == Return(old(View()), tid, o)
    {
      if lock == Some(tid) {
        lock := None;
      }
      tasks := if o.Deferred? then tasks - {tid} else tasks[tid := tasks[tid].(pc := Returned)];
    }

    method TryAdvisoryLock(tid: TaskId, ghost e: Envelope, ghost start: Slice) returns (locked: bool)
      requires Reaches(start, View(), None) && Inv(View()) && Here(tid, e, Fetched)
      modifies this
      ensures Reaches(start, View(), None) && Step(old(View()), TryLock(tid), View()) && Inv(View())
      ensures locked <==> old(lock).None?
      ensures if locked then Here(tid, e, Locked) else tid !in tasks
    {
      hide Reaches, Inv, NoNewExecution, KeepsStatuses, ReadsRow, TouchesOnly;
      locked := lock.None?;
      if locked {
        lock := Some(tid);
        tasks := tasks[tid := tasks[tid].(pc := Locked)];
      } else {
        EndTask(tid);
      }
      StepKeepsInv(old(View()), TryLock(tid), View());
      ThenStep(start, old(View()), TryLock(tid), View());
    }

    method SelectSession(tid: TaskId, e: Envelope, ghost start: Slice) returns (live: bool, token: Option<Token>)
      requires Reaches(start, View(), None) && Inv(View()) && Here(tid, e, Locked)
      modifies this
      ensures Reaches(start, View(), None) && Step(old(View()), ReadRow(tid), View()) && Inv(View())
      ensures live <==> old(row.status) in {Running, Idle} && old(row.host) == e.host && old(row.version) == e.version
      ensures token == old(row.token) && row == old(row) && turns == old(turns)
      ensures if live then Here(tid, e, SawRow(token)) else Here(tid, e, Returned)
    {
      hide Reaches, Inv, NoNewExecution, KeepsStatuses, ReadsRow, TouchesOnly;
      live := (row.status.Running? || row.status.Idle?) && row.host == e.host && row.version == e.version;
      token := row.token;
      if live {
        tasks := tasks[tid := tasks[tid].(pc := SawRow(token))];
      } else {
        Leave(tid, AbortedOutcome);
      }
      StepKeepsInv(old(View()), ReadRow(tid), View());
      ThenStep(start, old(View()), ReadRow(tid), View());
    }

    method SelectTurn(tid: TaskId, e: Envelope, ghost token: Option<Token>, ghost start: Slice) returns (turn: Option<Turn>)
      requires Reaches(start, View(), None) && Inv(View()) && Here(tid, e, SawRow(token))
      modifies this
      ensures Reaches(start, View(), None) && Step(old(View()), ReadTurn(tid), View()) && Inv(View())
      ensures turn == (if e.key in turns then Some(turns[e.key]) else None) && turns == old(turns)
      ensures Here(tid, e, SawTurn(token, turn))
    {
      hide Reaches, Inv, NoNewExecution, KeepsStatuses, ReadsRow, TouchesOnly;
      turn := if e.key in turns then Some(turns[e.key]) else None;
      tasks := tasks[tid := tasks[tid].(pc := SawTurn(token, turn))];
      StepKeepsInv(old(View()), ReadTurn(tid), View());
      ThenStep(start, old(View()), ReadTurn(tid), View());
    }

    /** ORDER BY sequence LIMIT 1 over the turns of version `v` that are not terminal. */
    method EarliestUnfinished(v: nat) returns (earliest: Option<Key>)
      ensures earliest.Some? ==> IsEarliest(turns, v, earliest.value)
      ensures earliest.None? ==> forall k :: !IsEarliest(turns, v, k)
    {
      var rest := turns.Keys;
      earliest := None;
      while rest != {}
        invariant rest <= turns.Keys
        invariant earliest.None? ==> forall k :: k in turns && k !in rest && turns[k].version == v ==> Terminal(turns[k].status)
        invariant earliest.Some? ==>
                    && earliest.value in turns && turns[earliest.value].version == v
                    && !Terminal(turns[earliest.value].status)
                    && forall k :: k in turns && k !in rest && turns[k].version == v && !Terminal(turns[k].status) ==>
                                     turns[earliest.value].seqno <= turns[k].seqno
      {
        var k :| k in rest;
        rest := rest - {k};
        if turns[k].version == v && !Terminal(turns[k].status)
           && (earliest.None? || turns[k].seqno < turns[earliest.value].seqno) {
          earliest := Some(k);
        }
      }
    }

    /** The FIFO check and the branch on the turn's status; `denied` is the verdict of the workspace check. The turn was read
        one statement earlier, but the decision fits the ledger as it is now. */
    method SelectEarliest(tid: TaskId, e: Envelope, token: Option<Token>, turn: Option<Turn>, denied: bool, ghost start: Slice)
      returns (c: Choice)
      requires Reaches(start, View(), None) && Inv(View()) && Here(tid, e, SawTurn(token, turn))
      modifies this
      ensures Reaches(start, View(), None) && Step(old(View()), ReadEarliest(tid, denied), View()) && Inv(View())
      ensures turns == old(turns) && log == old(log) && posts == old(posts) && e.key in turns
      ensures Fits(c, Blocked(turns, e.version, e.key), turns[e.key], token, denied)
      ensures match c
              case Go(pc) => Here(tid, e, pc)
              case Back(o) => if o.Deferred? then tid !in tasks else Here(tid, e, Returned)
    {
      hide Reaches, Inv, Step, Choose, Blocked, GoOn, Fits;
      c := DecideNow(tid, e, token, turn, denied);
      Follow(tid, c);
      FollowedFact(old(View()), tid, c);
      ReadEarliestIsStep(old(View()), tid, denied, c, View());
      StepKeepsInv(old(View()), ReadEarliest(tid, denied), View());
      ThenStep(start, old(View()), ReadEarliest(tid, denied), View());
    }

    method DecideNow(tid: TaskId, e: Envelope, token: Option<Token>, turn: Option<Turn>, denied: bool) returns (c: Choice)
      requires Inv(View()) && Here(tid, e, SawTurn(token, turn))
      ensures e.key in turns && Fits(c, Blocked(turns, e.version, e.key), turns[e.key], token, denied)
      ensures c == Choose(e, turn, token, Blocked(turns, e.version, e.key), denied) && (c.Go? ==> !c.pc.InExecution?)
    {
      hide Inv, Choose, Blocked, IsEarliest, Fits;
      ReadTurnIsCurrent(View(), tid);
      var earliest := EarliestUnfinished(e.version);
      EarliestDecides(View(), e, earliest);
      c := Decide(e, turn, token, earliest, denied);
      ChoiceFitsLedger(e, turn, token, Blocked(turns, e.version, e.key), denied, turns[e.key]);
    }

    method Follow(tid: TaskId, c: Choice)
      requires At(View(), tid) && (c.Go? ==> !c.pc.InExecution?)
      modifies this`tasks, this`lock
      ensures View() == GoOn(old(View()), tid, c)
    {
      match c {
        case Go(pc) => tasks := tasks[tid := tasks[tid].(pc := pc)];
        case Back(o) => Leave(tid, o);
      }
    }

    /** The branches, in the source's order. */
    method Decide(e: Envelope, turn: Option<Turn>, token: Option<Token>, earliest: Option<Key>, denied: bool) returns (c: Choice)
      ensures c == Choose(e, turn, token, earliest.Some? && earliest.value != e.key, denied)
    {
      if earliest.Some? && earliest.value != e.key {
        return Back(Deferred);
      }
      if turn.Some? && turn.value.version != e.version {
        return Back(AbortedOutcome);
      }
      if turn.Some? && !turn.value.status.Queued? {
        if turn.value.status.Delivered? || turn.value.status.DeliveryFailed? || turn.value.status.Aborted? {
          return Back(SkippedReplay);
        }
        if turn.value.status.Executing? || turn.value.status.Uncertain? {
          return Go(Interrupted);
        }
        return Go(Posting(turn.value.result));
      }
      c := Go(if denied then Denied else Admitting(token));
    }

    method UpdateUncertain(tid: TaskId, e: Envelope, ghost start: Slice)
      requires Reaches(start, View(), None) && Inv(View()) && Here(tid, e, Interrupted)
      modifies this
      ensures Reaches(start, View(), None) && Step(old(View()), MarkUncertain(tid), View()) && Inv(View()) && Here(tid, e, NoticeUncertain)
      ensures e.key in old(turns) && turns == old(turns)[e.key := old(turns)[e.key].(status := Uncertain)] && row == old(row) && posts == old(posts)
    {
      hide Reaches, Inv, NoNewExecution, KeepsStatuses, ReadsRow, TouchesOnly;
      TaskFact(View(), tid);
      if e.key in turns {
        turns := turns[e.key := turns[e.key].(status := Uncertain)];
      }
      tasks := tasks[tid := tasks[tid].(pc := NoticeUncertain)];
      StepKeepsInv(old(View()), MarkUncertain(tid), View());
      ThenStep(start, old(View()), MarkUncertain(tid), View());
    }

    method PostUncertainNotice(tid: TaskId, e: Envelope, post: PostOutcome, ghost start: Slice) returns (o: Outcome)
      requires Reaches(start, View(), None) && Inv(View()) && Here(tid, e, NoticeUncertain)
      modifies this
      ensures Reaches(start, View(), None) && Step(old(View()), PostUncertain(tid, post), View()) && Inv(View())
      ensures o == if post.Accepted? || post.Gone? then AbortedOutcome else Deferred
      ensures posts == old(posts) + [UncertainNotice(e.key)] && turns == old(turns)
      ensures if o.Deferred? then tid !in tasks else Here(tid, e, Returned)
    {
      hide Reaches, Inv, Step;
      o := if post.Accepted? || post.Gone? then AbortedOutcome else Deferred;
      posts := posts + [UncertainNotice(e.key)];
      Leave(tid, o);
      PostUncertainIsStep(old(View()), tid, post, View());
      StepKeepsInv(old(View()), PostUncertain(tid, post), View());
      ThenStep(start, old(View()), PostUncertain(tid, post), View());
    }

    method MarkTurnAborted(tid: TaskId, e: Envelope, ghost start: Slice)
      requires Reaches(start, View(), None) && Inv(View()) && Here(tid, e, Denied)
      modifies this
      ensures Reaches(start, View(), None) && Step(old(View()), MarkAborted(tid), View()) && Inv(View()) && Here(tid, e, NoticeDenied)
      ensures e.key in old(turns) && turns == old(turns)[e.key := old(turns)[e.key].(status := Aborted)] && log == old(log) && row == old(row)
    {
      hide Reaches, Inv, Step;
      TaskFact(View(), tid);
      if e.key in turns && turns[e.key].status.Queued? {
        turns := turns[e.key := turns[e.key].(status := Aborted)];
      }
      tasks := tasks[tid := tasks[tid].(pc := NoticeDenied)];
      MarkAbortedIsStep(old(View()), tid, View());
      StepKeepsInv(old(View()), MarkAborted(tid), View());
      ThenStep(start, old(View()), MarkAborted(tid), View());
    }

    method PostDeniedNotice(tid: TaskId, e: Envelope, ghost start: Slice)
      requires Reaches(start, View(), None) && Inv(View()) && Here(tid, e, NoticeDenied)
      modifies this
      ensures Reaches(start, View(), None) && Step(old(View()), PostDenied(tid), View()) && Inv(View()) && Here(tid, e, Returned)
      ensures posts == old(posts) + [DeniedNotice(e.key)] && turns == old(turns) && log == old(log)
    {
      hide Reaches, Inv, Step;
      posts := posts + [DeniedNotice(e.key)];
      Leave(tid, AbortedOutcome);
      PostDeniedIsStep(old(View()), tid, View());
      StepKeepsInv(old(View()), PostDenied(tid), View());
      ThenStep(start, old(View()), PostDenied(tid), View());
    }

    /** The admission transaction: the session must still be live at the version read. */
    method AdmitTransaction(tid: TaskId, e: Envelope, ghost token: Option<Token>, ghost start: Slice) returns (admitted: bool)
      requires Reaches(start, View(), None) && Inv(View()) && Here(tid, e, Admitting(token))
      modifies this
      ensures Reaches(start, View(), None) && Step(old(View()), AdmitTurn(tid), View()) && Inv(View())
      ensures admitted <==> LiveAt(old(row), e.version)
      ensures e.key in old(turns) && if admitted
              then && row == Row(Running, old(row.version), old(row.token), old(row.host))
                   && turns == old(turns)[e.key := old(turns)[e.key].(status := Executing)]
                   && log == old(log) + [Exec(e.key, e.version, old(turns)[e.key].seqno, e.text, token, None)]
              else row == old(row) && turns == old(turns) && log == old(log)
      ensures if admitted then Here(tid, e, InExecution) else Here(tid, e, Returned)
    {
      hide Reaches, Inv, Step, Admitted;
      AdmitterFact(View(), tid);
      admitted := row.version == e.version && (row.status.Running? || row.status.Idle?);
      if admitted {
        WriteAdmission(tid, e, token);
        AdmitIsStep(old(View()), tid, e, token, View());
        AdmittedFact(old(View()), tid, e, token, View());
      } else {
        Leave(tid, AbortedOutcome);
        RefusedIsStep(old(View()), tid, View());
      }
      StepKeepsInv(old(View()), AdmitTurn(tid), View());
      ThenStep(start, old(View()), AdmitTurn(tid), View());
    }

    /** UPDATE sessions, then the upsert of the turn; its row count is not looked at. */
    method WriteAdmission(tid: TaskId, e: Envelope, ghost token: Option<Token>)
      requires At(View(), tid)
      modifies this
      ensures Admitted(old(View()), tid, e, token, View())
    {
      row := row.(status := Running);
      if e.key !in turns {
        turns := turns[e.key := Turn(nextSeq, e.version, Executing, None)];
        nextSeq := nextSeq + 1;
      } else if turns[e.key].status.Queued? && turns[e.key].version == e.version {
        turns := turns[e.key := turns[e.key].(status := Executing)];
      }
      log := log + [Exec(e.key, e.version, turns[e.key].seqno, e.text, token, None)];
      tasks := tasks[tid := tasks[tid].(pc := InExecution)];
    }

    /** The completion transaction: the result is stored, and the token advanced if the era is still live. */
    method CompleteTransaction(tid: TaskId, e: Envelope, reply: string, token: Option<Token>, ghost start: Slice)
      requires Reaches(start, View(), None) && Inv(View()) && Here(tid, e, InExecution)
      modifies this
      ensures Reaches(start, View(), None) && Step(old(View()), Complete(tid, reply, token), View()) && Inv(View())
      ensures Here(tid, e, Posting(Some(reply)))
      ensures e.key in old(turns)
              && turns == old(turns)[e.key := old(turns)[e.key].(status := Completed, result := Some(reply))]
      ensures row == if old(row.status) in {Running, Idle} && old(row.version) == e.version && token.Some?
                     then old(row).(token := token) else old(row)
    {
      hide Reaches, Inv, Step, Completes;
      TaskFact(View(), tid);
      ExecutingHasLog(View(), tid);
      WriteCompletion(tid, e, reply, token);
      CompleteIsStep(old(View()), tid, e, reply, token, View());
      CompletedFact(old(View()), tid, e, reply, token, View());
      StepKeepsInv(old(View()), Complete(tid, reply, token), View());
      ThenStep(start, old(View()), Complete(tid, reply, token), View());
    }

    method WriteCompletion(tid: TaskId, e: Envelope, reply: string, token: Option<Token>)
      requires At(View(), tid) && |log| > 0
      modifies this
      ensures Completes(old(View()), tid, e, reply, token, View())
    {
      if e.key in turns {
        turns := turns[e.key := turns[e.key].(status := Completed, result := Some(reply))];
      }
      if row.version == e.version && (row.status.Running? || row.status.Idle?) {
        row := row.(token := Coalesce(token, row.token));
      }
      log := log[|log| - 1 := log[|log| - 1].(result := Some(Result(reply, token)))];
      tasks := tasks[tid := tasks[tid].(pc := Posting(Some(reply)))];
    }

    method PostTheReply(tid: TaskId, e: Envelope, reply: Option<string>, post: PostOutcome, ghost start: Slice)
      returns (retire: Option<TurnStatus>)
      requires Reaches(start, View(), None) && Inv(View()) && Here(tid, e, Posting(reply))
      modifies this
      ensures Reaches(start, View(), None) && Step(old(View()), PostReply(tid, post), View()) && Inv(View())
      ensures posts == old(posts) + [Reply(e.key, reply)] && turns == old(turns)
      ensures match post
              case Accepted => retire == Some(Delivered)
              case Transient => retire.None?
              case _ => retire == Some(DeliveryFailed)
      ensures if retire.Some? then Here(tid, e, Marking(retire.value)) else tid !in tasks
    {
      hide Reaches, Inv, Step;
      posts := posts + [Reply(e.key, reply)];
      retire := match post
                case Accepted => Some(Delivered)
                case Transient => None
                case _ => Some(DeliveryFailed);
      if retire.Some? {
        tasks := tasks[tid := tasks[tid].(pc := Marking(retire.value))];
      } else {
        Leave(tid, Deferred);
      }
      PostReplyIsStep(old(View()), tid, post, View());
      StepKeepsInv(old(View()), PostReply(tid, post), View());
      ThenStep(start, old(View()), PostReply(tid, post), View());
    }

    method MarkTheTurn(tid: TaskId, e: Envelope, status: TurnStatus, ghost start: Slice) returns (o: Outcome)
      requires Reaches(start, View(), None) && Inv(View()) && Here(tid, e, Marking(status))
      modifies this
      ensures Reaches(start, View(), None) && Step(old(View()), MarkTurn(tid), View()) && Inv(View()) && Here(tid, e, Returned)
      ensures e.key in old(turns) && turns == old(turns)[e.key := old(turns)[e.key].(status := status)] && posts == old(posts)
      ensures o == if status.Delivered? then DeliveredOutcome else AbortedOutcome
    {
      hide Reaches, Inv, Step;
      TaskFact(View(), tid);
      if e.key in turns {
        turns := turns[e.key := turns[e.key].(status := status)];
      }
      o := if status.Delivered? then DeliveredOutcome else AbortedOutcome;
      Leave(tid, o);
      MarkTurnIsStep(old(View()), tid, status, View());
      StepKeepsInv(old(View()), MarkTurn(tid), View());
      ThenStep(start, old(View()), MarkTurn(tid), View());
    }

    // ---- The input job ---------------------------------------------------------------------

    /** What the caller of an input job may rely on when the job returns: a deferred job is over and its
        message stays pending; any other outcome may be acknowledged. */
    ghost predicate Finished(tid: TaskId, e: Envelope, o: Outcome)
      reads this
    {
      if o.Deferred? then tid !in tasks
      else Here(tid, e, Returned) && Settled(row, turns, e.key)
    }

    /** Deliver the stored reply and retire the turn. */
    method DeliverReply(tid: TaskId, e: Envelope, reply: Option<string>, post: PostOutcome, ghost start: Slice) returns (o: Outcome)
      requires Reaches(start, View(), None) && Inv(View()) && Here(tid, e, Posting(reply))
      modifies this
      ensures Reaches(start, View(), None) && Inv(View()) && Finished(tid, e, o) && Leaves(HasReply(true), View(), e, post)
      ensures o == if post.Accepted? then DeliveredOutcome else if post.Transient? then Deferred else AbortedOutcome
    {
      hide Reaches, Inv, Step;
      Interfere(tid, start);
      CompletedStays(View(), tid);
      var retire := PostTheReply(tid, e, reply, post, start);
      if retire.None? {
        return Deferred;
      }
      Interfere(tid, start);
      o := MarkTheTurn(tid, e, retire.value, start);
      ReturnedIsSettled(View(), tid);
    }

    /** The three reads, each a statement of its own, and where they lead; `seen` is the session at the read that decides. */
    method ReadAndChoose(tid: TaskId, e: Envelope, denied: bool, ghost post: PostOutcome, ghost start: Slice)
      returns (c: Choice, token: Option<Token>, ghost why: Why, ghost seen: Slice)
      requires Reaches(start, View(), None) && Inv(View()) && Here(tid, e, Locked)
      modifies this
      ensures Reaches(start, seen, None) && Reaches(seen, View(), None) && Inv(View())
      ensures c.Back? ==> Finished(tid, e, c.outcome) && Explains(why, seen, e, denied, post, c.outcome)
                          && (why.NotLive? || why.Waits? || why.AlreadyRetired?)
      ensures c.Go? ==> Here(tid, e, c.pc) && Justified(c.pc, token, seen, e, denied)
    {
      hide Reaches, Inv, Step, Settled, Blocked, Justified;
      Interfere(tid, start);
      var live: bool;
      seen := View();
      live, token := SelectSession(tid, e, start);
      why := NotLive;
      if !live {
        ReturnedIsSettled(View(), tid);
        StepReaches(seen, ReadRow(tid), View());
        return Back(AbortedOutcome), token, why, seen;
      }
      Interfere(tid, start);
      var turn := SelectTurn(tid, e, token, start);
      Interfere(tid, start);
      c, why, seen := ChooseNow(tid, e, token, turn, denied, post, start);
    }

    /** The last read and the decision. */
    method ChooseNow(tid: TaskId, e: Envelope, token: Option<Token>, turn: Option<Turn>, denied: bool, ghost post: PostOutcome,
                     ghost start: Slice)
      returns (c: Choice, ghost why: Why, ghost seen: Slice)
      requires Reaches(start, View(), None) && Inv(View()) && Here(tid, e, SawTurn(token, turn))
      modifies this
      ensures Reaches(start, seen, None) && Reaches(seen, View(), None) && Inv(View())
      ensures c.Back? ==> Finished(tid, e, c.outcome) && Explains(why, seen, e, denied, post, c.outcome)
                          && (why.Waits? || why.AlreadyRetired?)
      ensures c.Go? ==> Here(tid, e, c.pc) && Justified(c.pc, token, seen, e, denied)
    {
      hide Reaches, Inv, Step, Settled, Blocked;
      seen := View();
      c := SelectEarliest(tid, e, token, turn, denied, start);
      StepReaches(seen, ReadEarliest(tid, denied), View());
      why := if Blocked(seen.turns, e.version, e.key) then Waits else AlreadyRetired;
      if c.Back? && !c.outcome.Deferred? {
        ReturnedIsSettled(View(), tid);
      }
    }

    /** `_run_locked`, given the verdict of the workspace check, what the tool returns if it runs, and the fate of the post. */
    method RunLocked(tid: TaskId, e: Envelope, denied: bool, reply: string, returned: Option<Token>, post: PostOutcome, ghost start: Slice)
      returns (o: Outcome, ghost why: Why, ghost seen: Slice)
      requires Reaches(start, View(), None) && Inv(View()) && Here(tid, e, Locked)
      modifies this
      ensures Reaches(start, seen, None) && Reaches(seen, View(), None) && Inv(View()) && Finished(tid, e, o)
      ensures Explains(why, seen, e, denied, post, o) && Leaves(why, View(), e, post) && !why.LockHeld?
    {
      hide Reaches, Inv, Step, Settled, Blocked, Justified, Explains;
      var c, token;
      c, token, why, seen := ReadAndChoose(tid, e, denied, post, start);
      if c.Back? {
        return c.outcome, why, seen;
      }
      JustifiedExplains(c.pc, token, seen, e, denied, post);
      ReachesSelf(seen, None);
      if c.pc.Interrupted? {
        o := ReportUncertain(tid, e, post, seen);
        why := WasInterrupted;
      } else if c.pc.Denied? {
        o := RefuseTurn(tid, e, seen);
        why := WasRefused;
      } else if c.pc.Posting? {
        o := DeliverReply(tid, e, c.pc.reply, post, seen);
        why := HasReply(false);
      } else {
        o, why, seen := AdmitAndRun(tid, e, token, denied, reply, returned, post, start, seen);
      }
    }

    /** The branch that may run the tool. */
    method AdmitAndRun(tid: TaskId, e: Envelope, token: Option<Token>, ghost denied: bool, reply: string, returned: Option<Token>,
                       post: PostOutcome, ghost start: Slice, ghost chosen: Slice)
      returns (o: Outcome, ghost why: Why, ghost seen: Slice)
      requires Reaches(start, chosen, None) && Reaches(chosen, View(), None) && Inv(View()) && Here(tid, e, Admitting(token))
      requires Justified(Admitting(token), token, chosen, e, denied)
      modifies this
      ensures Reaches(start, seen, None) && Reaches(seen, View(), None) && Inv(View()) && Finished(tid, e, o)
      ensures Explains(why, seen, e, denied, post, o) && Leaves(why, View(), e, post) && !why.LockHeld?
    {
      hide Reaches, Inv, Step, Settled, Blocked, Justified;
      JustifiedExplains(Admitting(token), token, chosen, e, denied, post);
      o, why, seen := ExecuteTurn(tid, e, token, reply, returned, post, chosen);
      ReachesTransitive(start, chosen, seen, None);
      if why.HasReply? {
        ReachesTransitive(chosen, seen, View(), None);
        seen := chosen;
      }
    }

    method ReportUncertain(tid: TaskId, e: Envelope, post: PostOutcome, ghost start: Slice) returns (o: Outcome)
      requires Reaches(start, View(), None) && Inv(View()) && Here(tid, e, Interrupted)
      modifies this
      ensures Reaches(start, View(), None) && Inv(View()) && Finished(tid, e, o) && Leaves(WasInterrupted, View(), e, post)
      ensures o == if post.Accepted? || post.Gone? then AbortedOutcome else Deferred
    {
      hide Reaches, Inv, Step, Settled, Blocked;
      Interfere(tid, start);
      UpdateUncertain(tid, e, start);
      Interfere(tid, start);
      UncertainStays(View(), tid);
      o := PostUncertainNotice(tid, e, post, start);
      if !o.Deferred? {
        ReturnedIsSettled(View(), tid);
      }
    }

    method RefuseTurn(tid: TaskId, e: Envelope, ghost start: Slice) returns (o: Outcome)
      requires Reaches(start, View(), None) && Inv(View()) && Here(tid, e, Denied)
      modifies this
      ensures Reaches(start, View(), None) && Inv(View()) && Finished(tid, e, o) && o.AbortedOutcome?
      ensures forall post :: Leaves(WasRefused, View(), e, post)
    {
      hide Reaches, Inv, Step, Settled, Blocked, InLog;
      Interfere(tid, start);
      MarkTurnAborted(tid, e, start);
      Interfere(tid, start);
      AbortedStays(View(), tid);
      PostDeniedNotice(tid, e, start);
      ReturnedIsSettled(View(), tid);
      o := AbortedOutcome;
    }

    /** Admission, one execution of the tool, completion, delivery. */
    method ExecuteTurn(tid: TaskId, e: Envelope, token: Option<Token>, reply: string, returned: Option<Token>, post: PostOutcome,
                       ghost start: Slice)
      returns (o: Outcome, ghost why: Why, ghost seen: Slice)
      requires Reaches(start, View(), None) && Inv(View()) && Here(tid, e, Admitting(token))
      modifies this
      ensures Reaches(start, seen, None) && Reaches(seen, View(), None) && Inv(View()) && Finished(tid, e, o)
      ensures why.NoLongerLive? || why == HasReply(true)
      ensures why.NoLongerLive? ==> o.AbortedOutcome? && !(seen.row.status in {Running, Idle} && seen.row.version == e.version)
      ensures why.HasReply? ==> && Leaves(why, View(), e, post) && seen.row.status in {Running, Idle} && seen.row.version == e.version
                                && o == if post.Accepted? then DeliveredOutcome else if post.Transient? then Deferred else AbortedOutcome
    {
      hide Reaches, Inv, Step, Settled, Blocked, Leaves;
      Interfere(tid, start);
      seen := View();
      ReachesSelf(seen, None);
      why := NoLongerLive;
      var admitted := AdmitTransaction(tid, e, token, seen);
      if !admitted {
        ReturnedIsSettled(View(), tid);
        return AbortedOutcome, why, seen;
      }
      Interfere(tid, seen);
      CompleteTransaction(tid, e, reply, returned, seen);
      o := DeliverReply(tid, e, Some(reply), post, seen);
      why := HasReply(true);
    }

    /** `run_input_job`: whatever happens in between, the message may be acknowledged exactly when this says so. Every outcome
        has its reason, established at `seen`; in particular a queued turn whose workspace is denied is not run. */
    method RunInputJob(tid: TaskId, e: Envelope, denied: bool, reply: string, returned: Option<Token>, post: PostOutcome)
      returns (o: Outcome, ghost why: Why, ghost seen: Slice)
      requires Inv(View()) && Here(tid, e, Fetched)
      modifies this
      ensures Reaches(old(View()), seen, None) && Reaches(seen, View(), None) && Inv(View()) && Finished(tid, e, o)
      ensures Explains(why, seen, e, denied, post, o) && Leaves(why, View(), e, post)
    {
      hide Reaches, Inv, Step, Settled, Blocked, Leaves;
      ghost var start := View();
      ReachesSelf(start, None);
      Interfere(tid, start);
      seen := View();
      var locked := TryAdvisoryLock(tid, e, start);
      if !locked {
        StepReaches(seen, TryLock(tid), View());
        why := LockHeld;
        assert Leaves(why, View(), e, post) by { NothingLeft(View(), e, post); }
        return Deferred, why, seen;
      }
      o, why, seen := RunLocked(tid, e, denied, reply, returned, post, start);
    }

    // ---- The resume job --------------------------------------------------------------------

    /** `run_resume_job`: read, check the workspace, then write back under the version and status guard. It fails only on a
        denied workspace, an error, or a session that was not resuming at the job's version when it was looked at (`seen`). */
    method RunResumeJob(tid: TaskId, version: nat, locked: bool, denied: bool, raises: bool, minted: Option<Token>)
      returns (resumed: bool, ghost seen: Slice)
      requires Inv(View()) && tid in tasks && tasks[tid] == Task.Resume(version, locked)
      modifies this
      ensures Reaches(old(View()), seen, None) && Reaches(seen, View(), None) && Inv(View()) && tid !in tasks
      ensures resumed ==> && LiveAt(row, version) && version in eraStart && eraStart[version] == row.token && !denied && !raises
                          && row.token == if seen.row.token.Some? then seen.row.token else minted
      ensures !resumed ==> denied || raises || !(seen.row.status == Status.Resuming && seen.row.version == version)
    {
      hide Reaches, Inv, Step;
      ghost var start := View();
      ReachesSelf(start, None);
      Interfere(tid, start);
      seen := View();
      var found, token := SelectResuming(tid, version, locked, start);
      StepReaches(seen, ReadResuming(tid), View());
      resumed := false;
      if !found {
        return;
      }
      Interfere(tid, seen);
      if denied || raises {
        FailResuming(tid, version, !denied, locked, token, seen);
        return;
      }
      ghost var first, now := seen, View();
      resumed := CommitResuming(tid, version, locked, token, minted, first);
      ReachesTransitive(start, first, now, None);
      StepReaches(now, CommitResume(tid, minted), View());
      seen := now;
    }

    method SelectResuming(tid: TaskId, version: nat, locked: bool, ghost start: Slice) returns (found: bool, token: Option<Token>)
      requires Reaches(start, View(), None) && Inv(View()) && tid in tasks && tasks[tid] == Task.Resume(version, locked)
      modifies this
      ensures Reaches(start, View(), None) && Step(old(View()), ReadResuming(tid), View()) && Inv(View())
      ensures found <==> old(row.status) == Status.Resuming && old(row.version) == version
      ensures row == old(row) && token == row.token
      ensures if found then tid in tasks && tasks[tid] == Task.Resuming(version, locked, token) else tid !in tasks
    {
      hide Reaches, Inv, NoNewExecution, KeepsStatuses, ReadsRow, TouchesOnly;
      found := row.status.Resuming? && row.version == version;
      token := row.token;
      if found {
        tasks := tasks[tid := Task.Resuming(version, locked, token)];
      } else {
        EndTask(tid);
      }
      StepKeepsInv(old(View()), ReadResuming(tid), View());
      ThenStep(start, old(View()), ReadResuming(tid), View());
    }

    method FailResuming(tid: TaskId, version: nat, orphaned: bool, ghost locked: bool, ghost token: Option<Token>, ghost start: Slice)
      requires Reaches(start, View(), None) && Inv(View()) && tid in tasks && tasks[tid] == Task.Resuming(version, locked, token)
      modifies this
      ensures Reaches(start, View(), None) && Step(old(View()), FailResume(tid, orphaned), View()) && Inv(View()) && tid !in tasks
      ensures row == if old(row.status) == Status.Resuming && old(row.version) == version
                     then old(row).(status := if orphaned then Orphaned else Failed) else old(row)
    {
      hide Reaches, Inv, Step;
      if row.version == version && row.status.Resuming? {
        row := row.(status := if orphaned then Orphaned else Failed);
      }
      ghost var s := View();
      EndTask(tid);
      FailResumeIsStep(old(View()), tid, orphaned, s, View());
      StepKeepsInv(old(View()), FailResume(tid, orphaned), View());
      ThenStep(start, old(View()), FailResume(tid, orphaned), View());
    }

    /** The guarded write-back. The token written is the one the row still holds, or a minted one. */
    method CommitResuming(tid: TaskId, version: nat, ghost locked: bool, token: Option<Token>, minted: Option<Token>, ghost start: Slice)
      returns (resumed: bool)
      requires Reaches(start, View(), None) && Inv(View()) && tid in tasks && tasks[tid] == Task.Resuming(version, locked, token)
      modifies this
      ensures Reaches(start, View(), None) && Step(old(View()), CommitResume(tid, minted), View()) && Inv(View()) && tid !in tasks
      ensures resumed <==> old(row.status).Resuming? && old(row.version) == version
      ensures row == if resumed then Row(Running, version, if old(row.token).Some? then old(row.token) else minted, old(row.host))
                     else old(row)
      ensures resumed ==> && LiveAt(row, version)
                          && version in eraStart && eraStart[version] == row.token
    {
      hide Reaches, Inv, Step;
      ReadTokenIsCurrent(View(), tid);
      resumed := row.version == version && row.status.Resuming?;
      if resumed {
        row := row.(status := Running, token := Coalesce(token, minted));
        eraStart := eraStart[version := row.token];
      }
      ghost var s := View();
      EndTask(tid);
      CommitResumeIsStep(old(View()), tid, minted, s, View());
      StepKeepsInv(old(View()), CommitResume(tid, minted), View());
      ThenStep(start, old(View()), CommitResume(tid, minted), View());
    }

    method EndTask(tid: TaskId)
      modifies this`lock, this`tasks
      ensures View() == End(old(View()), tid)
    {
      if lock == Some(tid) {
        lock := None;
      }
      tasks := tasks - {tid};
    }
  }
}
