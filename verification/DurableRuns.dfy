/**
 What the durable turn protocol guarantees over every run: the history of one session from its
 creation on, in any interleaving of its handlers, the bot, the janitor and crashes.
 */
module DurableRuns {
  import opened Options
  import opened Lifecycle
  import opened Durable
  import opened DurableInvariant
  import opened DurableSteps

  /** States and the actions between them; `None` is a step of some other session. */
  ghost predicate Run(ss: seq<Slice>, acts: seq<Option<Action>>) {
    && |ss| == |acts| + 1
    && (exists host :: ss[0] == NewSession(host))
    && forall i :: 0 <= i < |acts| ==> Next(ss[i], acts[i], ss[i + 1])
  }

  ghost predicate Next(s: Slice, a: Option<Action>, s': Slice) {
    if a.None? then s' == s else Step(s, a.value, s')
  }

  lemma {:induction false} RunKeepsInv(ss: seq<Slice>, acts: seq<Option<Action>>, i: nat)
    requires Run(ss, acts) && i < |ss|
    ensures Inv(ss[i])
  {
    hide Inv, Step;
    if i == 0 {
      var host :| ss[0] == NewSession(host);
      InvInitially(host);
    } else {
      RunKeepsInv(ss, acts, i - 1);
      assert Next(ss[i - 1], acts[i - 1], ss[i]);
      if acts[i - 1].Some? {
        StepKeepsInv(ss[i - 1], acts[i - 1].value, ss[i]);
      }
    }
  }

  // ---- Eras ---------------------------------------------------------------------------------

  lemma WriteRowEvolves(s: Slice, w: Write)
    ensures Evolves(s.row, WriteRow(s, w).row)
  {
    UpdateEvolves(s.row, Busy(s.turns, s.row.version), w);
  }

  lemma StepEvolves(s: Slice, a: Action, s': Slice)
    requires Step(s, a, s')
    ensures Evolves(s.row, s'.row)
  {
    hide WriteRow, Blocked, UpsertExecuting;
    var w := WriteOf(s, a);
    WriteRowEvolves(s, w);
    StepWrites(s, a, s');
  }

  /** The row write that an action performs; those that write no row are given one that changes nothing here. */
  ghost function WriteOf(s: Slice, a: Action): Write {
    match a
    case Lifecycle(w) => w
    case EndCreate(_, w) => w
    case FailResume(tid, orphaned) =>
      if tid in s.tasks && s.tasks[tid].Resuming? then
        if orphaned then ResumeOrphaned(s.tasks[tid].version) else ResumeFailed(s.tasks[tid].version)
      else CreateFailed
    case CommitResume(tid, minted) =>
      if tid in s.tasks && s.tasks[tid].Resuming? then
        ResumeRunning(s.tasks[tid].version, Coalesce(s.tasks[tid].token, minted))
      else CreateFailed
    case FailRecover(tid, orphaned) =>
      if tid in s.tasks && s.tasks[tid].Recover? then
        if orphaned then RecoverOrphaned(s.tasks[tid].version) else RecoverFailed(s.tasks[tid].version)
      else CreateFailed
    case Enqueue(_, _, _, _) => InputSaga
    case AdmitTurn(tid) => if At(s, tid) then Admit(s.tasks[tid].envelope.version) else CreateFailed
    case Complete(tid, _, token) => if At(s, tid) then SaveToken(s.tasks[tid].envelope.version, token) else CreateFailed
    case _ => CreateFailed
  }

  ghost predicate WritesRow(a: Action) {
    || a.Lifecycle? || a.EndCreate? || a.FailResume? || a.CommitResume? || a.FailRecover?
    || a.Enqueue? || a.AdmitTurn? || a.Complete?
  }

  /** The actions that write no row leave the log and the era starts alone too. */
  lemma StepReadsRow(s: Slice, a: Action, s': Slice)
    requires Step(s, a, s') && !WritesRow(a)
    ensures ReadsRow(s, s')
  {
    hide WriteRow, Standalone, End, NoNewExecution, KeepsStatuses, ReadsRow;
    hide StepBegin, StepEndCreate, StepBeginResume, StepReadResuming, StepFailResume, StepCommitResume, StepFailRecover,
         StepEnqueue, StepPublish, StepRefuse, StepSweepOutbox, StepDeliver, StepTrimEntry, StepSweepResult, StepFetch,
         StepTryLock, StepReadRow, StepReadTurn, StepReadEarliest, StepMarkUncertain, StepPostUncertain,
         StepMarkAborted, StepPostDenied, StepAdmitTurn, StepComplete, StepPostReply, StepMarkTurn, StepAck;
  }

  /** The row and the era starts after a step are those before it, or those of the action's row write. */
  ghost predicate WritesAs(s: Slice, s': Slice, w: Write) {
    && (s'.row == s.row || s'.row == WriteRow(s, w).row)
    && (s'.eraStart == s.eraStart || s'.eraStart == WriteRow(s, w).eraStart)
  }

  lemma AdmitWrites(s: Slice, tid: TaskId, s': Slice)
    requires StepAdmitTurn(s, tid, s')
    ensures WritesAs(s, s', WriteOf(s, AdmitTurn(tid)))
  {
    hide WriteRow, UpsertExecuting;
  }

  lemma CompleteWrites(s: Slice, tid: TaskId, reply: string, token: Option<Token>, s': Slice)
    requires StepComplete(s, tid, reply, token, s')
    ensures WritesAs(s, s', WriteOf(s, Complete(tid, reply, token)))
  {
    hide WriteRow;
  }

  lemma StepWrites(s: Slice, a: Action, s': Slice)
    requires Step(s, a, s')
    ensures WritesAs(s, s', WriteOf(s, a))
    ensures !WritesRow(a) ==> s'.row == s.row
  {
    hide WriteRow, StepAdmitTurn, StepComplete, NoNewExecution, KeepsStatuses, TouchesOnly, Standalone, End;
    hide StepBegin, StepBeginResume, StepReadResuming, StepPublish, StepRefuse, StepSweepOutbox, StepDeliver, StepTrimEntry,
         StepSweepResult, StepFetch, StepTryLock, StepReadRow, StepReadTurn, StepReadEarliest, StepMarkUncertain,
         StepPostUncertain, StepMarkAborted, StepPostDenied, StepPostReply, StepMarkTurn, StepAck;
    match a
    case AdmitTurn(tid) => AdmitWrites(s, tid, s');
    case Complete(tid, reply, token) => CompleteWrites(s, tid, reply, token, s');
    case Lifecycle(_) =>
    case EndCreate(_, _) =>
    case FailResume(_, _) =>
    case CommitResume(_, _) =>
    case FailRecover(_, _) =>
    case Enqueue(_, _, _, _) =>
    case _ => StepReadsRow(s, a, s');
  }

  lemma {:induction false} RunEvolves(ss: seq<Slice>, acts: seq<Option<Action>>, i: nat, j: nat, v: nat)
    requires Run(ss, acts) && i <= j < |ss|
    ensures ss[i].row.version <= ss[j].row.version
    ensures Dead(ss[i].row) ==> ss[j].row == ss[i].row
    ensures Over(ss[i].row, v) ==> Over(ss[j].row, v)
    ensures LiveAt(ss[i].row, v) ==> LiveAt(ss[j].row, v) || Over(ss[j].row, v)
    decreases j - i
  {
    hide Step;
    if i < j {
      RunEvolves(ss, acts, i, j - 1, v);
      assert Next(ss[j - 1], acts[j - 1], ss[j]);
      if acts[j - 1].Some? {
        StepEvolves(ss[j - 1], acts[j - 1].value, ss[j]);
      }
    }
  }

  /** Era contiguity: the version never decreases, failed and orphaned are absorbing, and a session that is
      live at `v` at two times was live at `v` at every time between. */
  lemma EraContiguity(ss: seq<Slice>, acts: seq<Option<Action>>, i: nat, k: nat, j: nat, v: nat)
    requires Run(ss, acts) && i <= k <= j < |ss|
    ensures ss[i].row.version <= ss[k].row.version <= ss[j].row.version
    ensures Dead(ss[i].row) ==> ss[j].row == ss[i].row
    ensures LiveAt(ss[i].row, v) && LiveAt(ss[j].row, v) ==> LiveAt(ss[k].row, v)
  {
    RunEvolves(ss, acts, i, k, v);
    RunEvolves(ss, acts, k, j, v);
    RunEvolves(ss, acts, i, j, v);
  }

  /** `Over` is exact: an era at the current version that is not over can be made live by one more write. */
  lemma NotOverCanBeLive(r: Row)
    requires !Over(r, r.version)
    ensures exists w :: LiveAt(Update(r, true, w), r.version)
  {
    var w := if r.status.Creating? then CreateRunning(r.host, None)
             else if r.status.Resuming? then ResumeRunning(r.version, None) else InputSaga;
    assert LiveAt(Update(r, true, w), r.version);
  }

  /** The version carried by the job that performs an action, if any. */
  ghost function JobVersion(s: Slice, a: Action): Option<nat> {
    match a
    case Lifecycle(w) => if w.StopJob? then Some(w.version) else None
    case ReadResuming(tid) => if tid in s.tasks && s.tasks[tid].Resume? then Some(s.tasks[tid].version) else None
    case FailResume(tid, _) => if tid in s.tasks && s.tasks[tid].Resuming? then Some(s.tasks[tid].version) else None
    case CommitResume(tid, _) => if tid in s.tasks && s.tasks[tid].Resuming? then Some(s.tasks[tid].version) else None
    case FailRecover(tid, _) => if tid in s.tasks && s.tasks[tid].Recover? then Some(s.tasks[tid].version) else None
    case _ => None
  }

  /** A stop, resume, restart or recovery job of one era never changes the row of another era. */
  lemma StaleJobsDoNothing(ss: seq<Slice>, acts: seq<Option<Action>>, i: nat)
    requires Run(ss, acts) && i < |acts| && acts[i].Some?
    requires var v := JobVersion(ss[i], acts[i].value); v.Some? && v.value != ss[i].row.version
    ensures ss[i + 1].row == ss[i].row
  {
    hide Blocked, UpsertExecuting;
    assert Next(ss[i], acts[i], ss[i + 1]);
    StepWrites(ss[i], acts[i].value, ss[i + 1]);
  }

  // ---- History is append-only -----------------------------------------------------------------

  /** What may become of the execution log and of the recorded era starts. */
  ghost predicate Extends(s: Slice, s': Slice) {
    && |s.log| <= |s'.log|
    && (forall n :: 0 <= n < |s.log| ==>
          && s'.log[n] == s.log[n].(result := s'.log[n].result)
          && (s.log[n].result.Some? ==> s'.log[n] == s.log[n]))
    && (forall v :: v in s.eraStart ==> v in s'.eraStart && s'.eraStart[v] == s.eraStart[v])
    && s.posts <= s'.posts
  }

  lemma StepExtends(s: Slice, a: Action, s': Slice)
    requires Inv(s) && Step(s, a, s')
    ensures Extends(s, s')
  {
    hide Inv, Step, WriteRow;
    if WritesRow(a) {
      StepWrites(s, a, s');
      EraStartsKept(s, WriteOf(s, a));
      WriterExtendsLog(s, a, s');
    } else {
      StepReadsRow(s, a, s');
    }
  }

  lemma WriterExtendsLog(s: Slice, a: Action, s': Slice)
    requires Inv(s) && Step(s, a, s') && WritesRow(a)
    ensures |s.log| <= |s'.log| && s.posts <= s'.posts
    ensures forall n :: 0 <= n < |s.log| ==>
              && s'.log[n] == s.log[n].(result := s'.log[n].result)
              && (s.log[n].result.Some? ==> s'.log[n] == s.log[n])
  {
    hide Inv, Step;
    if a.AdmitTurn? {
      AdmitExtendsLog(s, a.tid, s');
    } else if a.Complete? {
      CompleteExtendsLog(s, a, s');
    } else {
      StepKeepsTurns(s, a, s');
    }
  }

  lemma AdmitExtendsLog(s: Slice, tid: TaskId, s': Slice)
    requires Step(s, AdmitTurn(tid), s')
    ensures |s.log| <= |s'.log| && s'.log[..|s.log|] == s.log && s'.posts == s.posts
  {
    hide WriteRow, UpsertExecuting, Return, SetPc, NoNewExecution, KeepsStatuses;
  }

  lemma CompleteExtendsLog(s: Slice, a: Action, s': Slice)
    requires Inv(s) && Step(s, a, s') && a.Complete?
    ensures |s.log| > 0 && |s'.log| == |s.log| && s'.posts == s.posts && s.log[|s.log| - 1].result.None?
    ensures forall n :: 0 <= n < |s.log| ==> s'.log[n] == s.log[n].(result := s'.log[n].result)
    ensures forall n :: 0 <= n < |s.log| - 1 ==> s'.log[n] == s.log[n]
  {
    hide Inv, WriteRow, SetPc, NoNewExecution, KeepsStatuses;
    CompleteShape(s, a.tid, a.reply, a.token, s');
  }

  lemma EraStartsKept(s: Slice, w: Write)
    requires Inv(s)
    ensures forall v :: v in s.eraStart ==> v in WriteRow(s, w).eraStart && WriteRow(s, w).eraStart[v] == s.eraStart[v]
  {
    hide Ledger, Logged, PostsOk, EnvelopesOk, NotLost, TasksOk, SentOk, Chain;
    WriteRowEvolves(s, w);
    LiveKeepsVersion(s.row, Busy(s.turns, s.row.version), w);
  }

  lemma {:induction false} RunExtends(ss: seq<Slice>, acts: seq<Option<Action>>, i: nat, j: nat)
    requires Run(ss, acts) && i <= j < |ss|
    ensures Extends(ss[i], ss[j])
    decreases j - i
  {
    hide Inv, Step;
    if i < j {
      RunExtends(ss, acts, i, j - 1);
      RunKeepsInv(ss, acts, j - 1);
      assert Next(ss[j - 1], acts[j - 1], ss[j]);
      if acts[j - 1].Some? {
        StepExtends(ss[j - 1], acts[j - 1].value, ss[j]);
      }
    }
  }

  // ---- The token chain --------------------------------------------------------------------------

  /** Left fold with COALESCE: each returned token replaces the one before it. */
  ghost function FoldTokens(start: Option<Token>, returned: seq<Option<Token>>): Option<Token> {
    if returned == [] then start
    else Coalesce(returned[|returned| - 1], FoldTokens(start, returned[..|returned| - 1]))
  }

  /** The tokens returned by the executions of era `v` among the first `n`, in order of execution. */
  ghost function ReturnedTokens(log: seq<Exec>, n: nat, v: nat): seq<Option<Token>>
    requires n <= |log|
  {
    if n == 0 then []
    else ReturnedTokens(log, n - 1, v)
         + if log[n - 1].version == v && log[n - 1].result.Some? then [log[n - 1].result.value.token] else []
  }

  lemma {:induction false} ChainIsFold(start: Option<Token>, log: seq<Exec>, n: nat, v: nat)
    requires n <= |log|
    ensures Chain(start, log, n, v) == FoldTokens(start, ReturnedTokens(log, n, v))
  {
    if n > 0 {
      ChainIsFold(start, log, n - 1, v);
      var before := ReturnedTokens(log, n - 1, v);
      if log[n - 1].version == v && log[n - 1].result.Some? {
        assert (before + [log[n - 1].result.value.token])[..|before|] == before;
      } else {
        assert before + [] == before;
      }
    }
  }

  /** Token chain: every execution ran with the token its era started with, folded with the tokens returned by
      all earlier executions of that era, each of which has returned and has a smaller sequence number. */
  lemma TokenChain(ss: seq<Slice>, acts: seq<Option<Action>>, i: nat, n: nat)
    requires Run(ss, acts) && i < |ss| && n < |ss[i].log|
    ensures var x := ss[i].log[n];
            && x.version in ss[i].eraStart
            && x.token == FoldTokens(ss[i].eraStart[x.version], ReturnedTokens(ss[i].log, n, x.version))
    ensures forall m :: 0 <= m < n && ss[i].log[m].version == ss[i].log[n].version ==>
                          ss[i].log[m].result.Some? && ss[i].log[m].seqno < ss[i].log[n].seqno
  {
    RunKeepsInv(ss, acts, i);
    var x := ss[i].log[n];
    ChainIsFold(ss[i].eraStart[x.version], ss[i].log, n, x.version);
    forall m | 0 <= m < n && ss[i].log[m].version == x.version
      ensures ss[i].log[m].result.Some? && ss[i].log[m].seqno < x.seqno
    {
      LogFact(ss[i], m);
      LogFact(ss[i], n);
    }
  }

  /** The token that an execution has returned, if it has returned one. */
  function TokenOf(x: Exec): Option<Token> {
    if x.result.Some? then x.result.value.token else None
  }

  /** The same without the fold: an execution of an era ran with the last token that an earlier one of that era returned,
      and with the era's starting token if none returned any. */
  lemma LastReturnedToken(ss: seq<Slice>, acts: seq<Option<Action>>, i: nat, n: nat, m: nat)
    requires Run(ss, acts) && i < |ss| && m <= n < |ss[i].log|
    requires forall l :: m <= l < n && ss[i].log[l].version == ss[i].log[n].version ==> TokenOf(ss[i].log[l]).None?
    ensures m == 0 ==> ss[i].log[n].version in ss[i].eraStart && ss[i].log[n].token == ss[i].eraStart[ss[i].log[n].version]
    ensures m > 0 && ss[i].log[m - 1].version == ss[i].log[n].version && TokenOf(ss[i].log[m - 1]).Some? ==>
              ss[i].log[n].token == TokenOf(ss[i].log[m - 1])
  {
    TokenChain(ss, acts, i, n);
    var log, v := ss[i].log, ss[i].log[n].version;
    forall l | m <= l < n && log[l].version == v ensures log[l].result.Some? && log[l].result.value.token.None? {}
    FoldOverNothing(ss[i].eraStart[v], log, m, n, v);
    if m > 0 && log[m - 1].version == v && TokenOf(log[m - 1]).Some? {
      var before := ReturnedTokens(log, m - 1, v);
      assert ReturnedTokens(log, m, v) == before + [log[m - 1].result.value.token];
    }
  }

  lemma {:induction false} FoldOverNothing(start: Option<Token>, log: seq<Exec>, m: nat, n: nat, v: nat)
    requires m <= n <= |log|
    requires forall l :: m <= l < n && log[l].version == v ==> log[l].result.Some? && log[l].result.value.token.None?
    ensures FoldTokens(start, ReturnedTokens(log, n, v)) == FoldTokens(start, ReturnedTokens(log, m, v))
    decreases n - m
  {
    hide FoldTokens, ReturnedTokens;
    if m < n {
      FoldOverNothing(start, log, m, n - 1, v);
      FoldOverOne(start, log, n, v);
    }
  }

  lemma FoldOverOne(start: Option<Token>, log: seq<Exec>, n: nat, v: nat)
    requires 0 < n <= |log| && (log[n - 1].version == v ==> log[n - 1].result.Some? && log[n - 1].result.value.token.None?)
    ensures FoldTokens(start, ReturnedTokens(log, n, v)) == FoldTokens(start, ReturnedTokens(log, n - 1, v))
  {
    var before := ReturnedTokens(log, n - 1, v);
    if log[n - 1].version == v {
      assert (before + [log[n - 1].result.value.token])[..|before|] == before;
    } else {
      assert before + [] == before;
    }
  }

  /** An era begins with the token the row holds at that moment: a resume carries the session's token over
      unchanged although it was read in an earlier transaction, minting one only when there was none. */
  lemma ResumeCarriesToken(ss: seq<Slice>, acts: seq<Option<Action>>, i: nat, tid: TaskId, minted: Option<Token>)
    requires Run(ss, acts) && i < |acts| && acts[i] == Some(CommitResume(tid, minted))
    requires Live(ss[i + 1].row) && !Live(ss[i].row)
    ensures ss[i + 1].row.token == if ss[i].row.token.Some? then ss[i].row.token else minted
    ensures ss[i + 1].row.version == ss[i].row.version
    ensures ss[i + 1].eraStart == ss[i].eraStart[ss[i].row.version := Coalesce(ss[i].row.token, minted)]
  {
    hide Inv;
    assert Next(ss[i], acts[i], ss[i + 1]);
    RunKeepsInv(ss, acts, i);
    TaskFact(ss[i], tid);
  }

  /** A session that its user archives and resumes goes on in a new era with the token it had when it was archived, if the
      resume job that finds it commits. */
  lemma ArchiveRoundTrip(ss: seq<Slice>, acts: seq<Option<Action>>, i: nat, j: nat, m: nat, tid: TaskId, minted: Option<Token>)
    requires Run(ss, acts) && i < j < m < |acts| && ss[i].row.status in {Running, Idle, Stopped}
    requires acts[i] == Some(Action.Lifecycle(ArchiveSaga)) && acts[j] == Some(Action.Lifecycle(ResumeSaga))
    requires acts[m] == Some(CommitResume(tid, minted))
    requires ss[j].row == ss[i + 1].row && ss[m].row == ss[j + 1].row && ss[m + 1].row != ss[m].row
    ensures ss[i + 1].row == Row(Archived, ss[i].row.version + 1, ss[i].row.token, ss[i].row.host)
    ensures ss[j + 1].row == Row(Status.Resuming, ss[i].row.version + 2, ss[i].row.token, ss[i].row.host)
    ensures ss[m + 1].row == Row(Running, ss[i].row.version + 2, if ss[i].row.token.Some? then ss[i].row.token else minted, ss[i].row.host)
  {
    hide Inv;
    RunKeepsInv(ss, acts, m);
    assert Next(ss[i], acts[i], ss[i + 1]) && Next(ss[j], acts[j], ss[j + 1]) && Next(ss[m], acts[m], ss[m + 1]);
    UserWrites(ss[i].row, Busy(ss[i].turns, ss[i].row.version));
    UserWrites(ss[j].row, Busy(ss[j].turns, ss[j].row.version));
    CommitWrites(ss[m], tid, minted, ss[m + 1]);
  }

  lemma CommitWrites(s: Slice, tid: TaskId, minted: Option<Token>, s': Slice)
    requires Inv(s) && Step(s, CommitResume(tid, minted), s') && s'.row != s.row
    ensures s.row.status == Status.Resuming
    ensures s'.row == Row(Running, s.row.version, if s.row.token.Some? then s.row.token else minted, s.row.host)
  {
    hide Inv, NoNewExecution, KeepsStatuses, ReadsRow, TouchesOnly;
    TaskFact(s, tid);
  }

  /** A user's stop is completed by its job, unless something else has touched the row. */
  lemma StopRoundTrip(ss: seq<Slice>, acts: seq<Option<Action>>, i: nat, j: nat)
    requires Run(ss, acts) && i < j < |acts| && ss[i].row.status in {Creating, Status.Resuming, Running, Idle}
    requires acts[i] == Some(Action.Lifecycle(StopSaga)) && acts[j] == Some(Action.Lifecycle(StopJob(ss[i].row.version + 1)))
    requires ss[j].row == ss[i + 1].row
    ensures ss[i + 1].row == Row(Stopping, ss[i].row.version + 1, ss[i].row.token, ss[i].row.host)
    ensures ss[j + 1].row == Row(Stopped, ss[i].row.version + 1, ss[i].row.token, ss[i].row.host)
  {
    hide Inv;
    assert Next(ss[i], acts[i], ss[i + 1]) && Next(ss[j], acts[j], ss[j + 1]);
    UserWrites(ss[i].row, Busy(ss[i].turns, ss[i].row.version));
    RunnerWrites(ss[j].row, Busy(ss[j].turns, ss[j].row.version), ss[i].row.version + 1, None, 0);
  }

  // ---- At most once, FIFO, poison -----------------------------------------------------------------

  ghost predicate ExecutingNow(s: Slice, tid: TaskId) {
    At(s, tid) && s.tasks[tid].pc.InExecution?
  }

  /** At most once: no key occurs twice among all executions of a run, and at most one task is executing. */
  lemma AtMostOnce(ss: seq<Slice>, acts: seq<Option<Action>>, i: nat)
    requires Run(ss, acts) && i < |ss|
    ensures forall m, n :: 0 <= m < n < |ss[i].log| ==> ss[i].log[m].key != ss[i].log[n].key
    ensures forall t, t' :: ExecutingNow(ss[i], t) && ExecutingNow(ss[i], t') ==> t == t'
  {
    RunKeepsInv(ss, acts, i);
    forall t, t' | ExecutingNow(ss[i], t) && ExecutingNow(ss[i], t') ensures t == t' {
      TaskFact(ss[i], t);
      TaskFact(ss[i], t');
    }
  }

  /** An execution runs the key, text and version that were accepted, of a queued turn, at the session's current version
      and token. */
  lemma ExecutesWhatWasSent(ss: seq<Slice>, acts: seq<Option<Action>>, i: nat, tid: TaskId)
    requires Run(ss, acts) && i < |acts| && acts[i] == Some(AdmitTurn(tid)) && |ss[i].log| < |ss[i + 1].log|
    ensures var x := ss[i + 1].log[|ss[i].log|];
            && ss[i + 1].log == ss[i].log + [x]
            && x.key in ss[i].sent && x.text == ss[i].sent[x.key].text && x.version == ss[i].sent[x.key].version
            && x.key in ss[i].turns && ss[i].turns[x.key].status.Queued? && x.version == ss[i].row.version && x.token == ss[i].row.token
  {
    hide Inv;
    assert Next(ss[i], acts[i], ss[i + 1]);
    RunKeepsInv(ss, acts, i);
    AdmittedShape(ss[i], tid, ss[i + 1]);
    TaskFact(ss[i], tid);
  }

  /** The turn was executing when its handler died, or has been declared uncertain. */
  ghost predicate IsInterrupted(s: Slice, k: Key) {
    && k in s.turns
    && (s.turns[k].status.Uncertain?
        || (s.turns[k].status.Executing? && forall t :: ExecutingNow(s, t) ==> s.tasks[t].envelope.key != k))
  }

  lemma ExecutedTurnIsLogged(s: Slice, k: Key) returns (i: nat)
    requires Inv(s) && k in s.turns && !s.turns[k].status.Queued? && !s.turns[k].status.Aborted?
    ensures i < |s.log| && s.log[i].key == k && Recorded(s.turns[k], s.log[i])
    ensures EarlierRetired(s.turns, s.log[i].version, s.log[i].seqno)
  {
    hide Ledger, Chained, PostsOk, EnvelopesOk, NotLost, TasksOk, SentOk;
    assert InLog(s.log, k);
    i :| 0 <= i < |s.log| && s.log[i].key == k;
    LogFact(s, i);
  }

  lemma InterruptedTurnBlocks(s: Slice, k: Key, tid: TaskId)
    requires Inv(s) && k in s.turns && (s.turns[k].status.Executing? || s.turns[k].status.Uncertain?)
    requires At(s, tid) && s.tasks[tid].pc.Admitting?
    ensures s.tasks[tid].envelope.version != s.turns[k].version
  {
    hide Inv;
    TaskFact(s, tid);
    EnvelopeFact(s, s.tasks[tid].envelope);
    var i := ExecutedTurnIsLogged(s, k);
    LedgerFact(s, k);
  }

  lemma AdmitStaysInterrupted(s: Slice, tid: TaskId, s': Slice, k: Key)
    requires Inv(s) && StepAdmitTurn(s, tid, s') && IsInterrupted(s, k)
    ensures IsInterrupted(s', k) && s'.turns[k].version == s.turns[k].version
    ensures forall n :: |s.log| <= n < |s'.log| ==> s'.log[n].version != s.turns[k].version
  {
    hide Inv;
    InterruptedTurnBlocks(s, k, tid);
    TaskFact(s, tid);
    if LiveAt(s.row, s.tasks[tid].envelope.version) {
      AdmittedShape(s, tid, s');
    }
    forall t | ExecutingNow(s', t) && s.turns[k].status.Executing? ensures s'.tasks[t].envelope.key != k {
      if t != tid {
        assert ExecutingNow(s, t);
      }
    }
  }

  lemma CompleteStaysInterrupted(s: Slice, tid: TaskId, reply: string, token: Option<Token>, s': Slice, k: Key)
    requires Inv(s) && StepComplete(s, tid, reply, token, s') && IsInterrupted(s, k)
    ensures IsInterrupted(s', k) && s'.turns[k].version == s.turns[k].version && |s'.log| == |s.log|
  {
    hide Inv, WriteRow, StepComplete, TaskOk;
    Executes(s, tid, reply, token, s');
    CompleteShape(s, tid, reply, token, s');
    OtherExecutions(s, s');
  }

  lemma Executes(s: Slice, tid: TaskId, reply: string, token: Option<Token>, s': Slice)
    requires StepComplete(s, tid, reply, token, s')
    ensures ExecutingNow(s, tid) && |s.log| > 0
  {
    hide WriteRow;
  }

  lemma MarkStaysInterrupted(s: Slice, a: Action, s': Slice, k: Key)
    requires Inv(s) && Step(s, a, s') && IsInterrupted(s, k) && (a.MarkUncertain? || a.MarkAborted? || a.MarkTurn?)
    ensures IsInterrupted(s', k) && s'.turns[k].version == s.turns[k].version && |s'.log| == |s.log|
  {
    hide Inv, Return, SetPc, NoNewExecution, KeepsStatuses, ReadsRow, TouchesOnly;
    TaskFact(s, a.tid);
    OtherExecutions(s, s');
  }

  /** Only an admission puts a task into execution. */
  lemma StepStartsNothing(s: Slice, a: Action, s': Slice)
    requires Step(s, a, s') && !a.AdmitTurn?
    ensures NoNewExecution(s, s')
  {
    hide WriteRow, Standalone, End, NoNewExecution, KeepsStatuses, ReadsRow;
    hide StepBegin, StepEndCreate, StepBeginResume, StepReadResuming, StepFailResume, StepCommitResume, StepFailRecover,
         StepEnqueue, StepPublish, StepRefuse, StepSweepOutbox, StepDeliver, StepTrimEntry, StepSweepResult, StepFetch,
         StepTryLock, StepReadRow, StepReadTurn, StepReadEarliest, StepMarkUncertain, StepPostUncertain,
         StepMarkAborted, StepPostDenied, StepAdmitTurn, StepComplete, StepPostReply, StepMarkTurn, StepAck;
  }

  /** The remaining steps touch no turn's status. */
  lemma StepKeepsTurns(s: Slice, a: Action, s': Slice)
    requires Step(s, a, s')
    requires !a.AdmitTurn? && !a.Complete? && !a.MarkUncertain? && !a.MarkAborted? && !a.MarkTurn?
    ensures KeepsStatuses(s, s')
  {
    hide WriteRow, Standalone, End, NoNewExecution, KeepsStatuses, ReadsRow;
    hide StepBegin, StepEndCreate, StepBeginResume, StepReadResuming, StepFailResume, StepCommitResume, StepFailRecover,
         StepEnqueue, StepPublish, StepRefuse, StepSweepOutbox, StepDeliver, StepTrimEntry, StepSweepResult, StepFetch,
         StepTryLock, StepReadRow, StepReadTurn, StepReadEarliest, StepMarkUncertain, StepPostUncertain,
         StepMarkAborted, StepPostDenied, StepAdmitTurn, StepComplete, StepPostReply, StepMarkTurn, StepAck;
  }

  lemma StepStaysInterrupted(s: Slice, a: Action, s': Slice, k: Key)
    requires Inv(s) && Step(s, a, s') && IsInterrupted(s, k)
    ensures IsInterrupted(s', k) && s'.turns[k].version == s.turns[k].version
    ensures forall n :: |s.log| <= n < |s'.log| ==> s'.log[n].version != s.turns[k].version
  {
    hide Inv, WriteRow, Blocked, UpsertExecuting;
    if a.AdmitTurn? {
      AdmitStaysInterrupted(s, a.tid, s', k);
    } else if a.Complete? {
      CompleteStaysInterrupted(s, a.tid, a.reply, a.token, s', k);
    } else if a.MarkUncertain? || a.MarkAborted? || a.MarkTurn? {
      MarkStaysInterrupted(s, a, s', k);
    } else {
      StepKeepsTurns(s, a, s');
      StepStartsNothing(s, a, s');
      OtherExecutions(s, s');
    }
  }

  /** No step but an admission puts a task into execution. */
  lemma OtherExecutions(s: Slice, s': Slice)
    requires NoNewExecution(s, s')
    ensures forall t :: ExecutingNow(s', t) ==> ExecutingNow(s, t) && s.tasks[t] == s'.tasks[t]
  {}

  /** Poison stop: once a turn is interrupted it stays so, and no other turn of its version is ever executed. */
  lemma {:induction false} PoisonStop(ss: seq<Slice>, acts: seq<Option<Action>>, i: nat, j: nat, k: Key)
    requires Run(ss, acts) && i <= j < |ss| && IsInterrupted(ss[i], k)
    ensures IsInterrupted(ss[j], k) && ss[j].turns[k].version == ss[i].turns[k].version
    ensures |ss[i].log| <= |ss[j].log|
    ensures forall n :: |ss[i].log| <= n < |ss[j].log| ==> ss[j].log[n].version != ss[i].turns[k].version
    decreases j - i
  {
    hide Inv, Step;
    if i < j {
      PoisonStop(ss, acts, i, j - 1, k);
      RunKeepsInv(ss, acts, j - 1);
      assert Next(ss[j - 1], acts[j - 1], ss[j]);
      if acts[j - 1].Some? {
        StepStaysInterrupted(ss[j - 1], acts[j - 1].value, ss[j], k);
        StepExtends(ss[j - 1], acts[j - 1].value, ss[j]);
      }
    }
  }

  /** FIFO: within one version, turns are executed in strictly increasing sequence order, and when one is
      executed every earlier turn of that version has been retired for good. */
  lemma Fifo(ss: seq<Slice>, acts: seq<Option<Action>>, i: nat)
    requires Run(ss, acts) && i < |ss|
    ensures forall m, n :: 0 <= m < n < |ss[i].log| && ss[i].log[m].version == ss[i].log[n].version ==>
                             ss[i].log[m].seqno < ss[i].log[n].seqno
    ensures forall n :: 0 <= n < |ss[i].log| ==> EarlierRetired(ss[i].turns, ss[i].log[n].version, ss[i].log[n].seqno)
  {
    RunKeepsInv(ss, acts, i);
  }

  // ---- No accepted input is lost ----------------------------------------------------------------------

  /** No loss: an accepted turn that still needs work, in an era that is or may still be live, has its envelope
      unpublished in the outbox or unacknowledged in the stream; the envelope is the one that was accepted. */
  lemma NothingLost(ss: seq<Slice>, acts: seq<Option<Action>>, i: nat, k: Key)
    requires Run(ss, acts) && i < |ss| && k in ss[i].sent
    ensures k in ss[i].turns && ss[i].turns[k].version == ss[i].sent[k].version
    ensures Open(ss[i].turns[k].status) && !Over(ss[i].row, ss[i].turns[k].version) ==>
              || (exists r :: r in ss[i].outbox && !ss[i].outbox[r].published && ss[i].outbox[r].envelope == ss[i].sent[k])
              || (exists m :: m in ss[i].stream && !ss[i].stream[m].delivery.Acked? && ss[i].stream[m].envelope == ss[i].sent[k])
  {
    RunKeepsInv(ss, acts, i);
    var s := ss[i];
    if Unpublished(s.outbox, k) {
      var r :| r in s.outbox && !s.outbox[r].published && s.outbox[r].envelope.key == k;
      assert Known(s.sent, s.outbox[r].envelope);
    } else if Unacked(s.stream, k) {
      var m :| m in s.stream && !s.stream[m].delivery.Acked? && s.stream[m].envelope.key == k;
      assert Known(s.sent, s.stream[m].envelope);
    }
  }

  /** A turn that is retired or uncertain is left alone by every step. */
  ghost predicate StaysDone(s: Slice, s': Slice, k: Key)
    requires k in s.turns
  {
    && k in s'.turns && s'.turns[k].version == s.turns[k].version
    && (Terminal(s.turns[k].status) || s.turns[k].status.Uncertain? ==> s'.turns[k].status == s.turns[k].status)
  }

  lemma AdmitStaysDone(s: Slice, tid: TaskId, s': Slice, k: Key)
    requires Inv(s) && StepAdmitTurn(s, tid, s') && k in s.turns
    ensures StaysDone(s, s', k)
  {
    hide Inv, WriteRow, NoNewExecution, KeepsStatuses, TouchesOnly;
    TaskFact(s, tid);
  }

  lemma CompleteStaysDone(s: Slice, tid: TaskId, reply: string, token: Option<Token>, s': Slice, k: Key)
    requires Inv(s) && StepComplete(s, tid, reply, token, s') && k in s.turns
    ensures StaysDone(s, s', k)
  {
    hide Inv, WriteRow, NoNewExecution, KeepsStatuses, TouchesOnly;
    TaskFact(s, tid);
  }

  lemma MarkStaysDone(s: Slice, a: Action, s': Slice, k: Key)
    requires Inv(s) && Step(s, a, s') && k in s.turns && (a.MarkUncertain? || a.MarkAborted? || a.MarkTurn?)
    ensures StaysDone(s, s', k)
  {
    hide Inv, Return, SetPc, NoNewExecution, KeepsStatuses, ReadsRow, TouchesOnly;
    TaskFact(s, a.tid);
  }

  lemma StepStaysDone(s: Slice, a: Action, s': Slice, k: Key)
    requires Inv(s) && Step(s, a, s') && k in s.turns
    ensures StaysDone(s, s', k)
  {
    hide Inv, Step, StaysDone;
    if a.AdmitTurn? {
      AdmitStep(s, a, s');
      AdmitStaysDone(s, a.tid, s', k);
    } else if a.Complete? {
      AdmitStep(s, a, s');
      CompleteStaysDone(s, a.tid, a.reply, a.token, s', k);
    } else if a.MarkUncertain? || a.MarkAborted? || a.MarkTurn? {
      MarkStaysDone(s, a, s', k);
    } else {
      StepKeepsTurns(s, a, s');
      KeptStaysDone(s, s', k);
    }
  }

  lemma StepStaysSettled(s: Slice, a: Action, s': Slice, k: Key)
    requires Inv(s) && Step(s, a, s') && Settled(s.row, s.turns, k)
    ensures Settled(s'.row, s'.turns, k)
  {
    hide Inv, Step;
    StepEvolves(s, a, s');
    SettledForever(s.row, s'.row, s.turns, k);
    StepStaysDone(s, a, s', k);
  }

  lemma AdmitStep(s: Slice, a: Action, s': Slice)
    requires Step(s, a, s')
    ensures a.AdmitTurn? ==> StepAdmitTurn(s, a.tid, s')
    ensures a.Complete? ==> StepComplete(s, a.tid, a.reply, a.token, s')
  {
    hide StepAdmitTurn, StepComplete;
  }

  lemma KeptStaysDone(s: Slice, s': Slice, k: Key)
    requires KeepsStatuses(s, s') && k in s.turns
    ensures StaysDone(s, s', k)
  {}

  lemma {:induction false} SettledStays(ss: seq<Slice>, acts: seq<Option<Action>>, i: nat, j: nat, k: Key)
    requires Run(ss, acts) && i <= j < |ss| && Settled(ss[i].row, ss[i].turns, k)
    ensures Settled(ss[j].row, ss[j].turns, k)
    decreases j - i
  {
    hide Inv, Step, Settled;
    if i < j {
      SettledStays(ss, acts, i, j - 1, k);
      RunKeepsInv(ss, acts, j - 1);
      assert Next(ss[j - 1], acts[j - 1], ss[j]);
      if acts[j - 1].Some? {
        StepStaysSettled(ss[j - 1], acts[j - 1].value, ss[j], k);
      }
    }
  }

  /** An input job is acknowledged only when its turn is retired, uncertain, or of an era that is over,
      and it stays that way in every later state. */
  lemma AckedOnlyWhenSettled(ss: seq<Slice>, acts: seq<Option<Action>>, i: nat, tid: TaskId)
    requires Run(ss, acts) && i < |acts| && acts[i] == Some(Ack(tid))
    ensures At(ss[i], tid)
    ensures forall j :: i <= j < |ss| ==> Settled(ss[j].row, ss[j].turns, ss[i].tasks[tid].envelope.key)
  {
    hide Inv, Settled;
    assert Next(ss[i], acts[i], ss[i + 1]);
    RunKeepsInv(ss, acts, i);
    TaskFact(ss[i], tid);
    forall j | i <= j < |ss| ensures Settled(ss[j].row, ss[j].turns, ss[i].tasks[tid].envelope.key) {
      SettledStays(ss, acts, i, j, ss[i].tasks[tid].envelope.key);
    }
  }

  // ---- Replies -----------------------------------------------------------------------------------------

  lemma ReplyFact(s: Slice, p: nat)
    requires Inv(s) && p < |s.posts| && s.posts[p].Reply?
    ensures Produced(s.log, s.posts[p].key, s.posts[p].text)
    ensures forall m, n :: 0 <= m < |s.log| && 0 <= n < |s.log| && s.log[m].key == s.log[n].key ==> m == n
  {
    hide Ledger, Chained, EnvelopesOk, NotLost, TasksOk, SentOk;
  }

  /** Reply consistency: every post under a turn's key carries exactly the text that the turn's one execution
      produced, whichever attempt it was. */
  lemma ReplyConsistency(ss: seq<Slice>, acts: seq<Option<Action>>, i: nat, p: nat)
    requires Run(ss, acts) && i < |ss| && p < |ss[i].posts| && ss[i].posts[p].Reply?
    ensures exists n :: 0 <= n < |ss[i].log| && ss[i].log[n].key == ss[i].posts[p].key
                        && ss[i].log[n].result.Some? && ss[i].posts[p].text == Some(ss[i].log[n].result.value.reply)
    ensures forall n :: 0 <= n < |ss[i].log| && ss[i].log[n].key == ss[i].posts[p].key ==>
                          ss[i].log[n].result.Some? && ss[i].posts[p].text == Some(ss[i].log[n].result.value.reply)
  {
    hide Inv;
    RunKeepsInv(ss, acts, i);
    ReplyFact(ss[i], p);
  }

  /** Retention never erases a completed but undelivered result. */
  lemma CompletedResultKept(ss: seq<Slice>, acts: seq<Option<Action>>, i: nat, k: Key)
    requires Run(ss, acts) && i < |ss| && k in ss[i].turns && ss[i].turns[k].status.Completed?
    ensures exists n :: 0 <= n < |ss[i].log| && ss[i].log[n].key == k && ss[i].log[n].result.Some?
                        && ss[i].turns[k].result == Some(ss[i].log[n].result.value.reply)
  {
    hide Inv;
    RunKeepsInv(ss, acts, i);
    var n := ExecutedTurnIsLogged(ss[i], k);
  }

  /** Retention erases a delivered result, and a published row, and nothing else of the session. */
  lemma RetentionErases(s: Slice, a: Action, s': Slice)
    requires Step(s, a, s') && (a.SweepResult? || a.SweepOutbox?)
    ensures a.SweepResult? ==> && a.key in s.turns && s.turns[a.key].status in {Delivered, DeliveryFailed}
                               && s' == s.(turns := s.turns[a.key := s.turns[a.key].(result := None)])
    ensures a.SweepOutbox? ==> a.rid in s.outbox && s.outbox[a.rid].published && s' == s.(outbox := s.outbox - {a.rid})
  {
    hide NoNewExecution, KeepsStatuses, ReadsRow, TouchesOnly;
  }

  // ---- The janitor ---------------------------------------------------------------------------------------

  ghost predicate UserEnds(a: Action) {
    a.Lifecycle? && (a.write.StopSaga? || a.write.ArchiveSaga? || a.write.RestartSaga?)
  }

  lemma BusyWriteEnd(r: Row, w: Write)
    requires Live(r) && !LiveAt(Update(r, true, w), r.version)
    ensures w.StopSaga? || w.ArchiveSaga? || w.RestartSaga? || Dead(Update(r, true, w))
  {}

  lemma BusyEraEnd(s: Slice, a: Action, s': Slice)
    requires Step(s, a, s') && Live(s.row) && !LiveAt(s'.row, s.row.version) && Busy(s.turns, s.row.version)
    ensures UserEnds(a) || Dead(s'.row)
  {
    hide Step, Update;
    StepWrites(s, a, s');
    BusyWriteEnd(s.row, WriteOf(s, a));
    if a.EndCreate? {
      CreateOnly(s, a, s');
    }
  }

  lemma CreateOnly(s: Slice, a: Action, s': Slice)
    requires Step(s, a, s') && a.EndCreate?
    ensures a.write.CreateRunning? || a.write.CreateFailed?
  {}

  /** The janitor never cuts off work: if a session is live at `v` at time `i` and no longer at `j`, then its era
      ended at one step between, and if a turn of the era was still open at that step, the step was a user's stop,
      archive or restart, or the session failed or was orphaned. No timeout sweep did it. */
  lemma {:induction false} JanitorNeverCutsOffWork(ss: seq<Slice>, acts: seq<Option<Action>>, i: nat, j: nat, v: nat)
    returns (m: nat)
    requires Run(ss, acts) && i <= j < |ss| && LiveAt(ss[i].row, v) && !LiveAt(ss[j].row, v)
    ensures i <= m < j && LiveAt(ss[m].row, v) && acts[m].Some?
    ensures forall n :: i <= n <= m ==> LiveAt(ss[n].row, v)
    ensures forall n :: m < n < |ss| ==> !LiveAt(ss[n].row, v)
    ensures Busy(ss[m].turns, v) ==> UserEnds(acts[m].value) || Dead(ss[m + 1].row)
    decreases j - i
  {
    hide Step;
    if LiveAt(ss[i + 1].row, v) {
      m := JanitorNeverCutsOffWork(ss, acts, i + 1, j, v);
    } else {
      m := i;
      assert Next(ss[i], acts[i], ss[i + 1]);
      forall n | i < n < |ss| ensures !LiveAt(ss[n].row, v) {
        RunEvolves(ss, acts, i, i + 1, v);
        RunEvolves(ss, acts, i + 1, n, v);
      }
      if Busy(ss[i].turns, v) {
        BusyEraEnd(ss[i], acts[i].value, ss[i + 1]);
      }
    }
  }
}
