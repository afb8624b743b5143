/**
 `_consume_input_stream`: bounded concurrency, with the jobs of one session serialized in admission order.

 Each admitted message gets a task that waits for the previous task of its session, then for a slot, then runs the
 handler. Tasks are numbered in admission order; `started` records the order in which handlers begin.
 */
module InputScheduler {
  import opened Options

  type MessageId = nat
  type SessionId = nat
  type TaskId = nat

  datatype Pc = AwaitingPrevious | AwaitingSlot | Running | Done

  datatype Task = Task(mid: MessageId, sid: SessionId, previous: Option<TaskId>, pc: Pc)

  /** A message of a batch; no session means an invalid payload. */
  datatype Message = Message(mid: MessageId, sid: Option<SessionId>)

  datatype State = State(
    concurrency: nat,
    stop: bool,
    batch: seq<Message>,             // fetched, not yet admitted
    tasks: seq<Task>,
    active: set<TaskId>,
    tails: map<SessionId, TaskId>,
    inflight: set<MessageId>,
    slots: nat,                      // free slots
    started: seq<TaskId>,
    dead: set<MessageId>)            // the dead-letter hash

  datatype Action =
    | Prune                          // the top of the loop
    | Fetch(messages: seq<Message>)
    | Skip                           // already in flight
    | DropPoison
    | AwaitCapacity                  // asyncio.wait(active, FIRST_COMPLETED)
    | Admit
    | Stop
    | PreviousDone(t: TaskId)
    | TakeSlot(t: TaskId)
    | Finish(t: TaskId)

  function Capacity(s: State): nat {
    s.concurrency * 8
  }

  predicate IsDone(s: State, t: TaskId) {
    t < |s.tasks| && s.tasks[t].pc.Done?
  }

  predicate Initial(s: State) {
    && s.concurrency > 0 && !s.stop && s.batch == [] && s.tasks == [] && s.active == {} && s.tails == map[]
    && s.inflight == {} && s.slots == s.concurrency && s.started == [] && s.dead == {}
  }

  function NotDone(s: State, ts: set<TaskId>): set<TaskId> {
    set t | t in ts && !IsDone(s, t)
  }

  function WithPc(s: State, t: TaskId, pc: Pc): State
    requires t < |s.tasks|
  {
    s.(tasks := s.tasks[t := s.tasks[t].(pc := pc)])
  }

  /** The end of a task, whatever its outcome: it is no longer in flight. */
  function Ended(s: State, t: TaskId): State
    requires t < |s.tasks|
  {
    WithPc(s, t, Done).(inflight := s.inflight - {s.tasks[t].mid})
  }

  function TailOf(s: State, sid: SessionId): Option<TaskId> {
    if sid in s.tails then Some(s.tails[sid]) else None
  }

  /** The state with one more task for the first message of the batch. */
  function Admitted(s: State): State
    requires s.batch != [] && s.batch[0].sid.Some?
  {
    var m := s.batch[0];
    var t := |s.tasks|;
    s.(batch := s.batch[1..],
       tasks := s.tasks + [Task(m.mid, m.sid.value, TailOf(s, m.sid.value), AwaitingPrevious)],
       active := s.active + {t},
       tails := s.tails[m.sid.value := t],
       inflight := s.inflight + {m.mid})
  }

  predicate CanLeavePrevious(s: State, t: TaskId) {
    && t < |s.tasks| && s.tasks[t].pc.AwaitingPrevious?
    && (s.tasks[t].previous.Some? ==> IsDone(s, s.tasks[t].previous.value))
  }

  /** With a slot, the handler starts; after `stop` the task ends instead and its message stays pending. */
  function TakenSlot(s: State, t: TaskId): State
    requires t < |s.tasks| && s.slots > 0
  {
    if s.stop then Ended(s, t) else WithPc(s, t, Running).(slots := s.slots - 1, started := s.started + [t])
  }

  predicate IsTaskStep(a: Action) {
    a.PreviousDone? || a.TakeSlot? || a.Finish?
  }

  /** Steps of the tasks. */
  ghost predicate TaskStep(s: State, a: Action, s': State)
    requires IsTaskStep(a)
  {
    match a
    case PreviousDone(t) => CanLeavePrevious(s, t) && s' == WithPc(s, t, AwaitingSlot)
    case TakeSlot(t) => t < |s.tasks| && s.tasks[t].pc.AwaitingSlot? && s.slots > 0 && s' == TakenSlot(s, t)
    case Finish(t) => t < |s.tasks| && s.tasks[t].pc.Running? && s' == Ended(s, t).(slots := s.slots + 1)
  }

  ghost predicate Step(s: State, a: Action, s': State) {
    match a
    case Prune =>
      && s.batch == []
      && s' == s.(active := NotDone(s, s.active), tails := map sid | sid in s.tails && !IsDone(s, s.tails[sid]) :: s.tails[sid])
    case Fetch(messages) => s.batch == [] && !s.stop && |s.active| < Capacity(s) && s' == s.(batch := messages)
    case Skip => s.batch != [] && s.batch[0].mid in s.inflight && s' == s.(batch := s.batch[1..])
    case DropPoison =>
      && s.batch != [] && s.batch[0].sid.None?
      && s' == s.(batch := s.batch[1..], dead := s.dead + {s.batch[0].mid})
    case AwaitCapacity =>
      && |s.active| >= Capacity(s) && (exists t :: t in s.active && IsDone(s, t))
      && s' == s.(active := NotDone(s, s.active))
    case Admit =>
      && s.batch != [] && s.batch[0].sid.Some? && s.batch[0].mid !in s.inflight && |s.active| < Capacity(s)
      && s' == Admitted(s)
    case Stop => s' == s.(stop := true)
    case _ => TaskStep(s, a, s')
  }

  // ---- The invariant --------------------------------------------------------------------------

  /** A task that has left its predecessor behind has left every earlier task of its session behind; until then it
      waits for one that is at least as late as any unfinished one. */
  ghost predicate OrderInv(s: State, t: TaskId)
    requires t < |s.tasks|
  {
    && (s.tasks[t].previous.Some? ==> s.tasks[t].previous.value < t && s.tasks[s.tasks[t].previous.value].sid == s.tasks[t].sid)
    && forall u :: 0 <= u < t && s.tasks[u].sid == s.tasks[t].sid && !s.tasks[u].pc.Done? ==>
         && s.tasks[t].pc.AwaitingPrevious?
         && s.tasks[t].previous.Some? && u <= s.tasks[t].previous.value
  }

  /** The tail of a session is its last task. */
  ghost predicate TailsInv(s: State) {
    && (forall sid :: sid in s.tails ==> s.tails[sid] < |s.tasks| && s.tasks[s.tails[sid]].sid == sid)
    && forall t :: 0 <= t < |s.tasks| && (!s.tasks[t].pc.Done? || s.tasks[t].sid in s.tails) ==>
         (!s.tasks[t].pc.Done? ==> s.tasks[t].sid in s.tails) && t <= s.tails[s.tasks[t].sid]
  }

  /** Every unfinished task's message is in flight, each in one task, and every unfinished task is active. */
  ghost predicate FlightInv(s: State) {
    && (forall t :: 0 <= t < |s.tasks| && !s.tasks[t].pc.Done? ==> s.tasks[t].mid in s.inflight && t in s.active)
    && (forall t, u :: 0 <= t < u < |s.tasks| && !s.tasks[t].pc.Done? && !s.tasks[u].pc.Done? ==>
          s.tasks[t].mid != s.tasks[u].mid)
    && (forall t :: t in s.active ==> t < |s.tasks|)
    && |s.active| <= Capacity(s)
  }

  ghost function UnfinishedMids(tasks: seq<Task>): set<MessageId> {
    set t | 0 <= t < |tasks| && !tasks[t].pc.Done? :: tasks[t].mid
  }

  ghost function RunningSet(tasks: seq<Task>): set<TaskId> {
    set t | 0 <= t < |tasks| && tasks[t].pc.Running?
  }

  ghost predicate SlotsInv(s: State) {
    s.concurrency > 0 && s.slots + |RunningSet(s.tasks)| == s.concurrency
  }

  /** Handlers of one session have started in admission order. */
  ghost predicate StartedInv(s: State) {
    && (forall i :: 0 <= i < |s.started| ==>
          s.started[i] < |s.tasks| && (s.tasks[s.started[i]].pc.Running? || s.tasks[s.started[i]].pc.Done?))
    && (forall i, j :: 0 <= i < j < |s.started| && s.tasks[s.started[i]].sid == s.tasks[s.started[j]].sid ==>
          s.started[i] < s.started[j])
    && (forall t :: 0 <= t < |s.tasks| && s.tasks[t].pc.Running? ==> t in s.started)
  }

  ghost predicate Ordered(s: State) {
    forall t :: 0 <= t < |s.tasks| ==> OrderInv(s, t)
  }

  ghost predicate Inv(s: State) {
    Ordered(s) && TailsInv(s) && FlightInv(s) && s.inflight <= UnfinishedMids(s.tasks) && SlotsInv(s) && StartedInv(s)
  }

  lemma InvInitially(s: State)
    requires Initial(s)
    ensures Inv(s)
  {}

  // ---- Every step keeps it ----------------------------------------------------------------------

  /** All earlier tasks of its session are finished. */
  ghost predicate IsFirst(s: State, t: TaskId)
    requires t < |s.tasks|
  {
    forall u :: 0 <= u < t && s.tasks[u].sid == s.tasks[t].sid ==> s.tasks[u].pc.Done?
  }

  /** Finished predecessors are enough: a task that may go on, or has gone on, is the first of its session. */
  lemma GoingOnMeansFirst(s: State, t: TaskId)
    requires Ordered(s) && t < |s.tasks| && (CanLeavePrevious(s, t) || !s.tasks[t].pc.AwaitingPrevious?)
    ensures IsFirst(s, t)
  {
    assert OrderInv(s, t);
    if s.tasks[t].previous.Some? {
      assert OrderInv(s, s.tasks[t].previous.value);
    }
  }

  lemma SetPcKeepsOrdered(s: State, t: TaskId, pc: Pc, s': State)
    requires Ordered(s) && t < |s.tasks| && IsFirst(s, t) && !s.tasks[t].pc.Done?
    requires s'.tasks == s.tasks[t := s.tasks[t].(pc := pc)]
    ensures Ordered(s')
  {
    forall w | 0 <= w < |s'.tasks| ensures OrderInv(s', w) {
      assert OrderInv(s, w);
    }
  }

  lemma AdmitKeepsOrdered(s: State, s': State)
    requires Ordered(s) && TailsInv(s) && Step(s, Admit, s')
    ensures Ordered(s')
  {
    forall w | 0 <= w < |s'.tasks| ensures OrderInv(s', w) {
      if w < |s.tasks| {
        assert OrderInv(s, w);
      }
    }
  }

  /** The task steps only move one task on, and only to a place where it is the first of its session. */
  lemma TaskStepMoves(s: State, a: Action, s': State)
    requires Ordered(s) && IsTaskStep(a) && TaskStep(s, a, s')
    ensures a.t < |s.tasks| && IsFirst(s, a.t) && !s.tasks[a.t].pc.Done? && |s'.tasks| == |s.tasks|
    ensures s'.tasks == s.tasks[a.t := s.tasks[a.t].(pc := s'.tasks[a.t].pc)]
    ensures !s'.tasks[a.t].pc.AwaitingPrevious?
    ensures s'.inflight == (if s'.tasks[a.t].pc.Done? then s.inflight - {s.tasks[a.t].mid} else s.inflight)
    ensures s'.active == s.active && s'.tails == s.tails && s'.concurrency == s.concurrency && s'.batch == s.batch && s'.stop == s.stop
    ensures s'.dead == s.dead
  {
    hide Ordered;
    GoingOnMeansFirst(s, a.t);
  }

  lemma StepKeepsOrdered(s: State, a: Action, s': State)
    requires Inv(s) && Step(s, a, s')
    ensures Ordered(s')
  {
    hide FlightInv, SlotsInv, StartedInv, TailsInv, OrderInv, TaskStep;
    if IsTaskStep(a) {
      TaskStepMoves(s, a, s');
      SetPcKeepsOrdered(s, a.t, s'.tasks[a.t].pc, s');
    } else if a.Admit? {
      AdmitKeepsOrdered(s, s');
    } else {
      SameTasksKeepOrdered(s, s');
    }
  }

  lemma SameTasksKeepOrdered(s: State, s': State)
    requires Ordered(s) && s'.tasks == s.tasks
    ensures Ordered(s')
  {
    forall w | 0 <= w < |s'.tasks| ensures OrderInv(s', w) {
      assert OrderInv(s, w);
    }
  }

  lemma AdmitKeepsTails(s: State, s': State)
    requires TailsInv(s) && Step(s, Admit, s')
    ensures TailsInv(s')
  {}

  lemma PruneKeepsTails(s: State, s': State)
    requires Ordered(s) && TailsInv(s) && Step(s, Prune, s')
    ensures TailsInv(s')
  {
    forall t | 0 <= t < |s.tasks| && !s.tasks[t].pc.Done? ensures !IsDone(s, s.tails[s.tasks[t].sid]) {
      assert OrderInv(s, s.tails[s.tasks[t].sid]);
    }
  }

  lemma TaskStepKeepsTails(s: State, a: Action, s': State)
    requires Ordered(s) && TailsInv(s) && IsTaskStep(a) && TaskStep(s, a, s')
    ensures TailsInv(s')
  {
    hide Ordered, TaskStep;
    TaskStepMoves(s, a, s');
  }

  lemma StepKeepsTails(s: State, a: Action, s': State)
    requires Inv(s) && Step(s, a, s')
    ensures TailsInv(s')
  {
    hide FlightInv, SlotsInv, StartedInv, Ordered, TaskStep;
    if IsTaskStep(a) {
      TaskStepKeepsTails(s, a, s');
    } else if a.Admit? {
      AdmitKeepsTails(s, s');
    } else if a.Prune? {
      PruneKeepsTails(s, s');
    }
  }

  lemma AdmitKeepsFlight(s: State, s': State)
    requires FlightInv(s) && Step(s, Admit, s')
    ensures FlightInv(s')
  {
    assert |s'.active| <= |s.active| + 1;
  }

  lemma PrunedIsFewer(s: State)
    ensures |NotDone(s, s.active)| <= |s.active|
  {
    Fewer(NotDone(s, s.active), s.active);
  }

  lemma {:induction false} Fewer(a: set<TaskId>, b: set<TaskId>)
    requires a <= b
    ensures |a| <= |b|
  {
    if a != {} {
      var t :| t in a;
      Fewer(a - {t}, b - {t});
    }
  }

  lemma PruneKeepsFlight(s: State, s': State)
    requires FlightInv(s) && s'.tasks == s.tasks && s'.inflight == s.inflight && s'.concurrency == s.concurrency
    requires s'.active == NotDone(s, s.active)
    ensures FlightInv(s')
  {
    PrunedIsFewer(s);
  }

  lemma TaskStepKeepsFlight(s: State, a: Action, s': State)
    requires Ordered(s) && FlightInv(s) && IsTaskStep(a) && TaskStep(s, a, s')
    ensures FlightInv(s')
  {
    hide Ordered, TaskStep;
    TaskStepMoves(s, a, s');
  }

  lemma StepKeepsFlight(s: State, a: Action, s': State)
    requires Inv(s) && Step(s, a, s')
    ensures FlightInv(s')
  {
    hide TailsInv, SlotsInv, StartedInv, Ordered, TaskStep, FlightInv;
    if IsTaskStep(a) {
      TaskStepKeepsFlight(s, a, s');
    } else if a.Admit? {
      AdmitKeepsFlight(s, s');
    } else if a.Prune? || a.AwaitCapacity? {
      PruneKeepsFlight(s, s');
    } else {
      SameKeepsFlight(s, s');
    }
  }

  lemma SameKeepsFlight(s: State, s': State)
    requires FlightInv(s) && s'.tasks == s.tasks && s'.inflight == s.inflight && s'.concurrency == s.concurrency && s'.active == s.active
    ensures FlightInv(s')
  {}

  lemma MidsAfter(tasks: seq<Task>, t: TaskId, pc: Pc)
    requires t < |tasks|
    ensures var after := UnfinishedMids(tasks[t := tasks[t].(pc := pc)]);
            UnfinishedMids(tasks) <= after + {tasks[t].mid} && (!pc.Done? ==> UnfinishedMids(tasks) <= after)
  {
    var tasks' := tasks[t := tasks[t].(pc := pc)];
    forall m | m in UnfinishedMids(tasks) && (m != tasks[t].mid || !pc.Done?) ensures m in UnfinishedMids(tasks') {
      var u :| 0 <= u < |tasks| && !tasks[u].pc.Done? && tasks[u].mid == m;
      assert tasks'[u].mid == m && !tasks'[u].pc.Done?;
    }
  }

  lemma AdmitKeepsMids(s: State, s': State)
    requires s.inflight <= UnfinishedMids(s.tasks) && Step(s, Admit, s')
    ensures s'.inflight <= UnfinishedMids(s'.tasks)
  {
    forall m | m in s'.inflight ensures m in UnfinishedMids(s'.tasks) {
      if m == s.batch[0].mid {
        assert s'.tasks[|s.tasks|].mid == m;
      } else {
        var u :| 0 <= u < |s.tasks| && !s.tasks[u].pc.Done? && s.tasks[u].mid == m;
        assert s'.tasks[u] == s.tasks[u];
      }
    }
  }

  lemma StepKeepsMids(s: State, a: Action, s': State)
    requires Inv(s) && Step(s, a, s')
    ensures s'.inflight <= UnfinishedMids(s'.tasks)
  {
    hide TailsInv, SlotsInv, StartedInv, Ordered, TaskStep, FlightInv, UnfinishedMids;
    if IsTaskStep(a) {
      TaskStepMoves(s, a, s');
      MidsAfter(s.tasks, a.t, s'.tasks[a.t].pc);
    } else if a.Admit? {
      AdmitKeepsMids(s, s');
    }
  }

  lemma RunningAfter(tasks: seq<Task>, t: TaskId, pc: Pc)
    requires t < |tasks|
    ensures RunningSet(tasks[t := tasks[t].(pc := pc)])
            == if pc.Running? then RunningSet(tasks) + {t} else RunningSet(tasks) - {t}
  {}

  lemma TaskStepKeepsSlots(s: State, a: Action, s': State)
    requires SlotsInv(s) && IsTaskStep(a) && TaskStep(s, a, s')
    ensures SlotsInv(s')
  {
    RunningAfter(s.tasks, a.t, s'.tasks[a.t].pc);
    if a.Finish? {
      assert a.t in RunningSet(s.tasks);
    } else {
      assert a.t !in RunningSet(s.tasks);
      assert RunningSet(s.tasks) - {a.t} == RunningSet(s.tasks);
    }
  }

  lemma AdmitKeepsSlots(s: State, s': State)
    requires SlotsInv(s) && Step(s, Admit, s')
    ensures SlotsInv(s')
  {
    assert RunningSet(s'.tasks) == RunningSet(s.tasks);
  }

  lemma StepKeepsSlots(s: State, a: Action, s': State)
    requires Inv(s) && Step(s, a, s')
    ensures SlotsInv(s')
  {
    hide TailsInv, FlightInv, StartedInv, Ordered, TaskStep, RunningSet, UnfinishedMids;
    if IsTaskStep(a) {
      TaskStepKeepsSlots(s, a, s');
    } else if a.Admit? {
      AdmitKeepsSlots(s, s');
    }
  }

  lemma TaskStepKeepsStarted(s: State, a: Action, s': State)
    requires Ordered(s) && StartedInv(s) && IsTaskStep(a) && TaskStep(s, a, s')
    ensures StartedInv(s')
  {
    hide Ordered;
    TaskStepMoves(s, a, s');
    forall i | 0 <= i < |s.started| && s.tasks[s.started[i]].sid == s.tasks[a.t].sid && a.TakeSlot?
      ensures s.started[i] < a.t
    {
      GoingOnMeansFirst(s, s.started[i]);
    }
  }

  lemma AdmitKeepsStarted(s: State, s': State)
    requires StartedInv(s) && Step(s, Admit, s')
    ensures StartedInv(s')
  {}

  lemma StepKeepsStarted(s: State, a: Action, s': State)
    requires Inv(s) && Step(s, a, s')
    ensures StartedInv(s')
  {
    hide TailsInv, FlightInv, SlotsInv, Ordered, TaskStep;
    if IsTaskStep(a) {
      TaskStepKeepsStarted(s, a, s');
    } else if a.Admit? {
      AdmitKeepsStarted(s, s');
    }
  }

  lemma StepKeepsInv(s: State, a: Action, s': State)
    requires Inv(s) && Step(s, a, s')
    ensures Inv(s')
  {
    hide TailsInv, FlightInv, SlotsInv, StartedInv, Ordered, Step;
    StepKeepsOrdered(s, a, s');
    StepKeepsTails(s, a, s');
    StepKeepsFlight(s, a, s');
    StepKeepsMids(s, a, s');
    StepKeepsSlots(s, a, s');
    StepKeepsStarted(s, a, s');
  }

  // ---- Runs -------------------------------------------------------------------------------------

  ghost predicate Path(ss: seq<State>, acts: seq<Action>) {
    |ss| == |acts| + 1 && forall i :: 0 <= i < |acts| ==> Step(ss[i], acts[i], ss[i + 1])
  }

  ghost predicate Run(ss: seq<State>, acts: seq<Action>) {
    Path(ss, acts) && Initial(ss[0])
  }

  lemma {:induction false} RunKeepsInv(ss: seq<State>, acts: seq<Action>, i: nat)
    requires Run(ss, acts) && i < |ss|
    ensures Inv(ss[i])
  {
    hide Step, Inv;
    if i == 0 {
      InvInitially(ss[0]);
    } else {
      RunKeepsInv(ss, acts, i - 1);
      StepKeepsInv(ss[i - 1], acts[i - 1], ss[i]);
    }
  }

  /** At most one handler of a session runs at a time, and then every task of the session admitted earlier is done. */
  lemma OneAtATime(ss: seq<State>, acts: seq<Action>, i: nat, t: TaskId, u: TaskId)
    requires Run(ss, acts) && i < |ss| && u < t < |ss[i].tasks|
    requires ss[i].tasks[t].sid == ss[i].tasks[u].sid && ss[i].tasks[t].pc.Running?
    ensures ss[i].tasks[u].pc.Done?
  {
    RunKeepsInv(ss, acts, i);
    GoingOnMeansFirst(ss[i], t);
  }

  /** The handlers of one session start in the order in which its messages were admitted. */
  lemma StartedInAdmissionOrder(ss: seq<State>, acts: seq<Action>, n: nat, i: nat, j: nat)
    requires Run(ss, acts) && n < |ss| && i < j < |ss[n].started|
    ensures ss[n].started[i] < |ss[n].tasks| && ss[n].started[j] < |ss[n].tasks|
    ensures ss[n].tasks[ss[n].started[i]].sid == ss[n].tasks[ss[n].started[j]].sid ==> ss[n].started[i] < ss[n].started[j]
  {
    RunKeepsInv(ss, acts, n);
  }

  /** A message has at most one unfinished task. */
  lemma OneTaskPerMessage(ss: seq<State>, acts: seq<Action>, i: nat, t: TaskId, u: TaskId)
    requires Run(ss, acts) && i < |ss| && u < |ss[i].tasks| && t < |ss[i].tasks|
    requires ss[i].tasks[t].mid == ss[i].tasks[u].mid && !ss[i].tasks[t].pc.Done? && !ss[i].tasks[u].pc.Done?
    ensures t == u
  {
    RunKeepsInv(ss, acts, i);
  }

  function Unfinished(s: State): set<TaskId> {
    set t | 0 <= t < |s.tasks| && !s.tasks[t].pc.Done?
  }

  /** At most eight times the concurrency are admitted and unfinished, and at most the concurrency run. */
  lemma AdmissionIsBounded(ss: seq<State>, acts: seq<Action>, i: nat)
    requires Run(ss, acts) && i < |ss|
    ensures |Unfinished(ss[i])| <= 8 * ss[i].concurrency && |RunningSet(ss[i].tasks)| <= ss[i].concurrency
  {
    RunKeepsInv(ss, acts, i);
    Fewer(Unfinished(ss[i]), ss[i].active);
  }

  lemma NoStart(s: State, a: Action, s': State)
    requires Step(s, a, s') && s.stop
    ensures s'.stop && s'.started == s.started
  {}

  /** Once the stop is requested, no handler starts; what is running may finish. */
  lemma {:induction false} NothingStartsAfterStop(ss: seq<State>, acts: seq<Action>, i: nat, j: nat)
    requires Path(ss, acts) && i <= j < |ss| && ss[i].stop
    ensures ss[j].stop && ss[j].started == ss[i].started
    decreases j - i
  {
    hide Step;
    if i < j {
      NothingStartsAfterStop(ss, acts, i, j - 1);
      NoStart(ss[j - 1], acts[j - 1], ss[j]);
    }
  }

  /** Before it, a task that gets its slot starts its handler. */
  lemma SlotStartsHandler(s: State, t: TaskId, s': State)
    requires Step(s, TakeSlot(t), s') && !s.stop
    ensures s'.started == s.started + [t] && t < |s'.tasks| && s'.tasks[t].pc.Running? && s'.slots + 1 == s.slots
  {}

  // ---- Progress ---------------------------------------------------------------------------------

  predicate Enabled(s: State, a: Action) {
    match a
    case PreviousDone(t) => CanLeavePrevious(s, t)
    case TakeSlot(t) => t < |s.tasks| && s.tasks[t].pc.AwaitingSlot? && s.slots > 0
    case Finish(t) => t < |s.tasks| && s.tasks[t].pc.Running?
    case _ => false
  }

  lemma FirstUnfinished(s: State, t: TaskId) returns (u: TaskId)
    requires t < |s.tasks| && !s.tasks[t].pc.Done?
    ensures u <= t && !s.tasks[u].pc.Done? && forall v :: 0 <= v < u ==> s.tasks[v].pc.Done?
  {
    u := 0;
    while s.tasks[u].pc.Done?
      invariant u <= t && forall v :: 0 <= v < u ==> s.tasks[v].pc.Done?
      decreases t - u
    {
      u := u + 1;
    }
  }

  /** No deadlock: while a task is unfinished, some task can move. A task that waits for its predecessor holds no
      slot, so the first unfinished task is never kept from one. */
  lemma SomeTaskCanMove(s: State, t: TaskId) returns (a: Action)
    requires Inv(s) && t < |s.tasks| && !s.tasks[t].pc.Done?
    ensures Enabled(s, a)
  {
    if RunningSet(s.tasks) != {} {
      var r :| r in RunningSet(s.tasks);
      a := Finish(r);
    } else {
      var u := FirstUnfinished(s, t);
      assert OrderInv(s, u) && u !in RunningSet(s.tasks);
      a := if s.tasks[u].pc.AwaitingPrevious? then PreviousDone(u) else TakeSlot(u);
    }
  }

  function Rank(pc: Pc): nat {
    match pc
    case AwaitingPrevious => 3
    case AwaitingSlot => 2
    case Running => 1
    case Done => 0
  }

  /** The task steps still to come. */
  function Work(tasks: seq<Task>): nat {
    if tasks == [] then 0 else Work(tasks[..|tasks| - 1]) + Rank(tasks[|tasks| - 1].pc)
  }

  lemma {:induction false} WorkAfter(tasks: seq<Task>, t: TaskId, pc: Pc)
    requires t < |tasks|
    ensures Work(tasks[t := tasks[t].(pc := pc)]) == Work(tasks) - Rank(tasks[t].pc) + Rank(pc)
  {
    var n := |tasks| - 1;
    var tasks' := tasks[t := tasks[t].(pc := pc)];
    if t == n {
      assert tasks'[..n] == tasks[..n];
    } else {
      WorkAfter(tasks[..n], t, pc);
      assert tasks'[..n] == tasks[..n][t := tasks[t].(pc := pc)];
    }
  }

  function Moved(s: State, a: Action): (s': State)
    requires Enabled(s, a)
    ensures IsTaskStep(a) && TaskStep(s, a, s')
  {
    match a
    case PreviousDone(t) => WithPc(s, t, AwaitingSlot)
    case TakeSlot(t) => TakenSlot(s, t)
    case Finish(t) => Ended(s, t).(slots := s.slots + 1)
  }

  lemma MovingDoesWork(s: State, a: Action)
    requires Enabled(s, a)
    ensures Work(Moved(s, a).tasks) < Work(s.tasks)
  {
    WorkAfter(s.tasks, a.t, Moved(s, a).tasks[a.t].pc);
  }

  /** From every reachable state the admitted tasks can all finish by their own steps, and every sequence of task
      steps is finite (each one does some of the work). */
  lemma {:induction false} EverythingDrains(s: State) returns (ss: seq<State>, acts: seq<Action>)
    requires Inv(s)
    ensures Path(ss, acts) && ss[0] == s && |acts| <= Work(s.tasks)
    ensures forall i :: 0 <= i < |acts| ==> IsTaskStep(acts[i])
    ensures |ss[|acts|].tasks| == |s.tasks| && forall t :: 0 <= t < |s.tasks| ==> ss[|acts|].tasks[t].pc.Done?
    decreases Work(s.tasks)
  {
    hide Inv;
    if t :| 0 <= t < |s.tasks| && !s.tasks[t].pc.Done? {
      var a := SomeTaskCanMove(s, t);
      var s1 := Moved(s, a);
      StepKeepsInv(s, a, s1);
      MovingDoesWork(s, a);
      var tt, bb := EverythingDrains(s1);
      ss, acts := [s] + tt, [a] + bb;
    } else {
      ss, acts := [s], [];
    }
  }

  // ---- The consumer loop ------------------------------------------------------------------------

  ghost predicate Reaches(s: State, s': State) {
    exists ss: seq<State>, acts: seq<Action> :: Path(ss, acts) && ss[0] == s && ss[|acts|] == s'
  }

  lemma ReachesSelf(s: State)
    ensures Reaches(s, s)
  {
    var ss: seq<State>, acts: seq<Action> := [s], [];
    assert Path(ss, acts) && ss[|acts|] == s;
  }

  lemma ReachesStep(s: State, m: State, a: Action, s': State)
    requires Reaches(s, m) && Step(m, a, s')
    ensures Reaches(s, s')
  {
    hide Step;
    var ss: seq<State>, acts: seq<Action> :| Path(ss, acts) && ss[0] == s && ss[|acts|] == m;
    var tt, bb := ss + [s'], acts + [a];
    assert Path(tt, bb) && tt[|bb|] == s';
  }

  /** Tasks keep their messages, and stay done. */
  ghost predicate Grows(s: State, s': State) {
    && |s.tasks| <= |s'.tasks| && s'.concurrency == s.concurrency
    && forall t :: 0 <= t < |s.tasks| ==>
         && s'.tasks[t].mid == s.tasks[t].mid && s'.tasks[t].sid == s.tasks[t].sid
         && (s.tasks[t].pc.Done? ==> s'.tasks[t].pc.Done?)
  }

  /** Since `start`, the message has a task: a new one, or one that was unfinished then. */
  ghost predicate HasTask(start: State, s: State, mid: MessageId) {
    exists t :: 0 <= t < |s.tasks| && s.tasks[t].mid == mid && (t < |start.tasks| ==> !start.tasks[t].pc.Done?)
  }

  lemma InflightHasTask(start: State, s: State, mid: MessageId)
    requires Inv(s) && mid in s.inflight && Grows(start, s)
    ensures HasTask(start, s, mid)
  {
    assert mid in UnfinishedMids(s.tasks);
    var t :| 0 <= t < |s.tasks| && !s.tasks[t].pc.Done? && s.tasks[t].mid == mid;
    assert t < |start.tasks| ==> !start.tasks[t].pc.Done?;
  }

  lemma GrowingKeepsTasks(start: State, s: State, s': State, mid: MessageId)
    requires Grows(s, s') && HasTask(start, s, mid)
    ensures HasTask(start, s', mid)
  {
    var t :| 0 <= t < |s.tasks| && s.tasks[t].mid == mid && (t < |start.tasks| ==> !start.tasks[t].pc.Done?);
    assert s'.tasks[t].mid == mid;
  }

  lemma HasTaskSince(start: State, later: State, s: State, mid: MessageId)
    requires Grows(start, later) && HasTask(later, s, mid)
    ensures HasTask(start, s, mid)
  {
    var t :| 0 <= t < |s.tasks| && s.tasks[t].mid == mid && (t < |later.tasks| ==> !later.tasks[t].pc.Done?);
    assert t < |start.tasks| ==> !start.tasks[t].pc.Done?;
  }

  /** The tasks, and nothing else, lead from `s` to `s'`. */
  ghost predicate TasksRan(s: State, s': State) {
    exists ss: seq<State>, acts: seq<Action> ::
      Path(ss, acts) && (forall i :: 0 <= i < |acts| ==> IsTaskStep(acts[i])) && ss[0] == s && ss[|acts|] == s'
  }

  lemma TasksRanNot(s: State)
    ensures TasksRan(s, s)
  {
    var ss: seq<State>, acts: seq<Action> := [s], [];
    assert Path(ss, acts) && ss[|acts|] == s;
  }

  lemma TasksRanOn(s: State, m: State, a: Action, s': State)
    requires TasksRan(s, m) && IsTaskStep(a) && Step(m, a, s')
    ensures TasksRan(s, s')
  {
    hide Step;
    var ss: seq<State>, acts: seq<Action> :|
      Path(ss, acts) && (forall i :: 0 <= i < |acts| ==> IsTaskStep(acts[i])) && ss[0] == s && ss[|acts|] == m;
    var tt, bb := ss + [s'], acts + [a];
    assert Path(tt, bb) && (forall i :: 0 <= i < |bb| ==> IsTaskStep(bb[i])) && tt[|bb|] == s';
  }

  /** What a task step leaves to the loop. */
  ghost predicate LoopKept(s: State, s': State) {
    && Grows(s, s') && s'.inflight <= s.inflight && s'.active == s.active && s'.tails == s.tails && s'.batch == s.batch
    && s'.stop == s.stop && s'.dead == s.dead
  }

  lemma TaskStepKeepsLoop(s: State, a: Action, s': State)
    requires Inv(s) && IsTaskStep(a) && Step(s, a, s')
    ensures LoopKept(s, s')
  {
    hide TailsInv, FlightInv, SlotsInv, StartedInv, TaskStep, Ordered;
    TaskStepMoves(s, a, s');
  }

  lemma {:induction false} PathOfTasksKeeps(ss: seq<State>, acts: seq<Action>, n: nat)
    requires Path(ss, acts) && n < |ss| && Inv(ss[0]) && forall i :: 0 <= i < |acts| ==> IsTaskStep(acts[i])
    ensures Inv(ss[n]) && LoopKept(ss[0], ss[n])
  {
    hide Step, Inv;
    if n > 0 {
      PathOfTasksKeeps(ss, acts, n - 1);
      StepKeepsInv(ss[n - 1], acts[n - 1], ss[n]);
      TaskStepKeepsLoop(ss[n - 1], acts[n - 1], ss[n]);
      GrowsOn(ss[0], ss[n - 1], ss[n]);
    }
  }

  /** However the tasks are scheduled, the invariant holds and the loop's own variables are untouched. */
  lemma TasksRanKeeps(s: State, s': State)
    requires TasksRan(s, s') && Inv(s)
    ensures Inv(s') && LoopKept(s, s') && Reaches(s, s')
  {
    hide Step, Inv;
    var ss: seq<State>, acts: seq<Action> :|
      Path(ss, acts) && (forall i :: 0 <= i < |acts| ==> IsTaskStep(acts[i])) && ss[0] == s && ss[|acts|] == s';
    PathOfTasksKeeps(ss, acts, |acts|);
  }

  lemma FullMeansBusy(s: State)
    requires Inv(s) && |s.active| >= Capacity(s) && forall t :: t in s.active ==> !IsDone(s, t)
    ensures exists t :: 0 <= t < |s.tasks| && !s.tasks[t].pc.Done?
  {
    assert |s.active| > 0;
    var t :| t in s.active;
    assert !IsDone(s, t) && t < |s.tasks|;
  }

  lemma EnabledTaskExists(s: State)
    requires Inv(s) && exists t :: 0 <= t < |s.tasks| && !s.tasks[t].pc.Done?
    ensures exists t :: 0 <= t < |s.tasks| && (Enabled(s, Finish(t)) || Enabled(s, PreviousDone(t)) || Enabled(s, TakeSlot(t)))
  {
    hide Inv;
    var t :| 0 <= t < |s.tasks| && !s.tasks[t].pc.Done?;
    var a := SomeTaskCanMove(s, t);
    assert a.t < |s.tasks|;
  }

  class Scheduler {
    const concurrency: nat
    var stop: bool
    var batch: seq<Message>
    var tasks: seq<Task>
    var active: set<TaskId>
    var tails: map<SessionId, TaskId>
    var inflight: set<MessageId>
    var slots: nat
    var started: seq<TaskId>
    var dead: set<MessageId>

    function View(): State
      reads this
    {
      State(concurrency, stop, batch, tasks, active, tails, inflight, slots, started, dead)
    }

    constructor (concurrency: nat)
      requires concurrency > 0
      ensures Initial(View()) && Inv(View()) && this.concurrency == concurrency
    {
      this.concurrency, slots := concurrency, concurrency;
      stop, batch, tasks, active, tails, inflight, started, dead := false, [], [], {}, map[], {}, [], {};
      new;
      InvInitially(View());
    }

    /** One step of one task. */
    method MoveTask(t: TaskId)
      requires Inv(View()) && (Enabled(View(), Finish(t)) || Enabled(View(), PreviousDone(t)) || Enabled(View(), TakeSlot(t)))
      modifies this`tasks, this`inflight, this`slots, this`started
      ensures Inv(View()) && exists a :: Enabled(old(View()), a) && View() == Moved(old(View()), a)
    {
      hide Inv;
      var pc := tasks[t].pc;
      ghost var a := if pc.Running? then Finish(t) else if pc.AwaitingPrevious? then PreviousDone(t) else TakeSlot(t);
      assert Enabled(View(), a);
      if pc.AwaitingPrevious? {
        tasks := tasks[t := tasks[t].(pc := AwaitingSlot)];
      } else if pc.AwaitingSlot? && !stop {
        tasks := tasks[t := tasks[t].(pc := Running)];
        slots := slots - 1;
        started := started + [t];
      } else {
        inflight := inflight - {tasks[t].mid};
        tasks := tasks[t := tasks[t].(pc := Done)];
        slots := if pc.Running? then slots + 1 else slots;
      }
      assert View() == Moved(old(View()), a);
      StepKeepsInv(old(View()), a, View());
    }

    /** `asyncio.wait(active, FIRST_COMPLETED)`: the tasks run, in some order, until one of them is done. Nothing more is
        promised of them. */
    method TasksRunUntilOneIsDone()
      requires Inv(View()) && |active| >= Capacity(View())
      modifies this`tasks, this`inflight, this`slots, this`started
      ensures TasksRan(old(View()), View()) && exists t :: t in active && IsDone(View(), t)
    {
      hide Inv, TasksRan, Moved, Enabled, Step, Work;
      TasksRanNot(View());
      while forall t :: t in active ==> !IsDone(View(), t)
        invariant Inv(View()) && TasksRan(old(View()), View())
        decreases Work(tasks)
      {
        ghost var before := View();
        FullMeansBusy(before);
        EnabledTaskExists(before);
        var t :| 0 <= t < |tasks| && (Enabled(View(), Finish(t)) || Enabled(View(), PreviousDone(t)) || Enabled(View(), TakeSlot(t)));
        MoveTask(t);
        ghost var a :| Enabled(before, a) && View() == Moved(before, a);
        MovingDoesWork(before, a);
        MovingIsStep(before, a);
        TasksRanOn(old(View()), before, a, View());
      }
    }

    /** Waiting: what any order of the tasks' steps leaves to the loop. */
    method RunUntilOneIsDone()
      requires Inv(View()) && |active| >= Capacity(View())
      modifies this`tasks, this`inflight, this`slots, this`started
      ensures Inv(View()) && Reaches(old(View()), View()) && Grows(old(View()), View())
      ensures (exists t :: t in active && IsDone(View(), t)) && inflight <= old(inflight)
    {
      hide Inv, Reaches, TasksRan, Grows;
      TasksRunUntilOneIsDone();
      TasksRanKeeps(old(View()), View());
    }

    /** The inner wait for room: finished tasks are dropped from `active`. */
    method AwaitRoom()
      requires Inv(View())
      modifies this`tasks, this`inflight, this`slots, this`started, this`active
      ensures Inv(View()) && Reaches(old(View()), View()) && Grows(old(View()), View()) && |active| < Capacity(View())
      ensures inflight <= old(inflight) && |active| < 8 * concurrency
      ensures old(|active|) < 8 * concurrency ==> View() == old(View())
    {
      hide Inv, Reaches;
      ReachesSelf(View());
      while |active| >= Capacity(View())
        invariant old(|active|) < 8 * concurrency ==> View() == old(View())
        invariant Inv(View()) && Reaches(old(View()), View()) && Grows(old(View()), View()) && inflight <= old(inflight)
        decreases |active|
      {
        RoomStep(old(View()));
      }
    }

    /** One `asyncio.wait` and what it leaves. */
    method RoomStep(ghost start: State)
      requires Inv(View()) && Reaches(start, View()) && Grows(start, View()) && |active| >= Capacity(View())
      modifies this`tasks, this`inflight, this`slots, this`started, this`active
      ensures Inv(View()) && Reaches(start, View()) && Grows(start, View()) && |active| < |old(active)| && inflight <= old(inflight)
    {
      hide Inv, Reaches;
      ghost var before := View();
      RunUntilOneIsDone();
      ReachesTrans(start, before, View());
      before := View();
      active := set t | t in active && !IsDone(View(), t);
      assert View() == before.(active := NotDone(before, before.active));
      StepKeepsInv(before, AwaitCapacity, View());
      ReachesStep(start, before, AwaitCapacity, View());
      DoneLeaves(before);
    }

    /** `create_task` and the three registrations. */
    method AdmitFirst()
      requires Inv(View()) && batch != [] && batch[0].sid.Some? && batch[0].mid !in inflight && |active| < Capacity(View())
      modifies this`tasks, this`inflight, this`active, this`tails, this`batch
      ensures Inv(View()) && Step(old(View()), Admit, View()) && View() == Admitted(old(View()))
      ensures var m, sid := old(batch)[0].mid, old(batch)[0].sid.value;
              && tasks == old(tasks) + [Task(m, sid, if sid in old(tails) then Some(old(tails)[sid]) else None, AwaitingPrevious)]
              && tails == old(tails)[sid := |old(tasks)|] && active == old(active) + {|old(tasks)|}
              && inflight == old(inflight) + {m} && batch == old(batch)[1..]
    {
      hide Inv;
      var mid, sid := batch[0].mid, batch[0].sid.value;
      var task := |tasks|;
      inflight := inflight + {mid};
      tasks := tasks + [Task(mid, sid, if sid in tails then Some(tails[sid]) else None, AwaitingPrevious)];
      tails := tails[sid := task];
      active := active + {task};
      batch := batch[1..];
      StepKeepsInv(old(View()), Admit, View());
    }

    /** The loop over a fetched batch: afterwards every message with a session has a task. */
    method AdmitBatch()
      requires Inv(View())
      modifies this
      ensures Inv(View()) && Reaches(old(View()), View()) && Grows(old(View()), View()) && batch == [] && |active| <= Capacity(View())
      ensures forall m :: m in old(batch) && m.sid.Some? ==> HasTask(old(View()), View(), m.mid)
      ensures Buried(old(dead), old(batch), dead) && forall m :: m in old(batch) && m.sid.None? ==> m.mid in dead || HasTask(old(View()), View(), m.mid)
    {
      hide Inv, Reaches, HasTask;
      ReachesSelf(View());
      CapacityFact(View());
      while batch != []
        invariant Inv(View()) && Reaches(old(View()), View()) && Grows(old(View()), View()) && |active| <= Capacity(View())
        invariant forall m :: m in old(batch) && m.sid.Some? ==> m in batch || HasTask(old(View()), View(), m.mid)
        invariant forall m :: m in old(batch) && m.sid.None? ==> m in batch || m.mid in dead || HasTask(old(View()), View(), m.mid)
        invariant Buried(old(dead), old(batch), dead) && forall m :: m in batch ==> m in old(batch)
        decreases |batch|
      {
        AdmitOrDrop(old(View()), old(batch));
        CapacityFact(View());
      }
    }

    /** The body of that loop. */
    method AdmitOrDrop(ghost start: State, ghost fetched: seq<Message>)
      requires Inv(View()) && Reaches(start, View()) && Grows(start, View()) && batch != []
      requires forall m :: m in fetched && m.sid.Some? ==> m in batch || HasTask(start, View(), m.mid)
      requires forall m :: m in fetched && m.sid.None? ==> m in batch || m.mid in dead || HasTask(start, View(), m.mid)
      modifies this
      ensures Inv(View()) && Reaches(start, View()) && Grows(start, View()) && batch == old(batch)[1..]
      ensures forall m :: m in fetched && m.sid.Some? ==> m in batch || HasTask(start, View(), m.mid)
      ensures forall m :: m in fetched && m.sid.None? ==> m in batch || m.mid in dead || HasTask(start, View(), m.mid)
      ensures dead == old(dead) || (old(batch)[0].sid.None? && dead == old(dead) + {old(batch)[0].mid})
    {
      hide Inv, Reaches, HasTask;
      var m := batch[0];
      ghost var entry := View();
      if m.mid in inflight {
        InflightHasTask(start, View(), m.mid);
        batch := batch[1..];
        StepKeepsInv(entry, Skip, View());
        ReachesStep(start, entry, Skip, View());
        GrowingKeepsTasks(start, entry, View(), m.mid);
        Carried(start, entry, View(), fetched);
        return;
      }
      AwaitRoom();
      ReachesTrans(start, entry, View());
      ghost var before := View();
      if m.sid.None? {
        batch, dead := batch[1..], dead + {m.mid};
        StepKeepsInv(before, DropPoison, View());
        ReachesStep(start, before, DropPoison, View());
      } else {
        AdmitFirst();
        ReachesStep(start, before, Admit, View());
        NewTask(start, before, View());
      }
      Carried(start, entry, View(), fetched);
    }

    /** The top of the loop. */
    method PruneDone()
      requires Inv(View()) && batch == []
      modifies this`active, this`tails
      ensures Inv(View()) && Step(old(View()), Prune, View())
    {
      hide Inv;
      tails := map sid | sid in tails && !IsDone(View(), tails[sid]) :: tails[sid];
      active := set t | t in active && !IsDone(View(), t);
      assert View() == old(View()).(active := NotDone(old(View()), old(active)), tails := tails);
      StepKeepsInv(old(View()), Prune, View());
    }

    /** One pass of the loop: prune, wait for room, fetch, admit. */
    method Pass(messages: seq<Message>)
      requires Inv(View()) && batch == [] && !stop
      modifies this
      ensures Inv(View()) && Reaches(old(View()), View()) && Grows(old(View()), View()) && batch == []
      ensures forall m :: m in messages && m.sid.Some? ==> HasTask(old(View()), View(), m.mid)
      ensures Buried(old(dead), messages, dead) && forall m :: m in messages && m.sid.None? ==> m.mid in dead || HasTask(old(View()), View(), m.mid)
    {
      hide Inv, Reaches, HasTask;
      ghost var start, before := View(), View();
      ReachesSelf(start);
      PruneDone();
      ReachesStep(start, before, Prune, View());
      before := View();
      AwaitRoom();
      ReachesTrans(start, before, View());
      before := View();
      batch := messages;
      StepKeepsInv(before, Fetch(messages), View());
      ReachesStep(start, before, Fetch(messages), View());
      before := View();
      AdmitBatch();
      ReachesTrans(start, before, View());
      forall m | m in messages && HasTask(before, View(), m.mid) ensures HasTask(start, View(), m.mid) {
        HasTaskSince(start, before, View(), m.mid);
      }
    }
  }

  lemma {:induction false} ReachesAlong(s: State, ss: seq<State>, acts: seq<Action>, n: nat)
    requires Path(ss, acts) && n < |ss| && Reaches(s, ss[0])
    ensures Reaches(s, ss[n])
  {
    hide Step, Reaches;
    if n > 0 {
      ReachesAlong(s, ss, acts, n - 1);
      ReachesStep(s, ss[n - 1], acts[n - 1], ss[n]);
    }
  }

  lemma ReachesTrans(s: State, m: State, s': State)
    requires Reaches(s, m) && Reaches(m, s')
    ensures Reaches(s, s')
  {
    hide Step;
    var ss: seq<State>, acts: seq<Action> :| Path(ss, acts) && ss[0] == m && ss[|acts|] == s';
    ReachesAlong(s, ss, acts, |acts|);
  }

  lemma DoneLeaves(s: State)
    requires exists t :: t in s.active && IsDone(s, t)
    ensures |NotDone(s, s.active)| < |s.active|
  {
    var t :| t in s.active && IsDone(s, t);
    Fewer(NotDone(s, s.active), s.active - {t});
  }

  lemma CapacityFact(s: State)
    requires Inv(s)
    ensures |s.active| <= Capacity(s)
  {}

  /** Of a batch, only messages without a session have been dead-lettered. */
  ghost predicate Buried(before: set<MessageId>, fetched: seq<Message>, dead: set<MessageId>) {
    before <= dead && forall d :: d in dead && d !in before ==> exists m :: m in fetched && m.mid == d && m.sid.None?
  }

  lemma NewTask(start: State, s: State, s': State)
    requires s.batch != [] && s.batch[0].sid.Some? && s' == Admitted(s) && Grows(start, s)
    ensures HasTask(start, s', s.batch[0].mid) && Grows(s, s')
  {
    assert s'.tasks[|s.tasks|].mid == s.batch[0].mid;
  }

  /** Handling the first message leaves the others as they were. */
  lemma Carried(start: State, s: State, s': State, fetched: seq<Message>)
    requires Grows(s, s') && s.batch != [] && s'.batch == s.batch[1..]
    requires forall m :: m in fetched && m.sid.Some? ==> m in s.batch || HasTask(start, s, m.mid)
    requires forall m :: m in fetched && m.sid.None? ==> m in s.batch || m.mid in s.dead || HasTask(start, s, m.mid)
    requires s.dead <= s'.dead
    requires s.batch[0].sid.Some? ==> HasTask(start, s', s.batch[0].mid)
    requires s.batch[0].sid.None? ==> s.batch[0].mid in s'.dead || HasTask(start, s', s.batch[0].mid)
    ensures forall m :: m in fetched && m.sid.Some? ==> m in s'.batch || HasTask(start, s', m.mid)
    ensures forall m :: m in fetched && m.sid.None? ==> m in s'.batch || m.mid in s'.dead || HasTask(start, s', m.mid)
  {
    hide HasTask;
    forall m | m in fetched && m.sid.None? ensures m in s'.batch || m.mid in s'.dead || HasTask(start, s', m.mid) {
      if m in s.batch {
        assert m == s.batch[0] || m in s'.batch;
      } else if m.mid !in s.dead {
        GrowingKeepsTasks(start, s, s', m.mid);
      }
    }
    forall m | m in fetched && m.sid.Some? ensures m in s'.batch || HasTask(start, s', m.mid) {
      if m in s.batch {
        assert m == s.batch[0] || m in s'.batch;
      } else {
        GrowingKeepsTasks(start, s, s', m.mid);
      }
    }
  }

  lemma GrowsOn(s: State, m: State, s': State)
    requires Grows(s, m) && Grows(m, s')
    ensures Grows(s, s')
  {}

  lemma MovingIsStep(s: State, a: Action)
    requires Enabled(s, a)
    ensures IsTaskStep(a) && Step(s, a, Moved(s, a))
  {}
}
