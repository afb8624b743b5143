/**
 Terminal notices: `handle_terminal_notice` posts a message and then archives the thread, each stage as one
 `_claim_act_finalize` transaction that inserts an idempotency row, performs the effect while it holds that row,
 and commits the row as done.

 The state is that of one notice: its two idempotency rows, and any number of concurrent, failing and redelivered
 handlers of it. A row is visible to others only once it is committed, so a visible row is always done.
 */
module TerminalNotice {
  import opened Options

  const RETENTION: real := 604800.0

  type DeliveryId = nat

  datatype Stage = Post | Archive

  /** One stage's idempotency row, with the counters of its history. */
  datatype Claim = Claim(
    row: Option<real>,               // when the committed row expires
    holder: Option<DeliveryId>,      // the transaction that has inserted it and not yet committed
    effects: nat,                    // side effects that succeeded
    commits: nat,
    died: nat,                       // transactions lost between effect and commit
    expired: nat)                    // committed rows deleted by the janitor

  datatype Pc =
    | Ready
    | Conflicted                     // the insert met a committed row
    | Holding(expires: real)         // the insert succeeded; the effect is under way
    | Acted(expires: real)           // the effect succeeded; not yet committed

  datatype Delivery = Delivery(stage: Stage, pc: Pc)

  datatype State = State(
    now: real,
    hasMessage: bool,
    thenArchive: bool,
    post: Claim,
    archive: Claim,
    archivedMark: bool,              // sessions.discord_thread_archived_at is set
    deliveries: map<DeliveryId, Delivery>,
    returned: nat)                   // handlers that returned true

  datatype Action =
    | Begin(d: DeliveryId)
    | Insert(d: DeliveryId, started: real)
    | Select(d: DeliveryId)
    | Effect(d: DeliveryId)
    | Commit(d: DeliveryId)
    | Die(d: DeliveryId)             // an exception or a crash: the transaction rolls back
    | Sweep(stage: Stage)
    | Tick(seconds: real)

  function ClaimOf(s: State, k: Stage): Claim {
    if k.Post? then s.post else s.archive
  }

  function WithClaim(s: State, k: Stage, c: Claim): State {
    if k.Post? then s.(post := c) else s.(archive := c)
  }

  function WithDelivery(s: State, d: DeliveryId, x: Delivery): State {
    s.(deliveries := s.deliveries[d := x])
  }

  /** What a handler does once stage `k` is over, whether it was done here or found done. */
  function AfterStage(s: State, d: DeliveryId, k: Stage): State {
    if k.Post? && s.thenArchive then WithDelivery(s, d, Delivery(Archive, Ready))
    else s.(deliveries := s.deliveries - {d}, returned := s.returned + 1)
  }

  function Started(s: State, d: DeliveryId): State {
    if s.hasMessage then WithDelivery(s, d, Delivery(Post, Ready)) else AfterStage(s, d, Post)
  }

  predicate Fresh(c: Claim) {
    c == Claim(None, None, 0, 0, 0, 0)
  }

  predicate Initial(s: State) {
    Fresh(s.post) && Fresh(s.archive) && !s.archivedMark && s.deliveries == map[] && s.returned == 0
  }

  /** What any step of delivery `d` leaves alone. */
  ghost predicate Local(s: State, d: DeliveryId, s': State) {
    && d in s.deliveries && s'.deliveries - {d} == s.deliveries - {d}
    && (forall k :: k != s.deliveries[d].stage ==> ClaimOf(s', k) == ClaimOf(s, k))
    && (d in s'.deliveries ==> s'.deliveries[d].stage == s.deliveries[d].stage || s'.deliveries[d].pc.Ready?)
    && s'.post.commits >= s.post.commits && s'.archive.commits >= s.archive.commits
    && s'.hasMessage == s.hasMessage && s'.thenArchive == s.thenArchive && s'.now == s.now
  }

  /** `INSERT .. ON CONFLICT DO NOTHING` waits for an uncommitted row of the same key. */
  ghost predicate StepInsert(s: State, d: DeliveryId, started: real, s': State)
    ensures StepInsert(s, d, started, s') ==> Local(s, d, s')
  {
    && d in s.deliveries && s.deliveries[d].pc.Ready? && started <= s.now
    && var k := s.deliveries[d].stage;
       var c := ClaimOf(s, k);
       && c.holder.None?
       && s' == if c.row.Some? then WithDelivery(s, d, Delivery(k, Conflicted))
                else WithClaim(WithDelivery(s, d, Delivery(k, Holding(started + RETENTION))), k, c.(holder := Some(d)))
  }

  /** `SELECT outcome .. FOR UPDATE` after a conflict: done, or no row any more, which raises. */
  ghost predicate StepSelect(s: State, d: DeliveryId, s': State)
    ensures StepSelect(s, d, s') ==> Local(s, d, s')
  {
    && d in s.deliveries && s.deliveries[d].pc.Conflicted?
    && var k := s.deliveries[d].stage;
       && ClaimOf(s, k).holder.None?
       && s' == if ClaimOf(s, k).row.Some? then AfterStage(s, d, k) else s.(deliveries := s.deliveries - {d})
  }

  ghost predicate StepEffect(s: State, d: DeliveryId, s': State)
    ensures StepEffect(s, d, s') ==> Local(s, d, s')
  {
    && d in s.deliveries && s.deliveries[d].pc.Holding?
    && var x := s.deliveries[d];
       var c := ClaimOf(s, x.stage);
       s' == WithClaim(WithDelivery(s, d, Delivery(x.stage, Acted(x.pc.expires))), x.stage, c.(effects := c.effects + 1))
  }

  ghost predicate StepCommit(s: State, d: DeliveryId, s': State)
    ensures StepCommit(s, d, s') ==> Local(s, d, s')
  {
    && d in s.deliveries && s.deliveries[d].pc.Acted?
    && var x := s.deliveries[d];
       var c := ClaimOf(s, x.stage);
       var m := WithClaim(s, x.stage, c.(row := Some(x.pc.expires), holder := None, commits := c.commits + 1));
       s' == AfterStage(m.(archivedMark := m.archivedMark || x.stage.Archive?), d, x.stage)
  }

  ghost predicate StepDie(s: State, d: DeliveryId, s': State)
    ensures StepDie(s, d, s') ==> Local(s, d, s')
  {
    && d in s.deliveries
    && var x := s.deliveries[d];
       var c := ClaimOf(s, x.stage);
       var gone := s.(deliveries := s.deliveries - {d});
       s' == if x.pc.Holding? then WithClaim(gone, x.stage, c.(holder := None))
             else if x.pc.Acted? then WithClaim(gone, x.stage, c.(holder := None, died := c.died + 1))
             else gone
  }

  ghost predicate StepSweep(s: State, k: Stage, s': State) {
    var c := ClaimOf(s, k);
    c.row.Some? && c.row.value < s.now && s' == WithClaim(s, k, c.(row := None, expired := c.expired + 1))
  }

  ghost predicate Step(s: State, a: Action, s': State) {
    match a
    case Begin(d) => d !in s.deliveries && s' == Started(s, d)
    case Insert(d, started) => StepInsert(s, d, started, s')
    case Select(d) => StepSelect(s, d, s')
    case Effect(d) => StepEffect(s, d, s')
    case Commit(d) => StepCommit(s, d, s')
    case Die(d) => StepDie(s, d, s')
    case Sweep(k) => StepSweep(s, k, s')
    case Tick(t) => t >= 0.0 && s' == s.(now := s.now + t)
  }

  // ---- The invariant --------------------------------------------------------------------------

  predicate Busy(x: Delivery, k: Stage) {
    x.stage == k && (x.pc.Holding? || x.pc.Acted?)
  }

  predicate HolderActed(c: Claim, ds: map<DeliveryId, Delivery>) {
    c.holder.Some? && c.holder.value in ds && ds[c.holder.value].pc.Acted?
  }

  /** The holder of a row is the one delivery working on it, and then there is no committed row. Every effect is
      committed, lost, or the holder's; every commit is the row that is there or has expired. */
  ghost predicate ClaimInv(c: Claim, ds: map<DeliveryId, Delivery>, k: Stage) {
    && (forall d :: d in ds && Busy(ds[d], k) ==> c.holder == Some(d))
    && (c.holder.Some? ==> c.row.None? && c.holder.value in ds && Busy(ds[c.holder.value], k))
    && c.effects == c.commits + c.died + (if HolderActed(c, ds) then 1 else 0)
    && c.commits == c.expired + (if c.row.Some? then 1 else 0)
  }

  /** What a delivery has behind it. */
  ghost predicate DeliveryInv(s: State, x: Delivery) {
    && (x.stage.Archive? ==> s.thenArchive && (s.hasMessage ==> s.post.commits > 0))
    && (x.pc.Conflicted? ==> ClaimOf(s, x.stage).commits > 0)
  }

  /** Archiving comes after a committed post, and returning true after both. */
  ghost predicate OrderInv(s: State) {
    && (s.hasMessage && s.archive.effects > 0 ==> s.post.commits > 0)
    && (s.returned > 0 ==> (s.hasMessage ==> s.post.commits > 0) && (s.thenArchive ==> s.archive.commits > 0))
    && (s.archivedMark <==> s.archive.commits > 0)
  }

  ghost predicate Inv(s: State) {
    && ClaimInv(s.post, s.deliveries, Post) && ClaimInv(s.archive, s.deliveries, Archive) && OrderInv(s)
    && forall d :: d in s.deliveries ==> DeliveryInv(s, s.deliveries[d])
  }

  // ---- Every step keeps it ----------------------------------------------------------------------

  /** Deliveries that differ in one that is not busy with `k`, before or after. */
  lemma OthersKeepClaim(c: Claim, ds: map<DeliveryId, Delivery>, ds': map<DeliveryId, Delivery>, d: DeliveryId, k: Stage)
    requires ClaimInv(c, ds, k) && ds' - {d} == ds - {d}
    requires d in ds ==> !Busy(ds[d], k)
    requires d in ds' ==> !Busy(ds'[d], k)
    ensures ClaimInv(c, ds', k)
  {
    forall e | e in ds' && Busy(ds'[e], k) ensures c.holder == Some(e) {
      assert e in ds' - {d} && e in ds - {d} && ds'[e] == (ds' - {d})[e] == (ds - {d})[e];
    }
    if c.holder.Some? {
      var e := c.holder.value;
      assert e in ds - {d} && e in ds' - {d} && ds'[e] == (ds' - {d})[e] == (ds - {d})[e];
    }
  }

  predicate IsStageStep(a: Action) {
    a.Insert? || a.Select? || a.Effect? || a.Commit? || a.Die?
  }

  /** The steps within a stage concern one delivery and its own stage. */
  lemma StageStepIsLocal(s: State, a: Action, s': State)
    requires IsStageStep(a) && Step(s, a, s')
    ensures Local(s, a.d, s')
  {
    hide StepInsert, StepSelect, StepEffect, StepCommit, StepDie, Local;
  }

  lemma InsertKeepsClaim(s: State, d: DeliveryId, started: real, s': State)
    requires StepInsert(s, d, started, s')
    requires var k := s.deliveries[d].stage; ClaimInv(ClaimOf(s, k), s.deliveries, k)
    ensures var k := s.deliveries[d].stage; ClaimInv(ClaimOf(s', k), s'.deliveries, k)
  {}

  lemma EffectKeepsClaim(s: State, d: DeliveryId, s': State)
    requires StepEffect(s, d, s')
    requires var k := s.deliveries[d].stage; ClaimInv(ClaimOf(s, k), s.deliveries, k)
    ensures var k := s.deliveries[d].stage; ClaimInv(ClaimOf(s', k), s'.deliveries, k)
  {}

  lemma CommitKeepsClaim(s: State, d: DeliveryId, s': State)
    requires StepCommit(s, d, s')
    requires var k := s.deliveries[d].stage; ClaimInv(ClaimOf(s, k), s.deliveries, k)
    ensures var k := s.deliveries[d].stage; ClaimInv(ClaimOf(s', k), s'.deliveries, k)
  {
    var k := s.deliveries[d].stage;
    assert ClaimOf(s, k).holder == Some(d) && HolderActed(ClaimOf(s, k), s.deliveries);
  }

  lemma DieKeepsClaim(s: State, d: DeliveryId, s': State)
    requires StepDie(s, d, s')
    requires var k := s.deliveries[d].stage; ClaimInv(ClaimOf(s, k), s.deliveries, k)
    ensures var k := s.deliveries[d].stage; ClaimInv(ClaimOf(s', k), s'.deliveries, k)
  {
    var k := s.deliveries[d].stage;
    if !Busy(s.deliveries[d], k) {
      OthersKeepClaim(ClaimOf(s, k), s.deliveries, s'.deliveries, d, k);
    }
  }

  lemma OwnStepKeepsClaim(s: State, a: Action, s': State)
    requires IsStageStep(a) && Step(s, a, s') && a.d in s.deliveries
    requires var k := s.deliveries[a.d].stage; ClaimInv(ClaimOf(s, k), s.deliveries, k)
    ensures var k := s.deliveries[a.d].stage; ClaimInv(ClaimOf(s', k), s'.deliveries, k)
  {
    hide ClaimInv, StepInsert, StepEffect, StepCommit, StepDie;
    match a
    case Insert(d, started) => InsertKeepsClaim(s, d, started, s');
    case Select(d) =>
      var k := s.deliveries[d].stage;
      OthersKeepClaim(ClaimOf(s, k), s.deliveries, s'.deliveries, d, k);
    case Effect(d) => EffectKeepsClaim(s, d, s');
    case Commit(d) => CommitKeepsClaim(s, d, s');
    case Die(d) => DieKeepsClaim(s, d, s');
  }

  lemma StepKeepsClaim(s: State, a: Action, s': State, k: Stage)
    requires ClaimInv(ClaimOf(s, k), s.deliveries, k) && Step(s, a, s')
    ensures ClaimInv(ClaimOf(s', k), s'.deliveries, k)
  {
    hide StepInsert, StepSelect, StepEffect, StepCommit, StepDie;
    if a.Begin? {
      OthersKeepClaim(ClaimOf(s, k), s.deliveries, s'.deliveries, a.d, k);
    } else if !a.Sweep? && !a.Tick? {
      StageStepIsLocal(s, a, s');
      if s.deliveries[a.d].stage == k {
        OwnStepKeepsClaim(s, a, s');
      } else {
        OthersKeepClaim(ClaimOf(s, k), s.deliveries, s'.deliveries, a.d, k);
      }
    }
  }

  lemma CommitKeepsOrder(s: State, d: DeliveryId, s': State)
    requires Inv(s) && StepCommit(s, d, s')
    ensures OrderInv(s')
  {
    hide ClaimInv;
    assert DeliveryInv(s, s.deliveries[d]);
  }

  lemma SelectKeepsOrder(s: State, d: DeliveryId, s': State)
    requires Inv(s) && StepSelect(s, d, s')
    ensures OrderInv(s')
  {
    hide ClaimInv;
    assert DeliveryInv(s, s.deliveries[d]);
  }

  lemma EffectKeepsOrder(s: State, d: DeliveryId, s': State)
    requires Inv(s) && StepEffect(s, d, s')
    ensures OrderInv(s')
  {
    hide ClaimInv;
    assert DeliveryInv(s, s.deliveries[d]);
  }

  lemma InsertKeepsOrder(s: State, d: DeliveryId, started: real, s': State)
    requires OrderInv(s) && StepInsert(s, d, started, s')
    ensures OrderInv(s')
  {}

  lemma DieKeepsOrder(s: State, d: DeliveryId, s': State)
    requires OrderInv(s) && StepDie(s, d, s')
    ensures OrderInv(s')
  {}

  lemma StepKeepsOrder(s: State, a: Action, s': State)
    requires Inv(s) && Step(s, a, s')
    ensures OrderInv(s')
  {
    hide ClaimInv, DeliveryInv, StepInsert, StepSelect, StepEffect, StepCommit, StepDie;
    match a
    case Insert(d, started) => InsertKeepsOrder(s, d, started, s');
    case Select(d) => SelectKeepsOrder(s, d, s');
    case Effect(d) => EffectKeepsOrder(s, d, s');
    case Commit(d) => CommitKeepsOrder(s, d, s');
    case Die(d) => DieKeepsOrder(s, d, s');
    case _ =>
  }

  lemma CommitsGrow(s: State, a: Action, s': State)
    requires Step(s, a, s')
    ensures s'.post.commits >= s.post.commits && s'.archive.commits >= s.archive.commits
    ensures s'.hasMessage == s.hasMessage && s'.thenArchive == s.thenArchive
  {
    hide StepInsert, StepSelect, StepEffect, StepCommit, StepDie;
  }

  lemma ActorKeepsDelivery(s: State, a: Action, s': State)
    requires IsStageStep(a) && Step(s, a, s') && a.d in s'.deliveries
    requires a.d in s.deliveries && DeliveryInv(s, s.deliveries[a.d])
    requires var k := s.deliveries[a.d].stage; ClaimInv(ClaimOf(s, k), s.deliveries, k)
    ensures DeliveryInv(s', s'.deliveries[a.d])
  {}

  lemma StepKeepsDeliveries(s: State, a: Action, s': State)
    requires Inv(s) && Step(s, a, s')
    ensures forall d :: d in s'.deliveries ==> DeliveryInv(s', s'.deliveries[d])
  {
    hide ClaimInv, OrderInv, StepInsert, StepSelect, StepEffect, StepCommit, StepDie;
    CommitsGrow(s, a, s');
    if IsStageStep(a) {
      StageStepIsLocal(s, a, s');
    }
    forall d | d in s'.deliveries ensures DeliveryInv(s', s'.deliveries[d]) {
      if IsStageStep(a) && a.d == d {
        ActorKeepsDelivery(s, a, s');
      } else if IsStageStep(a) {
        assert d in s'.deliveries - {a.d} && d in s.deliveries - {a.d};
        assert s'.deliveries[d] == (s'.deliveries - {a.d})[d] == (s.deliveries - {a.d})[d];
        assert DeliveryInv(s, s.deliveries[d]);
      } else if d in s.deliveries {
        assert DeliveryInv(s, s.deliveries[d]);
      }
    }
  }

  lemma StepKeepsInv(s: State, a: Action, s': State)
    requires Inv(s) && Step(s, a, s')
    ensures Inv(s') && s'.hasMessage == s.hasMessage && s'.thenArchive == s.thenArchive
  {
    hide ClaimInv, OrderInv, DeliveryInv;
    StepKeepsClaim(s, a, s', Post);
    StepKeepsClaim(s, a, s', Archive);
    StepKeepsOrder(s, a, s');
    StepKeepsDeliveries(s, a, s');
  }

  // ---- Runs -------------------------------------------------------------------------------------

  ghost predicate Run(ss: seq<State>, acts: seq<Action>) {
    && |ss| == |acts| + 1 && Initial(ss[0])
    && forall i :: 0 <= i < |acts| ==> Step(ss[i], acts[i], ss[i + 1])
  }

  lemma {:induction false} RunKeepsInv(ss: seq<State>, acts: seq<Action>, i: nat)
    requires Run(ss, acts) && i < |ss|
    ensures Inv(ss[i])
  {
    hide Step;
    if i > 0 {
      RunKeepsInv(ss, acts, i - 1);
      StepKeepsInv(ss[i - 1], acts[i - 1], ss[i]);
    }
  }

  /** A stage's effect succeeds at most once, plus once for every committed row that has expired and once for every
      transaction that died between its effect and its commit. */
  lemma EffectsAreBounded(ss: seq<State>, acts: seq<Action>, i: nat, k: Stage)
    requires Run(ss, acts) && i < |ss|
    ensures var c := ClaimOf(ss[i], k); c.effects <= 1 + c.expired + c.died
  {
    RunKeepsInv(ss, acts, i);
  }

  lemma DoneStaysDone(s: State, a: Action, s': State, k: Stage)
    requires Inv(s) && Step(s, a, s') && ClaimOf(s, k).row.Some? && s.now <= ClaimOf(s, k).row.value
    ensures ClaimOf(s', k) == ClaimOf(s, k)
  {
    hide OrderInv, DeliveryInv;
  }

  lemma TimePasses(s: State, a: Action, s': State)
    requires Step(s, a, s')
    ensures s.now <= s'.now
  {}

  /** Once a delivery of a stage has committed, nothing runs its effect again before the row's expiry, whatever
      redeliveries, failures of the other stage and sweeps happen in between. */
  lemma {:induction false} CommittedEffectIsFinal(ss: seq<State>, acts: seq<Action>, i: nat, j: nat, k: Stage)
    requires Run(ss, acts) && i <= j < |ss|
    requires ClaimOf(ss[i], k).row.Some? && ss[j].now <= ClaimOf(ss[i], k).row.value
    ensures ClaimOf(ss[j], k) == ClaimOf(ss[i], k)
    decreases j - i
  {
    hide Step, Inv;
    if i < j {
      TimePasses(ss[j - 1], acts[j - 1], ss[j]);
      CommittedEffectIsFinal(ss, acts, i, j - 1, k);
      RunKeepsInv(ss, acts, j - 1);
      DoneStaysDone(ss[j - 1], acts[j - 1], ss[j], k);
    }
  }

  /** A thread is archived, and recorded as archived, only after the message's post has been committed. */
  lemma ArchivedOnlyAfterPosted(ss: seq<State>, acts: seq<Action>, i: nat)
    requires Run(ss, acts) && i < |ss| && ss[i].hasMessage
    requires ss[i].archive.effects > 0 || ss[i].archivedMark
    ensures ss[i].post.commits > 0 && ss[i].post.effects > 0
  {
    RunKeepsInv(ss, acts, i);
  }

  /** A handler returns true only when every stage asked for has been committed; the session is marked as archived
      exactly when its archive stage has been. */
  lemma TrueMeansDone(ss: seq<State>, acts: seq<Action>, i: nat)
    requires Run(ss, acts) && i < |ss|
    ensures ss[i].archivedMark <==> ss[i].archive.commits > 0
    ensures ss[i].returned > 0 ==> (ss[i].hasMessage ==> ss[i].post.commits > 0) && (ss[i].thenArchive ==> ss[i].archive.commits > 0)
  {
    RunKeepsInv(ss, acts, i);
  }

  // ---- The handler --------------------------------------------------------------------------------

  function Actor(a: Action): Option<DeliveryId> {
    if a.Sweep? || a.Tick? then None else Some(a.d)
  }

  /** Steps of the state machine, none of them by `me`. */
  ghost predicate Path(ss: seq<State>, acts: seq<Action>, me: Option<DeliveryId>) {
    && |ss| == |acts| + 1
    && forall i :: 0 <= i < |acts| ==> Step(ss[i], acts[i], ss[i + 1]) && (me.Some? ==> Actor(acts[i]) != me)
  }

  ghost predicate Reaches(s: State, s': State, me: Option<DeliveryId>) {
    exists ss: seq<State>, acts: seq<Action> :: Path(ss, acts, me) && ss[0] == s && ss[|acts|] == s'
  }

  lemma ReachesSelf(s: State, me: Option<DeliveryId>)
    ensures Reaches(s, s, me)
  {
    var ss: seq<State>, acts: seq<Action> := [s], [];
    assert Path(ss, acts, me) && ss[|acts|] == s;
  }

  lemma ReachesStep(s: State, m: State, a: Action, s': State)
    requires Reaches(s, m, None) && Step(m, a, s')
    ensures Reaches(s, s', None)
  {
    hide Step;
    var ss: seq<State>, acts: seq<Action> :| Path(ss, acts, None) && ss[0] == s && ss[|acts|] == m;
    var tt, bb := ss + [s'], acts + [a];
    assert Path(tt, bb, None) && tt[|bb|] == s';
  }

  lemma {:induction false} ReachesAlong(s: State, ss: seq<State>, acts: seq<Action>, me: Option<DeliveryId>, n: nat)
    requires Path(ss, acts, me) && n < |ss| && Reaches(s, ss[0], None)
    ensures Reaches(s, ss[n], None)
  {
    hide Step, Reaches;
    if n > 0 {
      ReachesAlong(s, ss, acts, me, n - 1);
      ReachesStep(s, ss[n - 1], acts[n - 1], ss[n]);
    }
  }

  lemma ReachesThen(s: State, m: State, s': State, me: Option<DeliveryId>)
    requires Reaches(s, m, None) && Reaches(m, s', me)
    ensures Reaches(s, s', None)
  {
    hide Step;
    var ss: seq<State>, acts: seq<Action> :| Path(ss, acts, me) && ss[0] == m && ss[|acts|] == s';
    ReachesAlong(s, ss, acts, me, |acts|);
  }

  lemma ReachesByOther(s: State, a: Action, s': State, d: DeliveryId)
    requires Step(s, a, s') && Actor(a) != Some(d)
    ensures Reaches(s, s', Some(d))
  {
    hide Step;
    var ss, acts := [s, s'], [a];
    assert Path(ss, acts, Some(d)) && ss[|acts|] == s';
  }

  lemma {:induction false} PathKeepsDone(ss: seq<State>, acts: seq<Action>, n: nat, k: Stage)
    requires Path(ss, acts, None) && n < |ss| && Inv(ss[0])
    requires ClaimOf(ss[0], k).row.Some?
    ensures Inv(ss[n]) && (ss[n].now <= ClaimOf(ss[0], k).row.value ==> ClaimOf(ss[n], k) == ClaimOf(ss[0], k))
  {
    hide Step, Inv;
    if n > 0 {
      PathKeepsDone(ss, acts, n - 1, k);
      StepKeepsInv(ss[n - 1], acts[n - 1], ss[n]);
      TimePasses(ss[n - 1], acts[n - 1], ss[n]);
      if ss[n].now <= ClaimOf(ss[0], k).row.value {
        DoneStaysDone(ss[n - 1], acts[n - 1], ss[n], k);
      }
    }
  }

  /** From any state to any later one, a stage found committed and not yet expired is left as it was. */
  lemma DoneIsNotRepeated(s: State, s': State, k: Stage)
    requires Inv(s) && Reaches(s, s', None) && ClaimOf(s, k).row.Some? && s'.now <= ClaimOf(s, k).row.value
    ensures ClaimOf(s', k) == ClaimOf(s, k)
  {
    hide Step, Inv;
    var ss: seq<State>, acts: seq<Action> :| Path(ss, acts, None) && ss[0] == s && ss[|acts|] == s';
    PathKeepsDone(ss, acts, |acts|, k);
  }

  lemma OtherKeepsDelivery(s: State, a: Action, s': State, d: DeliveryId)
    requires Step(s, a, s') && Actor(a) != Some(d) && d in s.deliveries
    ensures d in s'.deliveries && s'.deliveries[d] == s.deliveries[d]
  {
    hide StepInsert, StepSelect, StepEffect, StepCommit, StepDie;
    if IsStageStep(a) {
      StageStepIsLocal(s, a, s');
      assert d in s.deliveries - {a.d} && s'.deliveries[d] == (s'.deliveries - {a.d})[d] == (s.deliveries - {a.d})[d];
    }
  }

  lemma {:induction false} PathKeeps(ss: seq<State>, acts: seq<Action>, d: DeliveryId, n: nat)
    requires Path(ss, acts, Some(d)) && n < |ss| && Inv(ss[0]) && d in ss[0].deliveries
    ensures Inv(ss[n]) && d in ss[n].deliveries && ss[n].deliveries[d] == ss[0].deliveries[d] && ss[0].now <= ss[n].now
  {
    hide Step, Inv;
    if n > 0 {
      PathKeeps(ss, acts, d, n - 1);
      TimePasses(ss[n - 1], acts[n - 1], ss[n]);
      StepKeepsInv(ss[n - 1], acts[n - 1], ss[n]);
      OtherKeepsDelivery(ss[n - 1], acts[n - 1], ss[n], d);
    }
  }

  /** Whatever the others do, a delivery keeps its place, and the invariant holds. */
  lemma InterferenceKeeps(s: State, s': State, d: DeliveryId)
    requires Reaches(s, s', Some(d)) && Inv(s) && d in s.deliveries
    ensures Inv(s') && d in s'.deliveries && s'.deliveries[d] == s.deliveries[d] && s.now <= s'.now
  {
    hide Step, Inv;
    var ss: seq<State>, acts: seq<Action> :| Path(ss, acts, Some(d)) && ss[0] == s && ss[|acts|] == s';
    PathKeeps(ss, acts, d, |acts|);
  }

  lemma HolderIsAnother(s: State, d: DeliveryId, k: Stage)
    requires Inv(s) && d in s.deliveries && !Busy(s.deliveries[d], k) && ClaimOf(s, k).holder.Some?
    ensures ClaimOf(s, k).holder.value in s.deliveries && ClaimOf(s, k).holder.value != d
    ensures Busy(s.deliveries[ClaimOf(s, k).holder.value], k)
  {}

  lemma ConflictMeansCommitted(s: State, d: DeliveryId)
    requires Inv(s) && d in s.deliveries && s.deliveries[d].pc.Conflicted?
    ensures ClaimOf(s, s.deliveries[d].stage).commits > 0
  {
    assert DeliveryInv(s, s.deliveries[d]);
  }

  /** The insert of `d` has met a committed row, which is gone. */
  ghost predicate Swept(s: State, d: DeliveryId, k: Stage) {
    d in s.deliveries && s.deliveries[d] == Delivery(k, Conflicted) && ClaimOf(s, k).row.None?
  }

  /** How a stage ends: after a conflict, done exactly if the row is still there; otherwise as effect and commit go. */
  ghost predicate Ends(seen: State, d: DeliveryId, k: Stage, acts: bool, commits: bool, ok: bool) {
    && d in seen.deliveries && seen.deliveries[d].stage == k
    && if seen.deliveries[d].pc.Conflicted? then ok == ClaimOf(seen, k).row.Some?
       else seen.deliveries[d].pc.Holding? && ok == (acts && commits)
  }

  lemma ReturnedMeansDone(s: State)
    requires Inv(s) && s.returned > 0
    ensures (s.hasMessage ==> s.post.commits > 0) && (s.thenArchive ==> s.archive.commits > 0)
  {}

  class Notice {
    var now: real
    const hasMessage: bool
    const thenArchive: bool
    var post: Claim
    var archive: Claim
    var archivedMark: bool
    var deliveries: map<DeliveryId, Delivery>
    ghost var returned: nat

    ghost function View(): State
      reads this
    {
      State(now, hasMessage, thenArchive, post, archive, archivedMark, deliveries, returned)
    }

    ghost predicate Here(d: DeliveryId, x: Delivery)
      reads this
    {
      d in deliveries && deliveries[d] == x
    }

    /** Whatever time, the janitor and other deliveries do. Nothing more is promised of it. */
    method Others(ghost d: DeliveryId)
      modifies this
      ensures Reaches(old(View()), View(), Some(d))
    {
      ReachesSelf(View(), Some(d));
    }

    /** Between two statements: what any such interference leaves to this delivery. */
    method Interfere(ghost d: DeliveryId)
      requires Inv(View()) && d in deliveries
      modifies this
      ensures Reaches(old(View()), View(), Some(d)) && Inv(View()) && Here(d, old(deliveries[d]))
    {
      hide Inv, Reaches;
      Others(d);
      InterferenceKeeps(old(View()), View(), d);
    }

    method SetClaim(k: Stage, c: Claim)
      modifies this`post, this`archive
      ensures View() == WithClaim(old(View()), k, c)
    {
      if k.Post? {
        post := c;
      } else {
        archive := c;
      }
    }

    /** The others go on until none of them holds an uncommitted row of this key; here, the holder dies. */
    method OthersReleaseKey(d: DeliveryId, k: Stage)
      requires Inv(View()) && d in deliveries && !Busy(deliveries[d], k)
      modifies this
      ensures Reaches(old(View()), View(), Some(d)) && ClaimOf(View(), k).holder.None?
    {
      hide Inv, Reaches;
      var c := if k.Post? then post else archive;
      ReachesSelf(View(), Some(d));
      if c.holder.Some? {
        HolderIsAnother(View(), d, k);
        var other := c.holder.value;
        var x := deliveries[other];
        SetClaim(k, c.(holder := None, died := if x.pc.Acted? then c.died + 1 else c.died));
        deliveries := deliveries - {other};
        ReachesByOther(old(View()), Die(other), View(), d);
      }
    }

    /** Waits until no other transaction holds an uncommitted row of this key. */
    method AwaitKey(d: DeliveryId, k: Stage)
      requires Inv(View()) && d in deliveries && !Busy(deliveries[d], k)
      modifies this
      ensures Reaches(old(View()), View(), Some(d)) && Inv(View()) && Here(d, old(deliveries[d]))
      ensures ClaimOf(View(), k).holder.None? && now >= old(now)
    {
      hide Inv, Reaches;
      OthersReleaseKey(d, k);
      InterferenceKeeps(old(View()), View(), d);
    }

    /** `INSERT .. ON CONFLICT DO NOTHING` */
    method InsertRow(d: DeliveryId, k: Stage, started: real) returns (conflict: bool)
      requires Inv(View()) && Here(d, Delivery(k, Ready)) && ClaimOf(View(), k).holder.None? && started <= now
      modifies this
      ensures Step(old(View()), Insert(d, started), View()) && Inv(View())
      ensures conflict <==> ClaimOf(old(View()), k).row.Some?
      ensures Here(d, Delivery(k, if conflict then Conflicted else Holding(started + 604800.0)))
    {
      hide Inv;
      var c := if k.Post? then post else archive;
      conflict := c.row.Some?;
      deliveries := deliveries[d := Delivery(k, if conflict then Conflicted else Holding(started + RETENTION))];
      if !conflict {
        SetClaim(k, c.(holder := Some(d)));
      }
      StepKeepsInv(old(View()), Insert(d, started), View());
    }

    /** `SELECT outcome .. FOR UPDATE` and the early return; no row makes `scalar_one` raise. */
    method SelectOutcome(d: DeliveryId, k: Stage) returns (done: bool)
      requires Inv(View()) && Here(d, Delivery(k, Conflicted)) && ClaimOf(View(), k).holder.None?
      modifies this`deliveries, this`returned
      ensures Step(old(View()), Select(d), View()) && Inv(View())
      ensures done <==> ClaimOf(View(), k).row.Some?
      ensures done ==> View() == AfterStage(old(View()), d, k) && ClaimOf(View(), k).commits > 0
      ensures !done ==> d !in deliveries
    {
      hide Inv;
      ConflictMeansCommitted(View(), d);
      var c := if k.Post? then post else archive;
      done := c.row.Some?;
      Leave(d, k, done);
      StepKeepsInv(old(View()), Select(d), View());
    }

    /** The end of a stage, or of the handler when it raises. */
    method Leave(d: DeliveryId, k: Stage, done: bool)
      modifies this`deliveries, this`returned
      ensures View() == if done then AfterStage(old(View()), d, k) else old(View()).(deliveries := old(deliveries) - {d})
    {
      if done && k.Post? && thenArchive {
        deliveries := deliveries[d := Delivery(Archive, Ready)];
      } else {
        deliveries := deliveries - {d};
        returned := if done then returned + 1 else returned;
      }
    }

    /** The side effect; when it raises, the transaction rolls back. */
    method PerformEffect(d: DeliveryId, k: Stage, expires: real, works: bool)
      requires Inv(View()) && Here(d, Delivery(k, Holding(expires)))
      modifies this
      ensures Step(old(View()), if works then Effect(d) else Die(d), View()) && Inv(View())
      ensures ClaimOf(View(), k).effects == ClaimOf(old(View()), k).effects + if works then 1 else 0
      ensures if works then Here(d, Delivery(k, Acted(expires))) else d !in deliveries
    {
      hide Inv;
      var c := if k.Post? then post else archive;
      if works {
        SetClaim(k, c.(effects := c.effects + 1));
        deliveries := deliveries[d := Delivery(k, Acted(expires))];
        StepKeepsInv(old(View()), Effect(d), View());
      } else {
        SetClaim(k, c.(holder := None));
        deliveries := deliveries - {d};
        StepKeepsInv(old(View()), Die(d), View());
      }
    }

    /** `finalize`, `UPDATE .. SET outcome = 'done'` and the commit; when it fails, the effect was in vain. */
    method CommitRow(d: DeliveryId, k: Stage, expires: real, works: bool)
      requires Inv(View()) && Here(d, Delivery(k, Acted(expires)))
      modifies this
      ensures Step(old(View()), if works then Commit(d) else Die(d), View()) && Inv(View())
      ensures ClaimOf(View(), k).commits == ClaimOf(old(View()), k).commits + if works then 1 else 0
      ensures if works then ClaimOf(View(), k).row == Some(expires) && StageOver(d, k)
              else d !in deliveries
    {
      hide Inv;
      var c := if k.Post? then post else archive;
      if works {
        SetClaim(k, c.(row := Some(expires), holder := None, commits := c.commits + 1));
        archivedMark := archivedMark || k.Archive?;
        Leave(d, k, true);
        StepKeepsInv(old(View()), Commit(d), View());
      } else {
        SetClaim(k, c.(holder := None, died := c.died + 1));
        deliveries := deliveries - {d};
        StepKeepsInv(old(View()), Die(d), View());
      }
    }

    /** Where a handler is after stage `k` has succeeded. */
    ghost predicate StageOver(d: DeliveryId, k: Stage)
      reads this
    {
      if k.Post? && thenArchive then Here(d, Delivery(Archive, Ready)) else d !in deliveries && returned > 0
    }

    /** `_claim_act_finalize`, given whether the side effect and the commit would succeed. `seen` is the moment that decides:
        the key is taken, or the insert has met a committed row. */
    method ClaimActFinalize(d: DeliveryId, k: Stage, acts: bool, commits: bool) returns (ok: bool, ghost seen: State)
      requires Inv(View()) && Here(d, Delivery(k, Ready))
      modifies this
      ensures Reaches(old(View()), seen, None) && Reaches(seen, View(), None) && Inv(View())
      ensures if ok then StageOver(d, k) && ClaimOf(View(), k).commits > 0 else d !in deliveries
      ensures Ends(seen, d, k, acts, commits, ok)
    {
      hide Inv, Step, Reaches;
      ghost var start, before := View(), View();
      ReachesSelf(start, None);
      var started := now;
      AwaitKey(d, k);
      ReachesThen(start, before, View(), Some(d));
      before := View();
      var conflict := InsertRow(d, k, started);
      ReachesStep(start, before, Insert(d, started), View());
      seen := View();
      ReachesSelf(seen, None);
      if !conflict {
        ok := ActAndCommit(d, k, started + RETENTION, acts, commits, seen);
        return;
      }
      before := View();
      AwaitKey(d, k);
      ReachesThen(start, before, View(), Some(d));
      seen := View();
      ReachesSelf(seen, None);
      ok := SelectOutcome(d, k);
      ReachesStep(seen, seen, Select(d), View());
    }

    /** The part that holds the row. */
    method ActAndCommit(d: DeliveryId, k: Stage, expires: real, acts: bool, commits: bool, ghost start: State) returns (ok: bool)
      requires Inv(View()) && Here(d, Delivery(k, Holding(expires))) && Reaches(start, View(), None)
      modifies this
      ensures Reaches(start, View(), None) && Inv(View()) && ok == (acts && commits)
      ensures if ok then StageOver(d, k) && ClaimOf(View(), k).commits > 0 else d !in deliveries
    {
      hide Inv, Step, Reaches;
      ghost var before := View();
      Interfere(d);
      ReachesThen(start, before, View(), Some(d));
      before := View();
      PerformEffect(d, k, expires, acts);
      ReachesStep(start, before, if acts then Effect(d) else Die(d), View());
      if !acts {
        return false;
      }
      before := View();
      Interfere(d);
      ReachesThen(start, before, View(), Some(d));
      before := View();
      CommitRow(d, k, expires, commits);
      ReachesStep(start, before, if commits then Commit(d) else Die(d), View());
      ok := commits;
    }

    method Begin(d: DeliveryId)
      requires Inv(View()) && d !in deliveries
      modifies this`deliveries, this`returned
      ensures Step(old(View()), Action.Begin(d), View()) && Inv(View())
      ensures if hasMessage then Here(d, Delivery(Post, Ready)) else StageOver(d, Post)
    {
      hide Inv;
      if hasMessage {
        deliveries := deliveries[d := Delivery(Post, Ready)];
      } else {
        Leave(d, Post, true);
      }
      StepKeepsInv(old(View()), Action.Begin(d), View());
    }

    /** `handle_terminal_notice`, given which effects and commits would succeed: true means that both stages asked for are
        committed, and a stage that was already committed and has not expired meanwhile is not repeated, whatever becomes of
        the other. It fails only at a stage asked for, whose effect or commit fails or whose committed row is swept away
        between the insert and the select (`seen`). */
    method HandleTerminalNotice(d: DeliveryId, acts: Stage -> bool, commits: Stage -> bool)
      returns (ok: bool, ghost failed: Stage, ghost seen: State)
      requires Inv(View()) && d !in deliveries
      modifies this
      ensures Reaches(old(View()), seen, None) && Reaches(seen, View(), None) && Inv(View()) && d !in deliveries
      ensures ok ==> (hasMessage ==> post.commits > 0) && (thenArchive ==> archive.commits > 0)
      ensures !ok ==> && (if failed.Post? then hasMessage else thenArchive)
                      && (!acts(failed) || !commits(failed) || Swept(seen, d, failed))
      ensures forall k :: ClaimOf(old(View()), k).row.Some? && now <= ClaimOf(old(View()), k).row.value ==>
                            ClaimOf(View(), k) == ClaimOf(old(View()), k)
    {
      hide Inv, Step, Reaches;
      ghost var start := View();
      Begin(d);
      ok, failed := true, Post;
      ReachesSelf(start, None);
      ReachesStep(start, start, Action.Begin(d), View());
      seen := View();
      ReachesSelf(seen, None);
      if hasMessage {
        ghost var before := View();
        ok, seen := ClaimActFinalize(d, Post, acts(Post), commits(Post));
        ReachesThen(start, before, seen, None);
        ReachesThen(start, seen, View(), None);
      }
      if ok && thenArchive {
        ghost var before := View();
        ok, seen := ClaimActFinalize(d, Archive, acts(Archive), commits(Archive));
        failed := Archive;
        ReachesThen(start, before, seen, None);
        ReachesThen(start, seen, View(), None);
      }
      if ok {
        ReturnedMeansDone(View());
      }
      forall k | ClaimOf(start, k).row.Some? && now <= ClaimOf(start, k).row.value
        ensures ClaimOf(View(), k) == ClaimOf(start, k)
      {
        DoneIsNotRepeated(start, View(), k);
      }
    }
  }
}
