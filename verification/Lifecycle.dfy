/**
 The lifecycle columns of one `sessions` row, and every guarded UPDATE that writes them.

 Each `Write` is one UPDATE statement of the bot, the runner or the janitor. `Matches` is
 its WHERE clause (without the clock comparisons: a sweep may fire at any time), and
 `Update` its effect, which is nothing when the WHERE clause selects no row.
 */
module Lifecycle {
  import opened Options

  // Opaque identifiers, compared for equality only.
  type Token = nat
  type Host = nat

  datatype Status =
    | Creating | Resuming | Running | Idle | Stopping | Stopped | Archived | Failed | Orphaned

  datatype Row = Row(status: Status, version: nat, token: Option<Token>, host: Host)

  datatype Write =
    // bot sagas
    | StopSaga | ArchiveSaga | ResumeSaga | RestartSaga | InputSaga
    // runner jobs
    | CreateRunning(host: Host, minted: Option<Token>) | CreateFailed
    | ResumeRunning(version: nat, token: Option<Token>) | ResumeFailed(version: nat) | ResumeOrphaned(version: nat)
    | StopJob(version: nat)
    | RecoverFailed(version: nat) | RecoverOrphaned(version: nat)
    | Admit(version: nat) | SaveToken(version: nat, token: Option<Token>)
    // janitor sweeps
    | CreateWatchdog | ResumeWatchdog | IdleSweep | ArchiveSweep | StopSweep(hasHost: bool)
    | StoppingWatchdog | HostLost

  predicate Live(r: Row) {
    r.status.Running? || r.status.Idle?
  }

  predicate LiveAt(r: Row, v: nat) {
    Live(r) && r.version == v
  }

  predicate Dead(r: Row) {
    r.status.Failed? || r.status.Orphaned?
  }

  /** The WHERE clause of a write. `busy` says that the session has a queued, executing or
      completed turn of its current version, which is what the timeout sweeps look at. */
  predicate Matches(r: Row, busy: bool, w: Write) {
    match w
    case StopSaga => r.status.Creating? || r.status.Resuming? || Live(r)
    case ArchiveSaga => Live(r) || r.status.Stopped?
    case ResumeSaga => r.status.Archived?
    case RestartSaga => Live(r) || r.status.Stopped?
    case InputSaga => Live(r)
    case CreateRunning(_, _) => r.status.Creating?
    case CreateFailed => r.status.Creating?
    case ResumeRunning(v, _) => r.version == v && r.status.Resuming?
    case ResumeFailed(v) => r.version == v && r.status.Resuming?
    case ResumeOrphaned(v) => r.version == v && r.status.Resuming?
    case StopJob(v) => r.version == v && r.status.Stopping?
    case RecoverFailed(v) => r.version == v && (Live(r) || r.status.Resuming?)
    case RecoverOrphaned(v) => r.version == v && (Live(r) || r.status.Resuming?)
    case Admit(v) => LiveAt(r, v)
    case SaveToken(v, _) => LiveAt(r, v)
    case CreateWatchdog => r.status.Creating?
    case ResumeWatchdog => r.status.Resuming?
    case IdleSweep => r.status.Running? && !busy
    case ArchiveSweep => r.status.Idle? && !busy
    case StopSweep(_) => (Live(r) || r.status.Archived?) && !busy
    case StoppingWatchdog => r.status.Stopping?
    case HostLost => Live(r) || r.status.Resuming?
  }

  function Update(r: Row, busy: bool, w: Write): Row {
    if !Matches(r, busy, w) then r else
    match w
    case StopSaga => r.(status := Stopping, version := r.version + 1)
    case ArchiveSaga => r.(status := Archived, version := r.version + 1)
    case ResumeSaga => r.(status := Resuming, version := r.version + 1)
    case RestartSaga => r.(status := Resuming, version := r.version + 1, token := None)
    case InputSaga => r.(status := Running)
    case CreateRunning(h, t) => r.(status := Running, host := h, token := Coalesce(t, r.token))
    case CreateFailed => r.(status := Failed)
    case ResumeRunning(_, t) => r.(status := Running, token := t)
    case ResumeFailed(_) => r.(status := Failed)
    case ResumeOrphaned(_) => r.(status := Orphaned)
    case StopJob(_) => r.(status := Stopped)
    case RecoverFailed(_) => r.(status := Failed)
    case RecoverOrphaned(_) => r.(status := Orphaned)
    case Admit(_) => r.(status := Running)
    case SaveToken(_, t) => r.(token := Coalesce(t, r.token))
    case CreateWatchdog => r.(status := Failed)
    case ResumeWatchdog => r.(status := Orphaned)
    case IdleSweep => r.(status := Idle)
    case ArchiveSweep => r.(status := Archived, version := r.version + 1)
    case StopSweep(hasHost) => r.(status := if hasHost then Stopping else Stopped, version := r.version + 1)
    case StoppingWatchdog => r.(status := Stopped, version := r.version + 1)
    case HostLost => r.(status := Failed)
  }

  /** No later write can make the session live at version `v`. */
  predicate Over(r: Row, v: nat) {
    || v < r.version
    || Dead(r)
    || (v == r.version && (r.status.Stopping? || r.status.Stopped? || r.status.Archived?))
  }

  /** What any write may do to the row, as the rest of the protocol relies on it. */
  ghost predicate Evolves(r: Row, r': Row) {
    && r.version <= r'.version
    && (Dead(r) ==> r' == r)
    && (r'.version == r.version && Live(r') ==> Live(r) || r.status.Creating? || r.status.Resuming?)
    && (r'.status.Creating? ==> r.status.Creating? && r' == r)
    && (!r.status.Creating? ==> r'.host == r.host)
    && (r'.status.Resuming? ==> r' == r || r'.version > r.version)
    && (r'.version == r.version && Live(r) ==> Live(r') || Dead(r'))
    && (forall v :: Over(r, v) ==> Over(r', v) && !LiveAt(r', v))
  }

  lemma UpdateEvolves(r: Row, busy: bool, w: Write)
    ensures Evolves(r, Update(r, busy, w))
  {}

  /** A write by anyone but the completion of a turn: while an era stays live its token stays the same. */
  ghost predicate KeepsToken(r: Row, r': Row) {
    Live(r) && Live(r') && r.version == r'.version ==> r'.token == r.token
  }

  lemma UpdateKeepsToken(r: Row, busy: bool, w: Write)
    requires !w.SaveToken?
    ensures KeepsToken(r, Update(r, busy, w))
  {}

  // ---- What the writes do, status by status --------------------------------------------------

  /** The commands of users. A command that does not apply leaves the row as it is. */
  lemma UserWrites(r: Row, busy: bool)
    ensures Update(r, busy, StopSaga)
            == if r.status in {Creating, Resuming, Running, Idle} then Row(Stopping, r.version + 1, r.token, r.host) else r
    ensures Update(r, busy, ArchiveSaga)
            == if r.status in {Running, Idle, Stopped} then Row(Archived, r.version + 1, r.token, r.host) else r
    ensures Update(r, busy, ResumeSaga)
            == if r.status == Archived then Row(Resuming, r.version + 1, r.token, r.host) else r
    ensures Update(r, busy, RestartSaga)
            == if r.status in {Running, Idle, Stopped} then Row(Resuming, r.version + 1, None, r.host) else r
    ensures Update(r, busy, InputSaga)
            == if r.status in {Running, Idle} then Row(Running, r.version, r.token, r.host) else r
  {}

  /** The runner's jobs; those that carry a version apply to no other. */
  lemma RunnerWrites(r: Row, busy: bool, v: nat, t: Option<Token>, h: Host)
    ensures Update(r, busy, CreateRunning(h, t))
            == if r.status == Creating then Row(Running, r.version, if t.Some? then t else r.token, h) else r
    ensures Update(r, busy, CreateFailed) == if r.status == Creating then Row(Failed, r.version, r.token, r.host) else r
    ensures Update(r, busy, ResumeRunning(v, t))
            == if r.status == Resuming && r.version == v then Row(Running, v, t, r.host) else r
    ensures Update(r, busy, ResumeFailed(v))
            == if r.status == Resuming && r.version == v then Row(Failed, v, r.token, r.host) else r
    ensures Update(r, busy, ResumeOrphaned(v))
            == if r.status == Resuming && r.version == v then Row(Orphaned, v, r.token, r.host) else r
    ensures Update(r, busy, StopJob(v))
            == if r.status == Stopping && r.version == v then Row(Stopped, v, r.token, r.host) else r
    ensures Update(r, busy, RecoverFailed(v))
            == if r.status in {Running, Idle, Resuming} && r.version == v then Row(Failed, v, r.token, r.host) else r
    ensures Update(r, busy, RecoverOrphaned(v))
            == if r.status in {Running, Idle, Resuming} && r.version == v then Row(Orphaned, v, r.token, r.host) else r
    ensures Update(r, busy, Admit(v))
            == if r.status in {Running, Idle} && r.version == v then Row(Running, v, r.token, r.host) else r
    ensures Update(r, busy, SaveToken(v, t))
            == if r.status in {Running, Idle} && r.version == v && t.Some? then Row(r.status, v, t, r.host) else r
  {}

  /** The janitor's watchdogs. */
  lemma JanitorWrites(r: Row, busy: bool)
    ensures Update(r, busy, CreateWatchdog) == if r.status == Creating then Row(Failed, r.version, r.token, r.host) else r
    ensures Update(r, busy, ResumeWatchdog) == if r.status == Resuming then Row(Orphaned, r.version, r.token, r.host) else r
    ensures Update(r, busy, StoppingWatchdog)
            == if r.status == Stopping then Row(Stopped, r.version + 1, r.token, r.host) else r
    ensures Update(r, busy, HostLost)
            == if r.status in {Running, Idle, Resuming} then Row(Failed, r.version, r.token, r.host) else r
  {}

  /** The timeouts spare a session with open turns. */
  lemma TimeoutWrites(r: Row, busy: bool)
    ensures Update(r, busy, IdleSweep) == if r.status == Running && !busy then Row(Idle, r.version, r.token, r.host) else r
    ensures Update(r, busy, ArchiveSweep)
            == if r.status == Idle && !busy then Row(Archived, r.version + 1, r.token, r.host) else r
    ensures Update(r, busy, StopSweep(true))
            == if r.status in {Running, Idle, Archived} && !busy then Row(Stopping, r.version + 1, r.token, r.host) else r
    ensures Update(r, busy, StopSweep(false))
            == if r.status in {Running, Idle, Archived} && !busy then Row(Stopped, r.version + 1, r.token, r.host) else r
  {}

  // ---- Round trips -------------------------------------------------------------------------

  /** A stop that applies is completed by its own job and by no other; the watchdog that comes first makes that job void. */
  lemma StopIsCompleted(r: Row, busy: bool, v: nat)
    requires r.status in {Creating, Resuming, Running, Idle}
    ensures var stopping := Update(r, busy, StopSaga);
            && Update(stopping, busy, StopJob(v))
               == (if v == r.version + 1 then Row(Stopped, r.version + 1, r.token, r.host) else stopping)
            && var forced := Update(stopping, busy, StoppingWatchdog);
               forced == Row(Stopped, r.version + 2, r.token, r.host) && Update(forced, busy, StopJob(r.version + 1)) == forced
  {}

  /** Archived by its user or, through idleness, by the janitor, a session is resumed live with the token it had. */
  lemma ArchiveIsUndone(r: Row, busy: bool)
    requires r.status in {Running, Idle, Stopped}
    ensures var resuming := Update(Update(r, busy, ArchiveSaga), busy, ResumeSaga);
            Update(resuming, busy, ResumeRunning(resuming.version, resuming.token)) == Row(Running, r.version + 2, r.token, r.host)
    ensures r.status == Running ==>
              var archived := Update(Update(r, false, IdleSweep), false, ArchiveSweep);
              var resuming := Update(archived, busy, ResumeSaga);
              Update(resuming, busy, ResumeRunning(resuming.version, resuming.token)) == Row(Running, r.version + 2, r.token, r.host)
  {}

  /** A restart begins a new era without the old token; an archived or stopped session is not revived by input. */
  lemma RestartForgets(r: Row, busy: bool, minted: Option<Token>)
    requires r.status in {Running, Idle, Stopped}
    ensures var resuming := Update(r, busy, RestartSaga);
            Update(resuming, busy, ResumeRunning(resuming.version, minted)) == Row(Running, r.version + 1, minted, r.host)
    ensures r.status == Stopped ==> Update(r, busy, InputSaga) == r
  {}

  /** Idleness is undone by the next input, and stopped by the janitor's stop sweep, with a job or at once. */
  lemma IdleIsUndone(r: Row, busy: bool)
    requires r.status == Running
    ensures Update(Update(r, false, IdleSweep), busy, InputSaga) == r
    ensures var stopping := Update(Update(r, false, IdleSweep), false, StopSweep(true));
            Update(stopping, busy, StopJob(stopping.version)) == Update(Update(r, false, IdleSweep), false, StopSweep(false))
  {}
}
