/**
  The commit push protocol: what several uploads of one commit do to that
  commit's rows, its merged report, its push lease and the forge, step by step
  and interleaved in any order, together with the clock and with uploads of
  other commits.

  A task is a request (one upload) or the follow-up push a holder goes on with
  after it has answered. Every task can be cut off at any point (`Abandon`).
  Some fields of `State` exist only to state properties: `newest`, `forge`,
  `forgeVersion`, `lost`, `unmerged` and `slipped`.
*/
module PushProtocol {
  import opened CommitStore
  import opened Options
  import Sorting

  const STATUS_PUSH_TIMEOUT: nat := 20 * SECOND
  const PUSH_LEASE: nat := 30 * SECOND
  const MAX_FOLLOW_UP_ROUNDS: nat := 20

  /** The commit's upload rows as one statement reads them, by upload id. */
  type Rows = map<nat, Upload>

  datatype Job = Request | FollowUp(rounds: nat)

  datatype Phase =
    | Fresh                                                              // a follow-up about to find the newest upload
    | Pending(version: nat)                                              // knows its version; is not merging yet
    | Merging(version: nat, content: Rows)                               // holds the commit lock, has read the rows
    | Ready(version: nat, content: Rows)                                 // stored the merged report; about to claim
    | Claimed(version: nat, content: Rows, token: Time)                  // the claim ran; its answer is under way
    | Posting(version: nat, content: Rows, token: Time, deadline: Time)  // talking to the forge
    | Posted(version: nat, token: Time, pushed: bool)                    // about to release the lease

  datatype Task = Task(job: Job, phase: Phase)

  datatype State = State(
    now: Time,
    upSeq: nat,
    rows: Rows,
    report: Option<Rows>,      // the rows the stored report was merged from
    stored: Option<CommitReport>,  // that report
    lock: Option<nat>,         // the task recomputing the report
    lease: Time,               // 0 when free
    status: nat,               // last recorded version
    tasks: map<nat, Task>,
    newest: nat,               // id of the commit's newest upload, 0 when there is none
    forge: Rows,               // the rows the forge's surfaces were last posted from
    forgeVersion: nat,         // the version of that post
    lost: nat,                 // the highest version whose push a fault cut off
    unmerged: nat,             // the highest upload whose recompute was cut off
    slipped: bool              // a claim was granted while what the forge showed had not been recorded
  )

  datatype Event =
    | Create(task: nat, upload: Upload)
    | CreateElsewhere
    | Tick(delay: nat)
    | Reload(task: nat, version: nat)
    | Lock(task: nat)
    | Upsert(task: nat, stored: CommitReport)
    | Claim(task: nat)
    | Return(task: nat)
    | Post(task: nat, pushed: bool, landed: bool)
    | Finish(task: nat)
    | Abandon(task: nat)

  const INITIAL := State(0, 0, map[], None, None, None, 0, 0, map[], 0, map[], 0, 0, 0, false)

  function PushRowOf(s: State): PushRow {
    PushRow(s.report.Some?, s.rows.Keys, s.lease, s.status)
  }

  /** Has claimed and not yet finished. */
  predicate Outstanding(p: Phase) {
    p.Claimed? || p.Posting? || p.Posted?
  }

  /** Claimed the lease the commit's row still shows. */
  predicate Holds(s: State, p: Phase) {
    Outstanding(p) && p.token == s.lease
  }

  ghost predicate LeaseIsHeld(s: State) {
    exists t :: t in s.tasks && Holds(s, s.tasks[t].phase)
  }

  ghost predicate Enabled(s: State, e: Event) {
    match e
    case Create(t, _) => t !in s.tasks
    case CreateElsewhere => true
    // A post is over by its deadline: every forge call runs under its context.
    case Tick(delay) => forall t :: t in s.tasks && s.tasks[t].phase.Posting? ==>
        s.now + delay <= s.tasks[t].phase.deadline
    case Reload(t, v) => t in s.tasks && s.tasks[t].phase.Fresh? && v in s.rows && forall i :: i in s.rows ==> i <= v
    case Lock(t) => t in s.tasks && s.tasks[t].phase.Pending? && s.lock.None?
    case Upsert(t, _) => t in s.tasks && s.tasks[t].phase.Merging?
    case Claim(t) => t in s.tasks && s.tasks[t].phase.Ready?
    // A claim's answer arrives within the part of the lease no post can use.
    case Return(t) => t in s.tasks && s.tasks[t].phase.Claimed? && s.now + STATUS_PUSH_TIMEOUT < s.tasks[t].phase.token
    case Post(t, pushed, landed) => t in s.tasks && s.tasks[t].phase.Posting? && (pushed ==> landed)
    case Finish(t) => t in s.tasks && s.tasks[t].phase.Posted?
    case Abandon(t) => t in s.tasks
  }

  function Move(s: State, t: nat, p: Phase): State
    requires t in s.tasks
  {
    s.(tasks := s.tasks[t := s.tasks[t].(phase := p)])
  }

  /** The task is gone; a lock it held goes with its transaction. */
  function Leave(s: State, t: nat): State {
    s.(tasks := s.tasks - {t}, lock := if s.lock == Some(t) then None else s.lock)
  }

  function Max(a: nat, b: nat): nat {
    if a < b then b else a
  }

  ghost function Apply(s: State, e: Event): State
    requires Enabled(s, e)
  {
    match e
    case Create(t, u) =>
      var id := s.upSeq + 1;
      s.(upSeq := id, rows := s.rows[id := u], newest := id, tasks := s.tasks[t := Task(Request, Pending(id))])
    case CreateElsewhere => s.(upSeq := s.upSeq + 1)
    case Tick(delay) => s.(now := s.now + delay)
    case Reload(t, v) => Move(s, t, Pending(v))
    case Lock(t) => Move(s, t, Merging(s.tasks[t].phase.version, s.rows)).(lock := Some(t))
    case Upsert(t, r) =>
      var p := s.tasks[t].phase;
      Move(s, t, Ready(p.version, p.content)).(report := Some(p.content), stored := Some(r), lock := None)
    case Claim(t) => ApplyClaim(s, t)
    case Return(t) =>
      var p := s.tasks[t].phase;
      Move(s, t, Posting(p.version, p.content, p.token, s.now + STATUS_PUSH_TIMEOUT))
    case Post(t, pushed, landed) =>
      var p := s.tasks[t].phase;
      Move(s, t, Posted(p.version, p.token, pushed)).(
        forge := if landed then p.content else s.forge,
        forgeVersion := if landed then p.version else s.forgeVersion,
        lost := if pushed then s.lost else Max(s.lost, p.version))
    case Finish(t) => ApplyFinish(s, t)
    case Abandon(t) => ApplyAbandon(s, t)
  }

  ghost function ApplyClaim(s: State, t: nat): State
    requires t in s.tasks && s.tasks[t].phase.Ready?
  {
    var p := s.tasks[t].phase;
    var (row, outcome) := ClaimRow(PushRowOf(s), p.version, s.now, PUSH_LEASE);
    match outcome
    case Superseded => Leave(s, t)
    case Queued =>
      // Only a live holder goes round again; behind a dead one the upload is lost.
      Leave(s, t).(lost := if LeaseIsHeld(s) then s.lost else Max(s.lost, p.version))
    case Granted(token) =>
      Move(s, t, Claimed(p.version, p.content, token)).(
        lease := row.lease, slipped := s.slipped || s.status < s.forgeVersion)
  }

  /** The holder's release: the lease and version rows, and the task ready to go round again. */
  ghost function Released(s: State, t: nat): State
    requires t in s.tasks && s.tasks[t].phase.Posted?
  {
    var p := s.tasks[t].phase;
    var row := FinishRow(PushRowOf(s), p.version, p.token, p.pushed).0;
    var rounds := match s.tasks[t].job case Request => 0 case FollowUp(r) => r + 1;
    s.(lease := row.lease, status := row.status, tasks := s.tasks[t := Task(FollowUp(rounds), Fresh)])
  }

  ghost function ApplyFinish(s: State, t: nat): State
    requires t in s.tasks && s.tasks[t].phase.Posted?
  {
    var p := s.tasks[t].phase;
    var again := FinishRow(PushRowOf(s), p.version, p.token, p.pushed).1;
    var s' := Released(s, t);
    if !again then Leave(s', t)
    else if s'.tasks[t].job.rounds < MAX_FOLLOW_UP_ROUNDS then s'
    else Leave(s', t).(lost := s.newest)
  }

  /**
    The task stops for good: a store call failed, the forge client was lost, its
    context was cancelled or its process died. A dead holder keeps its lease
    until that lapses.
  */
  ghost function ApplyAbandon(s: State, t: nat): State
    requires t in s.tasks
  {
    var p := s.tasks[t].phase;
    Leave(s, t).(
      lost := if p.Fresh? || Holds(s, p) then s.newest
              else if Outstanding(p) then s.lost
              else Max(s.lost, p.version),
      unmerged := if s.tasks[t].job.Request? && (p.Pending? || p.Merging?)
                  then Max(s.unmerged, p.version) else s.unmerged)
  }

  /** A run is the sequence of its events, from the empty state. */
  ghost predicate IsRun(es: seq<Event>)
    decreases |es|, 0
  {
    es == [] || (IsRun(es[..|es| - 1]) && Enabled(After(es[..|es| - 1]), es[|es| - 1]))
  }

  ghost function After(es: seq<Event>): State
    requires IsRun(es)
    decreases |es|, 1
  {
    if es == [] then INITIAL else Apply(After(es[..|es| - 1]), es[|es| - 1])
  }

  // ----- the invariant

  /** `content` was read when every row up to `version` was there. */
  ghost predicate Covers(content: Rows, rows: Rows, version: nat) {
    && (forall i :: i in content ==> i in rows && content[i] == rows[i])
    && (forall i :: i in rows && i <= version ==> i in content)
  }

  ghost predicate RowsOk(s: State) {
    && (forall i :: i in s.rows ==> 0 < i <= s.newest)
    && s.newest <= s.upSeq
    && (s.newest == 0 || s.newest in s.rows)
    && s.status <= s.newest && s.lost <= s.newest && s.unmerged <= s.newest
    && s.lease <= s.now + PUSH_LEASE && s.stored.Some? == s.report.Some?
    && Covers(s.forge, s.rows, s.forgeVersion) && s.forgeVersion <= s.newest
    && (s.report.Some? ==> Covers(s.report.value, s.rows, 0))
  }

  ghost predicate PhaseOk(s: State, p: Phase) {
    && (!p.Fresh? ==> p.version in s.rows)
    && (p.Merging? || p.Ready? || p.Claimed? || p.Posting? ==> Covers(p.content, s.rows, p.version))
    && (p.Ready? || Outstanding(p) ==> s.report.Some?)
    && (p.Merging? && s.report.Some? ==> s.report.value.Keys <= p.content.Keys)
    && (Outstanding(p) ==> p.token != 0 && (p.token == s.lease || p.token <= s.now))
    && (p.Posting? ==> s.now <= p.deadline < p.token)
    && (p.Posted? && p.pushed && p.token == s.lease ==> s.forgeVersion == p.version)
    && (p.Posted? && !p.pushed ==> p.version <= s.lost)
  }

  ghost predicate LockOk(s: State) {
    && (s.lock.Some? ==> s.lock.value in s.tasks)
    && forall t :: t in s.tasks ==> (s.tasks[t].phase.Merging? <==> s.lock == Some(t))
  }

  ghost predicate TokensDistinct(s: State) {
    forall t, t' :: t in s.tasks && t' in s.tasks && t != t'
                    && Outstanding(s.tasks[t].phase) && Outstanding(s.tasks[t'].phase)
                    ==> s.tasks[t].phase.token != s.tasks[t'].phase.token
  }

  /** The task will bring the forge up to the newest upload, or hand that on. */
  ghost predicate Witness(s: State, p: Phase) {
    match p
    case Fresh => true
    case Pending(v) => v == s.newest
    case Merging(v, _) => v == s.newest
    case Ready(v, _) => v == s.newest
    case Claimed(_, _, token) => token == s.lease
    case Posting(_, _, token, _) => token == s.lease
    case Posted(v, token, _) => token == s.lease && v < s.newest
  }

  ghost predicate IsWitness(s: State, t: nat) {
    t in s.tasks && Witness(s, s.tasks[t].phase)
  }

  ghost predicate WitnessOk(s: State) {
    s.lost < s.newest ==> s.forgeVersion == s.newest || exists t :: IsWitness(s, t)
  }

  /** The newest upload's own request has yet to store the report. */
  ghost predicate WillMerge(s: State, t: nat) {
    && t in s.tasks && s.tasks[t].job.Request?
    && (s.tasks[t].phase.Pending? || s.tasks[t].phase.Merging?)
    && s.tasks[t].phase.version == s.newest
  }

  ghost predicate MergeOk(s: State) {
    0 < s.newest && s.unmerged < s.newest ==> s.report == Some(s.rows) || exists t :: WillMerge(s, t)
  }

  /** While no claim has slipped, the holder is bound to post nothing older than the forge shows. */
  ghost predicate OrderOk(s: State) {
    !s.slipped ==>
      forall t :: t in s.tasks && (s.tasks[t].phase.Claimed? || s.tasks[t].phase.Posting?)
          && s.tasks[t].phase.token == s.lease
        ==> s.forgeVersion <= s.tasks[t].phase.version
  }

  ghost predicate Safe(s: State) {
    && RowsOk(s)
    && (forall t :: t in s.tasks ==> PhaseOk(s, s.tasks[t].phase))
    && LockOk(s)
    && TokensDistinct(s)
    && OrderOk(s)
  }

  ghost predicate Inv(s: State) {
    Safe(s) && WitnessOk(s) && MergeOk(s)
  }

  // ----- every step keeps it

  lemma CoversMoreRows(content: Rows, rows: Rows, version: nat, id: nat, u: Upload)
    requires Covers(content, rows, version) && version < id && id !in rows
    ensures Covers(content, rows[id := u], version)
  {
  }

  lemma CreateKeepsSafe(s: State, t: nat, u: Upload)
    requires Safe(s) && Enabled(s, Create(t, u))
    ensures Safe(Apply(s, Create(t, u)))
  {
    var s' := Apply(s, Create(t, u));
    CoversMoreRows(s.forge, s.rows, s.forgeVersion, s'.newest, u);
    if s.report.Some? {
      CoversMoreRows(s.report.value, s.rows, 0, s'.newest, u);
    }
    forall o | o in s'.tasks ensures PhaseOk(s', s'.tasks[o].phase) {
      if o != t {
        var p := s.tasks[o].phase;
        assert PhaseOk(s, p);
        if p.Merging? || p.Ready? || p.Claimed? || p.Posting? {
          CoversMoreRows(p.content, s.rows, p.version, s'.newest, u);
        }
      }
    }
  }

  lemma QuietStepKeepsSafe(s: State, e: Event)
    requires Safe(s) && Enabled(s, e)
    requires e.CreateElsewhere? || e.Tick?
    ensures Safe(Apply(s, e))
  {
  }

  ghost predicate OthersStay(s: State, s': State, t: nat) {
    forall o :: o in s.tasks && o != t ==> o in s'.tasks && s'.tasks[o] == s.tasks[o]
  }

  /** One task goes on, and nothing else changes but the lock. */
  ghost predicate OnlyMoves(s: State, s': State, t: nat) {
    && t in s.tasks && s'.tasks.Keys == s.tasks.Keys && OthersStay(s, s', t)
    && s' == s.(tasks := s'.tasks, lock := s'.lock)
  }

  lemma MoveKeepsPhases(s: State, s': State, t: nat)
    requires OnlyMoves(s, s', t) && PhaseOk(s, s'.tasks[t].phase)
    requires forall o :: o in s.tasks ==> PhaseOk(s, s.tasks[o].phase)
    ensures forall o :: o in s'.tasks ==> PhaseOk(s', s'.tasks[o].phase)
  {
    forall o | o in s'.tasks ensures PhaseOk(s', s'.tasks[o].phase) {
      assert PhaseOk(s, s'.tasks[o].phase);
    }
  }

  /** Only an answered claim keeps the token the task has, and with it the version it is bound to post. */
  ghost predicate KeepsToken(p: Phase, p': Phase) {
    Outstanding(p') ==> p.Claimed? && p'.Posting? && p'.token == p.token && p'.version == p.version
  }

  lemma MoveKeepsTokens(s: State, s': State, t: nat)
    requires TokensDistinct(s) && OrderOk(s) && OnlyMoves(s, s', t)
    requires KeepsToken(s.tasks[t].phase, s'.tasks[t].phase)
    ensures TokensDistinct(s') && OrderOk(s')
  {
  }

  lemma MoveKeepsSafe(s: State, s': State, t: nat)
    requires Safe(s) && OnlyMoves(s, s', t) && PhaseOk(s, s'.tasks[t].phase) && LockOk(s')
    requires KeepsToken(s.tasks[t].phase, s'.tasks[t].phase)
    ensures Safe(s')
  {
    MoveKeepsPhases(s, s', t);
    MoveKeepsTokens(s, s', t);
  }

  lemma ReloadKeepsSafe(s: State, t: nat, v: nat)
    requires Safe(s) && Enabled(s, Reload(t, v))
    ensures Safe(Apply(s, Reload(t, v)))
  {
    MoveKeepsSafe(s, Apply(s, Reload(t, v)), t);
  }

  lemma LockKeepsSafe(s: State, t: nat)
    requires Safe(s) && Enabled(s, Lock(t))
    ensures Safe(Apply(s, Lock(t)))
  {
    assert PhaseOk(s, s.tasks[t].phase);
    MoveKeepsSafe(s, Apply(s, Lock(t)), t);
  }

  lemma ReturnKeepsSafe(s: State, t: nat)
    requires Safe(s) && Enabled(s, Return(t))
    ensures Safe(Apply(s, Return(t)))
  {
    assert PhaseOk(s, s.tasks[t].phase);
    MoveKeepsSafe(s, Apply(s, Return(t)), t);
  }

  lemma UpsertKeepsPhases(s: State, t: nat, r: CommitReport)
    requires Safe(s) && Enabled(s, Upsert(t, r))
    ensures var s' := Apply(s, Upsert(t, r)); forall o :: o in s'.tasks ==> PhaseOk(s', s'.tasks[o].phase)
  {
    var s' := Apply(s, Upsert(t, r));
    forall o | o in s'.tasks ensures PhaseOk(s', s'.tasks[o].phase) {
      assert PhaseOk(s, s.tasks[o].phase);
    }
  }

  lemma UpsertKeepsTokens(s: State, t: nat, r: CommitReport)
    requires TokensDistinct(s) && OrderOk(s) && Enabled(s, Upsert(t, r))
    ensures TokensDistinct(Apply(s, Upsert(t, r))) && OrderOk(Apply(s, Upsert(t, r)))
  {
  }

  lemma UpsertKeepsRows(s: State, t: nat, r: CommitReport)
    requires RowsOk(s) && LockOk(s) && Enabled(s, Upsert(t, r)) && PhaseOk(s, s.tasks[t].phase)
    ensures RowsOk(Apply(s, Upsert(t, r))) && LockOk(Apply(s, Upsert(t, r)))
  {
  }

  lemma UpsertKeepsSafe(s: State, t: nat, r: CommitReport)
    requires Safe(s) && Enabled(s, Upsert(t, r))
    ensures Safe(Apply(s, Upsert(t, r)))
  {
    assert PhaseOk(s, s.tasks[t].phase);
    UpsertKeepsPhases(s, t, r);
    UpsertKeepsTokens(s, t, r);
    UpsertKeepsRows(s, t, r);
  }

  lemma PostKeepsPhases(s: State, t: nat, pushed: bool, landed: bool)
    requires Safe(s) && Enabled(s, Post(t, pushed, landed))
    ensures var s' := Apply(s, Post(t, pushed, landed)); forall o :: o in s'.tasks ==> PhaseOk(s', s'.tasks[o].phase)
  {
    var s' := Apply(s, Post(t, pushed, landed));
    forall o | o in s'.tasks ensures PhaseOk(s', s'.tasks[o].phase) {
      assert PhaseOk(s, s.tasks[o].phase);
    }
  }

  lemma PostKeepsSafe(s: State, t: nat, pushed: bool, landed: bool)
    requires Safe(s) && Enabled(s, Post(t, pushed, landed))
    ensures Safe(Apply(s, Post(t, pushed, landed)))
  {
    PostKeepsPhases(s, t, pushed, landed);
    assert PhaseOk(s, s.tasks[t].phase);
  }

  lemma LeaveKeepsSafe(s: State, t: nat, lost: nat, unmerged: nat)
    requires Safe(s) && s.lost <= lost <= s.newest && unmerged <= s.newest
    ensures Safe(Leave(s, t).(lost := lost, unmerged := unmerged))
  {
  }

  /** A later lease is nobody's who was there before. */
  lemma LaterLeaseKeepsPhase(s: State, s': State, p: Phase)
    requires PhaseOk(s, p) && s.lease <= s.now < s'.lease && s'.now == s.now
    requires s'.rows == s.rows && s'.report == s.report && s'.forgeVersion == s.forgeVersion && s'.lost == s.lost
    ensures PhaseOk(s', p)
  {
  }

  lemma GrantKeepsPhases(s: State, t: nat)
    requires Safe(s) && Enabled(s, Claim(t)) && s.report.Some? && s.status <= s.tasks[t].phase.version
    requires s.lease <= s.now
    ensures var s' := Apply(s, Claim(t)); forall o :: o in s'.tasks ==> PhaseOk(s', s'.tasks[o].phase)
  {
    var s' := Apply(s, Claim(t));
    assert PhaseOk(s, s.tasks[t].phase);
    forall o | o in s'.tasks && o != t ensures PhaseOk(s', s'.tasks[o].phase) {
      LaterLeaseKeepsPhase(s, s', s.tasks[o].phase);
    }
  }

  /** The new token is later than every other. */
  lemma GrantKeepsTokens(s: State, t: nat)
    requires Safe(s) && Enabled(s, Claim(t)) && s.report.Some? && s.status <= s.tasks[t].phase.version
             && s.lease <= s.now
    ensures TokensDistinct(Apply(s, Claim(t))) && OrderOk(Apply(s, Claim(t)))
  {
    var s' := Apply(s, Claim(t));
    forall o | o in s.tasks && Outstanding(s.tasks[o].phase) ensures s.tasks[o].phase.token < s'.lease {
      assert PhaseOk(s, s.tasks[o].phase);
    }
    assert forall o :: o in s.tasks && o != t ==> s'.tasks[o] == s.tasks[o];
  }

  lemma GrantKeepsRows(s: State, t: nat)
    requires RowsOk(s) && LockOk(s) && Enabled(s, Claim(t))
    requires s.report.Some? && s.status <= s.tasks[t].phase.version && s.lease <= s.now
    ensures RowsOk(Apply(s, Claim(t))) && LockOk(Apply(s, Claim(t)))
  {
    var s' := Apply(s, Claim(t));
    assert forall o :: o in s'.tasks ==> (s'.tasks[o].phase.Merging? <==> s.tasks[o].phase.Merging?);
  }

  lemma GrantKeepsSafe(s: State, t: nat)
    requires Safe(s) && Enabled(s, Claim(t))
    requires s.report.Some? && s.status <= s.tasks[t].phase.version && s.lease <= s.now
    ensures Safe(Apply(s, Claim(t)))
  {
    GrantKeepsRows(s, t);
    GrantKeepsPhases(s, t);
    GrantKeepsTokens(s, t);
  }

  lemma ReleaseKeepsPhases(s: State, t: nat)
    requires Safe(s) && Enabled(s, Finish(t))
    ensures var s' := Released(s, t); forall o :: o in s'.tasks ==> PhaseOk(s', s'.tasks[o].phase)
  {
    var s' := Released(s, t);
    forall o | o in s'.tasks ensures PhaseOk(s', s'.tasks[o].phase) {
      assert PhaseOk(s, s.tasks[o].phase);
    }
  }

  lemma ReleaseKeepsSafe(s: State, t: nat)
    requires Safe(s) && Enabled(s, Finish(t))
    ensures Safe(Released(s, t))
  {
    ReleaseKeepsPhases(s, t);
    assert PhaseOk(s, s.tasks[t].phase);
  }

  lemma FinishKeepsSafe(s: State, t: nat)
    requires Safe(s) && Enabled(s, Finish(t))
    ensures Safe(Apply(s, Finish(t)))
  {
    ReleaseKeepsSafe(s, t);
    LeaveKeepsSafe(Released(s, t), t, Apply(s, Finish(t)).lost, s.unmerged);
  }

  lemma ClaimKeepsSafe(s: State, t: nat)
    requires Safe(s) && Enabled(s, Claim(t))
    ensures Safe(Apply(s, Claim(t)))
  {
    var p := s.tasks[t].phase;
    assert PhaseOk(s, p);
    if s.status <= p.version && s.lease <= s.now {
      GrantKeepsSafe(s, t);
    } else {
      LeaveKeepsSafe(s, t, Apply(s, Claim(t)).lost, s.unmerged);
    }
  }

  lemma AbandonKeepsSafe(s: State, t: nat)
    requires Safe(s) && Enabled(s, Abandon(t))
    ensures Safe(Apply(s, Abandon(t)))
  {
    assert PhaseOk(s, s.tasks[t].phase);
    var s' := Apply(s, Abandon(t));
    LeaveKeepsSafe(s, t, s'.lost, s'.unmerged);
  }

  lemma StepKeepsSafe(s: State, e: Event)
    requires Safe(s) && Enabled(s, e)
    ensures Safe(Apply(s, e))
  {
    match e
    case Create(t, u) => CreateKeepsSafe(s, t, u);
    case CreateElsewhere => QuietStepKeepsSafe(s, e);
    case Tick(_) => QuietStepKeepsSafe(s, e);
    case Reload(t, v) => ReloadKeepsSafe(s, t, v);
    case Lock(t) => LockKeepsSafe(s, t);
    case Upsert(t, r) => UpsertKeepsSafe(s, t, r);
    case Return(t) => ReturnKeepsSafe(s, t);
    case Post(t, pushed, landed) => PostKeepsSafe(s, t, pushed, landed);
    case Claim(t) => ClaimKeepsSafe(s, t);
    case Finish(t) => FinishKeepsSafe(s, t);
    case Abandon(t) => AbandonKeepsSafe(s, t);
  }

  ghost predicate RowsStay(s: State, s': State) {
    s'.rows == s.rows && s'.newest == s.newest && s'.report == s.report && s'.stored == s.stored
        && s'.unmerged == s.unmerged
  }

  lemma ClaimStays(s: State, t: nat)
    requires Enabled(s, Claim(t))
    ensures var s' := Apply(s, Claim(t));
            OthersStay(s, s', t) && RowsStay(s, s') && s'.forgeVersion == s.forgeVersion && s.lost <= s'.lost
    ensures s.report.Some? && s.now < s.lease ==> Apply(s, Claim(t)).lease == s.lease
  {
  }

  lemma ReleaseStays(s: State, t: nat)
    requires t in s.tasks && s.tasks[t].phase.Posted?
    ensures OthersStay(s, Released(s, t), t) && RowsStay(s, Released(s, t))
  {
  }

  lemma FinishStays(s: State, t: nat)
    requires Enabled(s, Finish(t))
    ensures OthersStay(s, Apply(s, Finish(t)), t) && RowsStay(s, Apply(s, Finish(t)))
  {
    ReleaseStays(s, t);
  }

  /** A queued claim leaves the lease's live holder to push for it. */
  lemma QueuedKeepsWitness(s: State, t: nat)
    requires Inv(s) && Enabled(s, Claim(t)) && s.lease != 0
    requires LeaseIsHeld(s) && s.lost < s.newest && s.forgeVersion != s.newest
    ensures exists h :: h != t && IsWitness(s, h)
  {
    var h :| h in s.tasks && Holds(s, s.tasks[h].phase);
    assert PhaseOk(s, s.tasks[h].phase);
    assert IsWitness(s, h);
  }

  lemma GrantKeepsWitness(s: State, t: nat)
    requires Enabled(s, Claim(t)) && s.report.Some? && s.status <= s.tasks[t].phase.version && s.lease <= s.now
    ensures WitnessOk(Apply(s, Claim(t)))
  {
    assert IsWitness(Apply(s, Claim(t)), t);
  }

  lemma RefusalKeepsWitness(s: State, t: nat)
    requires Inv(s) && Enabled(s, Claim(t))
    requires s.report.Some? && (s.tasks[t].phase.version < s.status || s.now < s.lease)
    ensures WitnessOk(Apply(s, Claim(t)))
  {
    var s' := Apply(s, Claim(t));
    ClaimStays(s, t);
    if s'.lost < s.newest && s.forgeVersion != s.newest {
      var w :| IsWitness(s, w);
      if w == t {
        QueuedKeepsWitness(s, t);
        w :| w != t && IsWitness(s, w);
      }
      assert IsWitness(s', w);
    }
  }

  lemma ClaimKeepsWitness(s: State, t: nat)
    requires Inv(s) && Enabled(s, Claim(t))
    ensures WitnessOk(Apply(s, Claim(t)))
  {
    var p := s.tasks[t].phase;
    assert PhaseOk(s, p);
    if s.status <= p.version && s.lease <= s.now {
      GrantKeepsWitness(s, t);
    } else {
      RefusalKeepsWitness(s, t);
    }
  }

  lemma PostKeepsWitness(s: State, t: nat, pushed: bool, landed: bool)
    requires Inv(s) && Enabled(s, Post(t, pushed, landed))
    ensures WitnessOk(Apply(s, Post(t, pushed, landed)))
  {
    var s' := Apply(s, Post(t, pushed, landed));
    assert PhaseOk(s, s.tasks[t].phase);
    if s.tasks[t].phase.version < s.newest {
      assert IsWitness(s', t);
    }
  }

  /** A release too late: the lease is another's, and the task leaves. */
  lemma LateFinishKeepsWitness(s: State, t: nat)
    requires WitnessOk(s) && s.report.Some? && Enabled(s, Finish(t)) && !Holds(s, s.tasks[t].phase)
    ensures WitnessOk(Apply(s, Finish(t)))
  {
    OneTaskKeepsWitness(s, Apply(s, Finish(t)), t);
  }

  /** The holder goes round again for a newer upload. */
  lemma HolderFinishKeepsWitness(s: State, t: nat)
    requires RowsOk(s) && Enabled(s, Finish(t)) && PhaseOk(s, s.tasks[t].phase) && Holds(s, s.tasks[t].phase)
    ensures WitnessOk(Apply(s, Finish(t)))
  {
    var s' := Apply(s, Finish(t));
    if s.tasks[t].phase.version < s.newest {
      assert s.newest in s.rows.Keys;
      if t in s'.tasks {
        assert IsWitness(s', t);
      }
    }
  }

  lemma FinishKeepsWitness(s: State, t: nat)
    requires Inv(s) && Enabled(s, Finish(t))
    ensures WitnessOk(Apply(s, Finish(t)))
  {
    assert PhaseOk(s, s.tasks[t].phase);
    if Holds(s, s.tasks[t].phase) {
      HolderFinishKeepsWitness(s, t);
    } else {
      LateFinishKeepsWitness(s, t);
    }
  }

  /** A step of task `t` alone, which stays the witness it was or is recorded as lost. */
  lemma OneTaskKeepsWitness(s: State, s': State, t: nat)
    requires WitnessOk(s) && OthersStay(s, s', t)
    requires s'.newest == s.newest && s'.forgeVersion == s.forgeVersion && s'.lease == s.lease && s.lost <= s'.lost
    requires IsWitness(s, t) ==> IsWitness(s', t) || s.newest <= s'.lost
    ensures WitnessOk(s')
  {
    if s'.lost < s'.newest && s'.forgeVersion != s'.newest {
      var w :| IsWitness(s, w);
      assert IsWitness(s', w);
    }
  }

  lemma QuietStepKeepsWitness(s: State, e: Event)
    requires WitnessOk(s) && Enabled(s, e) && (e.CreateElsewhere? || e.Tick?)
    ensures WitnessOk(Apply(s, e))
  {
    if w :| IsWitness(s, w) {
      assert IsWitness(Apply(s, e), w);
    }
  }

  lemma CreateKeepsWitness(s: State, t: nat, u: Upload)
    requires Enabled(s, Create(t, u))
    ensures WitnessOk(Apply(s, Create(t, u)))
  {
    assert IsWitness(Apply(s, Create(t, u)), t);
  }

  lemma ReloadKeepsWitness(s: State, t: nat, v: nat)
    requires RowsOk(s) && WitnessOk(s) && Enabled(s, Reload(t, v))
    ensures WitnessOk(Apply(s, Reload(t, v)))
  {
    assert v == s.newest;
    OneTaskKeepsWitness(s, Apply(s, Reload(t, v)), t);
  }

  /** Recomputing and starting to post hand nothing on. */
  lemma MoveKeepsWitness(s: State, e: Event)
    requires WitnessOk(s) && Enabled(s, e) && (e.Lock? || e.Upsert? || e.Return?)
    ensures WitnessOk(Apply(s, e))
  {
    match e
    case Lock(t) => OneTaskKeepsWitness(s, Apply(s, e), t);
    case Upsert(t, _) => OneTaskKeepsWitness(s, Apply(s, e), t);
    case Return(t) => OneTaskKeepsWitness(s, Apply(s, e), t);
  }

  lemma AbandonKeepsWitness(s: State, t: nat)
    requires Safe(s) && WitnessOk(s) && Enabled(s, Abandon(t))
    ensures WitnessOk(Apply(s, Abandon(t)))
  {
    assert PhaseOk(s, s.tasks[t].phase);
    OneTaskKeepsWitness(s, Apply(s, Abandon(t)), t);
  }

  lemma StepKeepsWitness(s: State, e: Event)
    requires Inv(s) && Enabled(s, e)
    ensures WitnessOk(Apply(s, e))
  {
    match e
    case Create(t, u) => CreateKeepsWitness(s, t, u);
    case CreateElsewhere => QuietStepKeepsWitness(s, e);
    case Tick(_) => QuietStepKeepsWitness(s, e);
    case Reload(t, v) => ReloadKeepsWitness(s, t, v);
    case Claim(t) => ClaimKeepsWitness(s, t);
    case Post(t, pushed, landed) => PostKeepsWitness(s, t, pushed, landed);
    case Finish(t) => FinishKeepsWitness(s, t);
    case Abandon(t) => AbandonKeepsWitness(s, t);
    case _ => MoveKeepsWitness(s, e);
  }

  lemma UpsertKeepsMerge(s: State, t: nat, r: CommitReport)
    requires Inv(s) && Enabled(s, Upsert(t, r))
    ensures MergeOk(Apply(s, Upsert(t, r)))
  {
    var s' := Apply(s, Upsert(t, r));
    var p := s.tasks[t].phase;
    assert PhaseOk(s, p);
    if s.unmerged < s.newest && 0 < s.newest {
      if s.report == Some(s.rows) || WillMerge(s, t) {
        assert p.content.Keys == s.rows.Keys;
        assert p.content == s.rows;
      } else {
        var w :| WillMerge(s, w);
        assert WillMerge(s', w);
      }
    }
  }

  /**
    A step of task `t` alone, which still has the newest upload to merge, or whose recompute is recorded as cut off.
  */
  lemma OneTaskKeepsMerge(s: State, s': State, t: nat)
    requires MergeOk(s) && OthersStay(s, s', t)
    requires s'.newest == s.newest && s'.rows == s.rows && s'.report == s.report && s.unmerged <= s'.unmerged
    requires WillMerge(s, t) ==> WillMerge(s', t) || s.newest <= s'.unmerged
    ensures MergeOk(s')
  {
    if 0 < s'.newest && s'.unmerged < s'.newest && s.report != Some(s.rows) {
      var w :| WillMerge(s, w);
      assert WillMerge(s', w);
    }
  }

  lemma QuietStepKeepsMerge(s: State, e: Event)
    requires MergeOk(s) && Enabled(s, e) && (e.CreateElsewhere? || e.Tick?)
    ensures MergeOk(Apply(s, e))
  {
    if w :| WillMerge(s, w) {
      assert WillMerge(Apply(s, e), w);
    }
  }

  lemma CreateKeepsMerge(s: State, t: nat, u: Upload)
    requires Enabled(s, Create(t, u))
    ensures MergeOk(Apply(s, Create(t, u)))
  {
    assert WillMerge(Apply(s, Create(t, u)), t);
  }

  lemma FinishKeepsMerge(s: State, t: nat)
    requires MergeOk(s) && Enabled(s, Finish(t))
    ensures MergeOk(Apply(s, Finish(t)))
  {
    FinishStays(s, t);
    OneTaskKeepsMerge(s, Apply(s, Finish(t)), t);
  }

  lemma ClaimKeepsMerge(s: State, t: nat)
    requires MergeOk(s) && Enabled(s, Claim(t))
    ensures MergeOk(Apply(s, Claim(t)))
  {
    ClaimStays(s, t);
    OneTaskKeepsMerge(s, Apply(s, Claim(t)), t);
  }

  lemma MoveKeepsMerge(s: State, e: Event)
    requires MergeOk(s) && Enabled(s, e) && (e.Reload? || e.Lock? || e.Return? || e.Post?)
    ensures MergeOk(Apply(s, e))
  {
    OneTaskKeepsMerge(s, Apply(s, e), e.task);
  }

  lemma AbandonKeepsMerge(s: State, t: nat)
    requires MergeOk(s) && Enabled(s, Abandon(t))
    ensures MergeOk(Apply(s, Abandon(t)))
  {
    OneTaskKeepsMerge(s, Apply(s, Abandon(t)), t);
  }

  lemma OtherStepKeepsMerge(s: State, e: Event)
    requires MergeOk(s) && Enabled(s, e) && !e.Upsert?
    ensures MergeOk(Apply(s, e))
  {
    match e
    case Create(t, u) => CreateKeepsMerge(s, t, u);
    case CreateElsewhere => QuietStepKeepsMerge(s, e);
    case Tick(_) => QuietStepKeepsMerge(s, e);
    case Claim(t) => ClaimKeepsMerge(s, t);
    case Finish(t) => FinishKeepsMerge(s, t);
    case Abandon(t) => AbandonKeepsMerge(s, t);
    case _ => MoveKeepsMerge(s, e);
  }

  lemma {:induction false} RunKeepsInv(es: seq<Event>)
    requires IsRun(es)
    ensures Inv(After(es))
    decreases |es|
  {
    if es != [] {
      var before := es[..|es| - 1];
      RunKeepsInv(before);
      var s, e := After(before), es[|es| - 1];
      StepKeepsSafe(s, e);
      StepKeepsWitness(s, e);
      if e.Upsert? {
        UpsertKeepsMerge(s, e.task, e.stored);
      } else {
        OtherStepKeepsMerge(s, e);
      }
    }
  }

  // ----- what the protocol promises

  /**
    The last word on the forge is the newest one: once every task is done, the
    forge shows exactly the commit's rows, provided the newest upload is newer
    than any version a fault cut off.
  */
  lemma LastWordIsNewest(es: seq<Event>)
    requires IsRun(es)
    requires var s := After(es); s.tasks == map[] && s.lost < s.newest
    ensures After(es).forge == After(es).rows
  {
    RunKeepsInv(es);
    var s := After(es);
    assert forall t :: !IsWitness(s, t);
    assert s.forge.Keys == s.rows.Keys;
  }

  /** No part is lost: once no recompute is pending, the stored report is the merge of all rows. */
  lemma NoPartIsLost(es: seq<Event>)
    requires IsRun(es)
    requires var s := After(es); s.unmerged < s.newest
    requires var s := After(es); forall t :: t in s.tasks ==> !s.tasks[t].phase.Pending? && !s.tasks[t].phase.Merging?
    ensures After(es).report == Some(After(es).rows)
  {
    RunKeepsInv(es);
    var s := After(es);
    assert forall t :: !WillMerge(s, t);
  }

  /** Two tasks never talk to the forge at once. */
  lemma OnePushAtATime(es: seq<Event>, t: nat, t': nat)
    requires IsRun(es)
    requires var s := After(es);
             t in s.tasks && t' in s.tasks && s.tasks[t].phase.Posting? && s.tasks[t'].phase.Posting?
    ensures t == t' && After(es).tasks[t].phase.token == After(es).lease
  {
    RunKeepsInv(es);
    var s := After(es);
    assert PhaseOk(s, s.tasks[t].phase) && PhaseOk(s, s.tasks[t'].phase);
  }

  lemma OutstandingTokensDiffer(es: seq<Event>)
    requires IsRun(es)
    ensures TokensDistinct(After(es))
  {
    RunKeepsInv(es);
  }

  lemma ReleaseRaisesStatus(s: State, t: nat)
    requires t in s.tasks && s.tasks[t].phase.Posted?
    ensures s.status <= Released(s, t).status
  {
  }

  lemma StepRaisesStatus(s: State, e: Event)
    requires Enabled(s, e)
    ensures s.status <= Apply(s, e).status
  {
    match e
    case Finish(t) => ReleaseRaisesStatus(s, t);
    case _ =>
  }

  /** The recorded version only rises, across any two points of a run. */
  lemma {:induction false} VersionOnlyRises(es: seq<Event>, n: nat)
    requires IsRun(es) && n <= |es|
    ensures IsRun(es[..n]) && After(es[..n]).status <= After(es).status
    decreases |es|
  {
    if n == |es| {
      assert es[..n] == es;
    } else {
      var before := es[..|es| - 1];
      VersionOnlyRises(before, n);
      assert before[..n] == es[..n];
      StepRaisesStatus(After(before), es[|es| - 1]);
    }
  }

  lemma ThenRun(es: seq<Event>, e: Event) returns (run: seq<Event>)
    requires IsRun(es) && Enabled(After(es), e)
    ensures run == es + [e] && IsRun(run) && After(run) == Apply(After(es), e)
  {
    run := es + [e];
    assert run[..|run| - 1] == es;
  }

  /**
    As long as what the forge shows is recorded by the time a claim is granted, an older push never lands after a newer
    one.
  */
  lemma OlderNeverLandsLast(es: seq<Event>, t: nat, pushed: bool)
    requires IsRun(es) && !After(es).slipped && Enabled(After(es), Post(t, pushed, true))
    ensures After(es).forgeVersion <= Apply(After(es), Post(t, pushed, true)).forgeVersion
  {
    RunKeepsInv(es);
    assert PhaseOk(After(es), After(es).tasks[t].phase);
  }

  /** The task has claimed this version under this token, and has not posted yet. */
  predicate IsPushing(s: State, t: nat, version: nat, token: Time) {
    && t in s.tasks && (s.tasks[t].phase.Claimed? || s.tasks[t].phase.Posting?)
    && s.tasks[t].phase.version == version && s.tasks[t].phase.token == token
  }

  lemma OnlyPostsChangeTheForge(s: State, e: Event)
    requires Enabled(s, e) && !e.Post?
    ensures Apply(s, e).forgeVersion == s.forgeVersion
  {
    match e
    case Finish(_) =>
    case _ =>
  }

  lemma OthersDoNotPost(s: State, e: Event, t: nat, version: nat, token: Time)
    requires Safe(s) && IsPushing(s, t, version, token) && s.now < token
    requires Enabled(s, e) && IsPushing(Apply(s, e), t, version, token)
    ensures Apply(s, e).forgeVersion == s.forgeVersion && s.now <= Apply(s, e).now
  {
    forall o | o in s.tasks && (o == t || s.tasks[o].phase.Posting?) ensures s.tasks[o].phase.token == s.lease {
      assert PhaseOk(s, s.tasks[o].phase);
    }
    if !e.Post? {
      OnlyPostsChangeTheForge(s, e);
      StepRaisesClock(s, e);
    }
  }

  lemma StepRaisesClock(s: State, e: Event)
    requires Enabled(s, e)
    ensures s.now <= Apply(s, e).now
  {
  }

  lemma {:induction false} ClockOnlyRises(es: seq<Event>, n: nat)
    requires IsRun(es) && n <= |es|
    ensures IsRun(es[..n]) && After(es[..n]).now <= After(es).now
    decreases |es|
  {
    if n == |es| {
      assert es[..n] == es;
    } else {
      var before := es[..|es| - 1];
      ClockOnlyRises(before, n);
      assert before[..n] == es[..n];
      StepRaisesClock(After(before), es[|es| - 1]);
    }
  }

  /** From its claim up to its post, nobody else changes what the forge shows. */
  lemma {:induction false} ForgeWaitsForHolder(es: seq<Event>, n: nat, t: nat, version: nat, token: Time)
    requires IsRun(es) && n <= |es| && After(es).now < token
    requires forall i :: n <= i <= |es| ==> IsRun(es[..i]) && IsPushing(After(es[..i]), t, version, token)
    ensures After(es).forgeVersion == After(es[..n]).forgeVersion
    decreases |es|
  {
    assert es[..|es|] == es;
    if n < |es| {
      var before := es[..|es| - 1];
      ClockOnlyRises(es, |es| - 1);
      forall i | n <= i <= |before| ensures IsRun(before[..i]) && IsPushing(After(before[..i]), t, version, token) {
        assert before[..i] == es[..i];
      }
      ForgeWaitsForHolder(before, n, t, version, token);
      assert before[..n] == es[..n] && before[..|before|] == before;
      RunKeepsInv(before);
      OthersDoNotPost(After(before), es[|es| - 1], t, version, token);
    }
  }

  /**
    Exactly when: a push that claimed at the n-th event lands over a newer one if
    and only if the forge already showed a newer version at that claim.
  */
  lemma OlderLandsExactlyWhen(es: seq<Event>, n: nat, t: nat, version: nat, token: Time, pushed: bool)
    requires IsRun(es) && n <= |es| && Enabled(After(es), Post(t, pushed, true))
    requires forall i :: n <= i <= |es| ==> IsRun(es[..i]) && IsPushing(After(es[..i]), t, version, token)
    ensures Apply(After(es), Post(t, pushed, true)).forgeVersion < After(es).forgeVersion <==>
            version < After(es[..n]).forgeVersion
  {
    RunKeepsInv(es);
    assert es[..|es|] == es;
    assert PhaseOk(After(es), After(es).tasks[t].phase);
    ForgeWaitsForHolder(es, n, t, version, token);
  }

  /** An upload that has arrived and recomputed. */
  ghost function Arrived(s: State, t: nat, u: Upload, r: CommitReport): State {
    var id := s.upSeq + 1;
    var rows := s.rows[id := u];
    s.(upSeq := id, newest := id, rows := rows, report := Some(rows), stored := Some(r), lock := None,
       tasks := s.tasks[t := Task(Request, Ready(id, rows))])
  }

  lemma ArrivesInThree(s: State, t: nat, u: Upload, r: CommitReport)
    requires t !in s.tasks && s.lock.None?
    ensures Enabled(s, Create(t, u))
    ensures Enabled(Apply(s, Create(t, u)), Lock(t))
    ensures Enabled(Apply(Apply(s, Create(t, u)), Lock(t)), Upsert(t, r))
    ensures Apply(Apply(Apply(s, Create(t, u)), Lock(t)), Upsert(t, r)) == Arrived(s, t, u, r)
  {
    var id, rows := s.upSeq + 1, s.rows[s.upSeq + 1 := u];
    Sorting.UpdatedTwice(s.tasks, t, Task(Request, Pending(id)), Task(Request, Merging(id, rows)));
    Sorting.UpdatedTwice(s.tasks, t, Task(Request, Merging(id, rows)), Task(Request, Ready(id, rows)));
  }

  /** An upload arrives and recomputes without a break. */
  lemma Arrive(es: seq<Event>, t: nat, u: Upload, r: CommitReport) returns (run: seq<Event>)
    requires IsRun(es) && t !in After(es).tasks && After(es).lock.None?
    ensures IsRun(run) && After(run) == Arrived(After(es), t, u, r)
  {
    ArrivesInThree(After(es), t, u, r);
    run := ThenRun(es, Create(t, u));
    run := ThenRun(run, Lock(t));
    run := ThenRun(run, Upsert(t, r));
  }

  /** A claim granted and answered at once. */
  ghost function Started(s: State, t: nat): State
    requires t in s.tasks && s.tasks[t].phase.Ready?
  {
    var p, token := s.tasks[t].phase, s.now + PUSH_LEASE;
    s.(lease := token, slipped := s.slipped || s.status < s.forgeVersion,
       tasks := s.tasks[t := s.tasks[t].(phase := Posting(p.version, p.content, token, s.now + STATUS_PUSH_TIMEOUT))])
  }

  lemma StartsInTwo(s: State, t: nat)
    requires t in s.tasks && s.tasks[t].phase.Ready? && s.report.Some? && s.lease <= s.now
             && s.status <= s.tasks[t].phase.version
    ensures Enabled(s, Claim(t)) && Enabled(Apply(s, Claim(t)), Return(t))
    ensures Apply(Apply(s, Claim(t)), Return(t)) == Started(s, t)
  {
    var task, token := s.tasks[t], s.now + PUSH_LEASE;
    var p := task.phase;
    Sorting.UpdatedTwice(s.tasks, t, task.(phase := Claimed(p.version, p.content, token)),
                         task.(phase := Posting(p.version, p.content, token, s.now + STATUS_PUSH_TIMEOUT)));
  }

  /** A ready task claims a free or lapsed lease and starts its post at once. */
  lemma StartPost(es: seq<Event>, t: nat) returns (run: seq<Event>)
    requires IsRun(es)
    requires var s := After(es); t in s.tasks && s.tasks[t].phase.Ready? && s.report.Some?
                                 && s.lease <= s.now && s.status <= s.tasks[t].phase.version
    ensures IsRun(run) && After(run) == Started(After(es), t)
  {
    StartsInTwo(After(es), t);
    run := ThenRun(es, Claim(t));
    run := ThenRun(run, Return(t));
  }

  /**
    The promise is false once a lease lapses between a post and its release:
    version 2 lands, its lease lapses, and version 1 claims and lands over it.
  */
  lemma OlderCanLandLast(u: Upload, r: CommitReport) returns (es: seq<Event>)
    ensures IsRun(es) && Enabled(After(es), Post(1, true, true)) && After(es).slipped
    ensures Apply(After(es), Post(1, true, true)).forgeVersion < After(es).forgeVersion
  {
    es := Arrive([], 1, u, r);
    es := Arrive(es, 2, u, r);
    es := StartPost(es, 2);
    es := ThenRun(es, Post(2, true, true));
    es := ThenRun(es, Tick(PUSH_LEASE));
    es := StartPost(es, 1);
  }

  // ----- leases

  /** A lease never runs longer than from now: what a dead holder leaves behind is gone in that time. */
  lemma LeaseIsShort(es: seq<Event>)
    requires IsRun(es)
    ensures After(es).lease <= After(es).now + PUSH_LEASE
  {
    RunKeepsInv(es);
  }

  ghost predicate IsGrant(s: State, e: Event)
    requires Enabled(s, e)
  {
    e.Claim? && ClaimRow(PushRowOf(s), s.tasks[e.task].phase.version, s.now, PUSH_LEASE).1.Granted?
  }

  lemma OnlyGrantsExtendTheLease(s: State, e: Event)
    requires Enabled(s, e) && !IsGrant(s, e)
    ensures Apply(s, e).lease == s.lease || Apply(s, e).lease == 0
  {
    match e
    case Claim(t) =>
    case Finish(t) => ReleaseOnlyFrees(s, t);
    case _ =>
  }

  lemma ReleaseOnlyFrees(s: State, t: nat)
    requires t in s.tasks && s.tasks[t].phase.Posted?
    ensures Released(s, t).lease == s.lease || Released(s, t).lease == 0
  {
  }

  /** No claim was granted after the first `n` events. */
  ghost predicate NoGrantSince(es: seq<Event>, n: nat)
    requires IsRun(es)
    decreases |es|
  {
    |es| <= n || (NoGrantSince(es[..|es| - 1], n) && !IsGrant(After(es[..|es| - 1]), es[|es| - 1]))
  }

  lemma {:induction false} LeaseRunsOut(es: seq<Event>, n: nat)
    requires IsRun(es) && n <= |es| && NoGrantSince(es, n)
    ensures IsRun(es[..n]) && (After(es).lease == After(es[..n]).lease || After(es).lease == 0)
    decreases |es|
  {
    if n == |es| {
      assert es[..n] == es;
    } else {
      var before := es[..|es| - 1];
      LeaseRunsOut(before, n);
      assert before[..n] == es[..n];
      OnlyGrantsExtendTheLease(After(before), es[|es| - 1]);
    }
  }

  /** Whoever died holding the lease blocks the commit for its length at most: after that, no claim queues. */
  lemma BlockedForTheLeaseAtMost(es: seq<Event>, n: nat, t: nat)
    requires IsRun(es) && n <= |es| && NoGrantSince(es, n)
    requires IsRun(es[..n]) && After(es[..n]).now + PUSH_LEASE <= After(es).now
    requires var s := After(es); t in s.tasks && s.tasks[t].phase.Ready?
    ensures var s := After(es); !ClaimRow(PushRowOf(s), s.tasks[t].phase.version, s.now, PUSH_LEASE).1.Queued?
  {
    LeaseIsShort(es[..n]);
    LeaseRunsOut(es, n);
  }

  // ----- runs without a fault

  /** A fault cuts a task off, fails a post, or stops a follow-up that has more to push at the round cap. */
  ghost predicate IsFault(s: State, e: Event)
    requires Enabled(s, e)
  {
    || e.Abandon?
    || (e.Post? && !e.pushed)
    || (e.Finish? && s.tasks[e.task].job == FollowUp(MAX_FOLLOW_UP_ROUNDS - 1) && GoesAgain(s, e.task))
  }

  ghost predicate GoesAgain(s: State, t: nat)
    requires t in s.tasks && s.tasks[t].phase.Posted?
  {
    var p := s.tasks[t].phase;
    FinishRow(PushRowOf(s), p.version, p.token, p.pushed).1
  }

  /** None of the events after the first `n` is a fault. */
  ghost predicate FaultlessSince(es: seq<Event>, n: nat)
    requires IsRun(es)
    decreases |es|
  {
    |es| <= n || (FaultlessSince(es[..|es| - 1], n) && !IsFault(After(es[..|es| - 1]), es[|es| - 1]))
  }

  ghost predicate Faultless(es: seq<Event>)
    requires IsRun(es)
  {
    FaultlessSince(es, 0)
  }

  ghost predicate RoundsOk(s: State) {
    forall t :: t in s.tasks && s.tasks[t].job.FollowUp? ==> s.tasks[t].job.rounds < MAX_FOLLOW_UP_ROUNDS
  }

  lemma StepKeepsRounds(s: State, e: Event)
    requires RoundsOk(s) && Enabled(s, e)
    ensures RoundsOk(Apply(s, e))
  {
  }

  lemma {:induction false} RunKeepsRounds(es: seq<Event>)
    requires IsRun(es)
    ensures RoundsOk(After(es))
    decreases |es|
  {
    if es != [] {
      RunKeepsRounds(es[..|es| - 1]);
      StepKeepsRounds(After(es[..|es| - 1]), es[|es| - 1]);
    }
  }

  /** A lease that still runs has its holder alive. */
  ghost predicate NoDeadLease(s: State) {
    s.now < s.lease ==> LeaseIsHeld(s)
  }

  lemma StaysHeld(s: State, e: Event, h: nat)
    requires Enabled(s, e) && h in s.tasks && Holds(s, s.tasks[h].phase) && s.lease != 0 && !e.Abandon?
             && !IsGrant(s, e)
    requires e.Finish? ==> s.report.Some?
    ensures Apply(s, e).lease == 0 || (h in Apply(s, e).tasks && Holds(Apply(s, e), Apply(s, e).tasks[h].phase))
  {
    match e
    case Claim(t) =>
    case Finish(t) => ReleaseOnlyFrees(s, t);
    case _ =>
  }

  lemma GrantIsHeld(s: State, t: nat)
    requires Enabled(s, Claim(t)) && IsGrant(s, Claim(t))
    ensures NoDeadLease(Apply(s, Claim(t))) && Apply(s, Claim(t)).lost == s.lost
            && Apply(s, Claim(t)).unmerged == s.unmerged
  {
    var s' := Apply(s, Claim(t));
    assert Holds(s', s'.tasks[t].phase);
  }

  /** Without a fault nothing more is lost, and no lease is left by a dead holder. */
  lemma FaultlessStep(s: State, e: Event)
    requires Safe(s) && NoDeadLease(s) && RoundsOk(s) && Enabled(s, e) && !IsFault(s, e)
    ensures NoDeadLease(Apply(s, e)) && Apply(s, e).lost == s.lost && Apply(s, e).unmerged == s.unmerged
  {
    if IsGrant(s, e) {
      GrantIsHeld(s, e.task);
    } else {
      OnlyGrantsExtendTheLease(s, e);
      if s.now < s.lease {
        var h :| h in s.tasks && Holds(s, s.tasks[h].phase);
        assert PhaseOk(s, s.tasks[h].phase);
        StaysHeld(s, e, h);
      }
      FaultlessStepLosesNothing(s, e);
      StepRaisesClock(s, e);
    }
  }

  lemma FaultlessStepLosesNothing(s: State, e: Event)
    requires NoDeadLease(s) && RoundsOk(s) && Enabled(s, e) && !IsFault(s, e)
    ensures Apply(s, e).lost == s.lost && Apply(s, e).unmerged == s.unmerged
  {
  }

  lemma {:induction false} FaultlessLosesNothing(es: seq<Event>, n: nat)
    requires IsRun(es) && n <= |es| && FaultlessSince(es, n) && IsRun(es[..n]) && NoDeadLease(After(es[..n]))
    ensures NoDeadLease(After(es)) && After(es).lost == After(es[..n]).lost
            && After(es).unmerged == After(es[..n]).unmerged
    decreases |es|
  {
    if n == |es| {
      assert es[..n] == es;
    } else {
      var before := es[..|es| - 1];
      assert before[..n] == es[..n];
      FaultlessLosesNothing(before, n);
      RunKeepsRounds(before);
      RunKeepsInv(before);
      FaultlessStep(After(before), es[|es| - 1]);
    }
  }

  lemma StepRaisesNewest(s: State, e: Event)
    requires Safe(s) && Enabled(s, e)
    ensures s.newest <= Apply(s, e).newest && (e.Create? ==> s.newest < Apply(s, e).newest)
  {
    match e
    case Create(_, _) =>
    case _ =>
  }

  /** An upload among the later events makes the newest upload newer. */
  lemma {:induction false} UploadsRaiseNewest(es: seq<Event>, n: nat)
    requires IsRun(es) && n <= |es|
    ensures IsRun(es[..n]) && After(es[..n]).newest <= After(es).newest
    ensures (exists i :: n <= i < |es| && es[i].Create?) ==> After(es[..n]).newest < After(es).newest
    decreases |es|
  {
    if n == |es| {
      assert es[..n] == es;
    } else {
      var before := es[..|es| - 1];
      assert before[..n] == es[..n];
      UploadsRaiseNewest(before, n);
      RunKeepsInv(before);
      StepRaisesNewest(After(before), es[|es| - 1]);
      assert forall i :: n <= i < |before| ==> before[i] == es[i];
    }
  }

  /**
    Whatever was lost before, the commit's next upload brings it up to date: from
    any point of a run at which no dead task's lease still runs, events without a
    fault that include an upload and leave no task end with every upload on the
    forge and in the report.
  */
  lemma NextUploadFindsTheRest(es: seq<Event>, n: nat)
    requires IsRun(es) && n <= |es| && FaultlessSince(es, n) && IsRun(es[..n]) && NoDeadLease(After(es[..n]))
    requires exists i :: n <= i < |es| && es[i].Create?
    requires After(es).tasks == map[]
    ensures After(es).forge == After(es).rows && After(es).report == Some(After(es).rows)
  {
    FaultlessLosesNothing(es, n);
    UploadsRaiseNewest(es, n);
    RunKeepsInv(es[..n]);
    LastWordIsNewest(es);
    NoPartIsLost(es);
  }

  /** Without faults, a commit that has gone quiet shows every upload on the forge and in its report. */
  lemma FaultlessRunsConverge(es: seq<Event>)
    requires IsRun(es) && Faultless(es) && After(es).tasks == map[] && After(es).rows != map[]
    ensures After(es).forge == After(es).rows
    ensures After(es).report == Some(After(es).rows)
  {
    assert es[..0] == [];
    FaultlessLosesNothing(es, 0);
    RunKeepsInv(es);
    var s := After(es);
    var i :| i in s.rows;
    LastWordIsNewest(es);
    NoPartIsLost(es);
  }
}
