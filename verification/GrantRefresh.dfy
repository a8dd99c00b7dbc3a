/**
  Refreshing a workspace's forge grant: every use of the refresh token may
  rotate it, and any number of server instances share the stored one. Calls for
  an access token run step by step, interleaved in any order, over the store,
  the forge, and a token cache in every instance.
*/
module GrantRefresh {
  import opened CommitStore
  import opened Options
  import Sorting

  const LEEWAY: nat := 300 * SECOND

  type Workspace = int
  type RefreshToken = nat
  type AccessToken = nat

  datatype Cached = Cached(value: AccessToken, expiresAt: Time)

  /** A cached token is used only while it has the leeway left to live. */
  function CacheGet(tokens: map<Workspace, Cached>, ws: Workspace, now: Time): Option<AccessToken> {
    if ws !in tokens || tokens[ws].expiresAt - now < LEEWAY then None else Some(tokens[ws].value)
  }

  /** Access tokens of one instance, in memory only. */
  class TokenCache {
    var tokens: map<Workspace, Cached>

    constructor ()
      ensures tokens == map[]
    {
      tokens := map[];
    }

    method Get(ws: Workspace, now: Time) returns (value: AccessToken, ok: bool)
      ensures CacheGet(tokens, ws, now) == if ok then Some(value) else None
    {
      if ws !in tokens || tokens[ws].expiresAt - now < LEEWAY {
        return 0, false;
      }
      return tokens[ws].value, true;
    }

    method Put(ws: Workspace, token: AccessToken, ttl: nat, now: Time)
      modifies this
      ensures tokens == old(tokens)[ws := Cached(token, now + ttl)]
      ensures LEEWAY <= ttl ==> CacheGet(tokens, ws, now) == Some(token)
    {
      tokens := tokens[ws := Cached(token, now + ttl)];
    }

    method Drop(ws: Workspace)
      modifies this
      ensures tokens == old(tokens) - {ws}
      ensures forall now :: CacheGet(tokens, ws, now) == None
    {
      tokens := tokens - {ws};
    }
  }

  // ----- the protocol

  /** A stored grant; an empty account is a disconnected one, no token one that cannot be used. */
  datatype Grant = Grant(account: string, refresh: Option<RefreshToken>, broken: bool)

  datatype Phase =
    | Started                                                        // about to look in the cache
    | Waiting                                                        // found nothing there; wants the workspace's lock
    | Locked                                                         // about to look again, under the lock
    | Missed                                                         // about to read the stored grant
    | Read(account: string, presented: RefreshToken)                 // about to refresh
    // about to persist
    | Refreshed(account: string, presented: RefreshToken, rotated: Option<RefreshToken>, access: AccessToken, ttl: nat)
    | Persisted(access: AccessToken, ttl: nat)                       // about to fill the cache
    | Returned(access: AccessToken)

  datatype Call = Call(instance: nat, ws: Workspace, phase: Phase)

  /** An access token as the forge issued it, and how long after that it was cached at most. */
  datatype Issue = Issue(ws: Workspace, at: Time, ttl: nat, late: nat)

  datatype State = State(
    now: Time,
    grants: map<Workspace, Grant>,
    locks: map<Workspace, nat>,                    // the call holding a workspace's lock
    calls: map<nat, Call>,
    caches: map<nat, map<Workspace, Cached>>,      // by instance
    live: map<Workspace, RefreshToken>,            // what the forge accepts
    spent: set<RefreshToken>,                      // rotated away
    next: nat,                                     // above every token issued
    issues: map<AccessToken, Issue>,
    hurt: set<Workspace>                           // a rotation was not stored
  )

  datatype Event =
    | Tick(delay: nat)
    | Start(call: nat, instance: nat, ws: Workspace)
    | Look(call: nat)
    | Lock(call: nat)
    | LookAgain(call: nat)
    | Reread(call: nat)
    | Refresh(call: nat, rotates: bool, ttl: nat)
    | Persist(call: nat, saved: bool)
    | Put(call: nat)
    | Abandon(call: nat)
    | Forget(instance: nat)
    | MarkBroken(ws: Workspace)

  function CacheOf(s: State, instance: nat): map<Workspace, Cached> {
    if instance in s.caches then s.caches[instance] else map[]
  }

  predicate UnderLock(p: Phase) {
    p.Locked? || p.Missed? || p.Read? || p.Refreshed? || p.Persisted?
  }

  predicate Enabled(s: State, e: Event) {
    match e
    case Tick(_) => true
    case Start(c, _, _) => c !in s.calls
    case Look(c) => c in s.calls && s.calls[c].phase.Started?
    case Lock(c) => c in s.calls && s.calls[c].phase.Waiting? && s.calls[c].ws !in s.locks
    case LookAgain(c) => c in s.calls && s.calls[c].phase.Locked?
    case Reread(c) => c in s.calls && s.calls[c].phase.Missed?
    case Refresh(c, _, _) => c in s.calls && s.calls[c].phase.Read?
    case Persist(c, _) => c in s.calls && s.calls[c].phase.Refreshed?
    case Put(c) => c in s.calls && s.calls[c].phase.Persisted?
    case Abandon(c) => c in s.calls && !s.calls[c].phase.Returned?
    case Forget(_) => true
    case MarkBroken(ws) => ws in s.grants
  }

  function Move(s: State, c: nat, p: Phase): State
    requires c in s.calls
  {
    s.(calls := s.calls[c := s.calls[c].(phase := p)])
  }

  function Unlock(s: State, c: nat): State
    requires c in s.calls
  {
    if UnderLock(s.calls[c].phase) then s.(locks := s.locks - {s.calls[c].ws}) else s
  }

  /** The call is over, with an error or because its instance died; its lock goes with it. */
  function Leave(s: State, c: nat): State
    requires c in s.calls
  {
    Unlock(s, c).(calls := s.calls - {c})
  }

  function Return(s: State, c: nat, access: AccessToken): State
    requires c in s.calls
  {
    Move(Unlock(s, c), c, Returned(access))
  }

  function Apply(s: State, e: Event): State
    requires Enabled(s, e)
  {
    match e
    case Tick(delay) => s.(now := s.now + delay)
    case Start(c, i, ws) => s.(calls := s.calls[c := Call(i, ws, Started)])
    case Look(c) =>
      var hit := CacheGet(CacheOf(s, s.calls[c].instance), s.calls[c].ws, s.now);
      if hit.Some? then Return(s, c, hit.value) else Move(s, c, Waiting)
    case Lock(c) => Move(s, c, Locked).(locks := s.locks[s.calls[c].ws := c])
    case LookAgain(c) =>
      var hit := CacheGet(CacheOf(s, s.calls[c].instance), s.calls[c].ws, s.now);
      if hit.Some? then Return(s, c, hit.value) else Move(s, c, Missed)
    case Reread(c) => ApplyReread(s, c)
    case Refresh(c, rotates, ttl) => ApplyRefresh(s, c, rotates, ttl)
    case Persist(c, saved) => ApplyPersist(s, c, saved)
    case Put(c) => ApplyPut(s, c)
    case Abandon(c) =>
      var p := s.calls[c].phase;
      Leave(s, c).(hurt := if p.Refreshed? && p.rotated.Some? then s.hurt + {s.calls[c].ws} else s.hurt)
    case Forget(i) => s.(caches := s.caches - {i})
    case MarkBroken(ws) =>
      var g := s.grants[ws];
      s.(grants := s.grants[ws := g.(broken := g.broken || (g.account != "" && g.refresh.Some?))])
  }

  predicate Usable(s: State, ws: Workspace) {
    ws in s.grants && s.grants[ws].account != "" && s.grants[ws].refresh.Some?
  }

  /** A disconnected grant, or one without a usable token, ends the call. */
  function ApplyReread(s: State, c: nat): State
    requires c in s.calls
  {
    var ws := s.calls[c].ws;
    if Usable(s, ws) then Move(s, c, Read(s.grants[ws].account, s.grants[ws].refresh.value)) else Leave(s, c)
  }

  /**
    The forge takes only the live token; it answers with an access token and, when it rotates, with the next refresh
    token.
  */
  function ApplyRefresh(s: State, c: nat, rotates: bool, ttl: nat): State
    requires c in s.calls && s.calls[c].phase.Read?
  {
    var ws, p := s.calls[c].ws, s.calls[c].phase;
    if ws !in s.live || s.live[ws] != p.presented then Leave(s, c)
    else if rotates then
      Move(s, c, Refreshed(p.account, p.presented, Some(s.next), s.next, ttl)).(
        live := s.live[ws := s.next], spent := s.spent + {p.presented},
        issues := s.issues[s.next := Issue(ws, s.now, ttl, 0)], next := s.next + 1)
    else
      Move(s, c, Refreshed(p.account, p.presented, None, s.next, ttl)).(
        issues := s.issues[s.next := Issue(ws, s.now, ttl, 0)], next := s.next + 1)
  }

  /** What was rotated is stored, or the token presented when nothing was; a failed store is only logged. */
  function ApplyPersist(s: State, c: nat, saved: bool): State
    requires c in s.calls && s.calls[c].phase.Refreshed?
  {
    var ws, p := s.calls[c].ws, s.calls[c].phase;
    var s' := Move(s, c, Persisted(p.access, p.ttl));
    if saved then
      s'.(grants := s.grants[ws := Grant(p.account, if p.rotated.Some? then p.rotated else Some(p.presented), false)])
    else s'.(hurt := if p.rotated.Some? then s.hurt + {ws} else s.hurt)
  }

  /** Cached at `now`: at least that much later than issued. */
  function Delayed(i: Issue, now: Time): Issue {
    if i.at + i.late < now then i.(late := now - i.at) else i
  }

  function ApplyPut(s: State, c: nat): State
    requires c in s.calls && s.calls[c].phase.Persisted?
  {
    var call, p := s.calls[c], s.calls[c].phase;
    var cache := CacheOf(s, call.instance)[call.ws := Cached(p.access, s.now + p.ttl)];
    var issues := if p.access in s.issues then s.issues[p.access := Delayed(s.issues[p.access], s.now)] else s.issues;
    Return(s, c, p.access).(caches := s.caches[call.instance := cache], issues := issues)
  }

  /** Nobody has called yet, and every usable grant holds its workspace's own live token. */
  ghost predicate Initial(s: State) {
    && s.calls == map[] && s.locks == map[] && s.caches == map[] && s.spent == {} && s.issues == map[] && s.hurt == {}
    && (forall ws :: Usable(s, ws) ==> ws in s.live && s.grants[ws].refresh == Some(s.live[ws]))
    && (forall ws :: ws in s.live ==> s.live[ws] < s.next)
    && (forall v, w :: v in s.live && w in s.live && s.live[v] == s.live[w] ==> v == w)
  }

  /** A run is its start and its events. */
  ghost predicate IsRun(start: State, es: seq<Event>)
    decreases |es|, 0
  {
    if es == [] then Initial(start)
    else IsRun(start, es[..|es| - 1]) && Enabled(After(start, es[..|es| - 1]), es[|es| - 1])
  }

  ghost function After(start: State, es: seq<Event>): State
    requires IsRun(start, es)
    decreases |es|, 1
  {
    if es == [] then start else Apply(After(start, es[..|es| - 1]), es[|es| - 1])
  }

  // ----- the invariant

  ghost predicate LocksOk(s: State) {
    && (forall ws :: ws in s.locks ==>
          s.locks[ws] in s.calls && s.calls[s.locks[ws]].ws == ws && UnderLock(s.calls[s.locks[ws]].phase))
    && (forall c :: c in s.calls && UnderLock(s.calls[c].phase) ==>
          s.calls[c].ws in s.locks && s.locks[s.calls[c].ws] == c)
  }

  /** A rotated token that its call has yet to store. */
  predicate InFlight(s: State, c: nat) {
    c in s.calls && s.calls[c].phase.Refreshed? && s.calls[c].phase.rotated.Some?
  }

  predicate RotationInFlight(s: State, ws: Workspace) {
    ws in s.locks && InFlight(s, s.locks[ws])
  }

  ghost predicate TokensOk(s: State) {
    && (forall ws :: ws in s.live ==> s.live[ws] < s.next && s.live[ws] !in s.spent)
    && (forall v, w :: v in s.live && w in s.live && s.live[v] == s.live[w] ==> v == w)
    && (forall t :: t in s.spent ==> t < s.next)
    && (forall t :: t in s.issues ==> t < s.next && s.issues[t].at <= s.now)
  }

  ghost predicate StoresLive(s: State, ws: Workspace)
    requires Usable(s, ws)
  {
    ws in s.live && s.grants[ws].refresh == Some(s.live[ws])
  }

  /**
    Stored and live agree, except while a rotation is on its way to the store, and for good once one did not get there.
  */
  ghost predicate StoredOk(s: State) {
    && (forall ws :: ws !in s.hurt && Usable(s, ws) && !RotationInFlight(s, ws) ==> StoresLive(s, ws))
    && (forall ws :: ws in s.hurt && Usable(s, ws) ==> s.grants[ws].refresh.value in s.spent)
  }

  ghost predicate PhaseOk(s: State, c: nat)
    requires c in s.calls
  {
    var ws, p := s.calls[c].ws, s.calls[c].phase;
    && (p.Read? || p.Refreshed? ==>
          Usable(s, ws) && s.grants[ws].account == p.account && s.grants[ws].refresh == Some(p.presented))
    && (p.Read? && ws !in s.hurt ==> ws in s.live && p.presented == s.live[ws])
    && (p.Refreshed? ==>
          ws !in s.hurt && ws in s.live && s.live[ws] == if p.rotated.Some? then p.rotated.value else p.presented)
    && (p.Refreshed? && p.rotated.Some? ==> p.presented in s.spent)
    && (p.Refreshed? || p.Persisted? ==>
          p.access in s.issues && s.issues[p.access].ws == ws && s.issues[p.access].ttl == p.ttl)
    && (p.Returned? ==> p.access in s.issues && s.issues[p.access].ws == ws)
  }

  /** Cached tokens are the workspace's own, and expire no later than issued plus the delay in caching them. */
  ghost predicate CachesOk(s: State) {
    forall i, ws :: i in s.caches && ws in s.caches[i] ==> CachedOk(s, ws, s.caches[i][ws])
  }

  ghost predicate CachedOk(s: State, ws: Workspace, t: Cached) {
    t.value in s.issues && s.issues[t.value].ws == ws
        && t.expiresAt <= s.issues[t.value].at + s.issues[t.value].ttl + s.issues[t.value].late
  }

  ghost predicate Inv(s: State) {
    LocksOk(s) && TokensOk(s) && StoredOk(s) && CachesOk(s) && forall c :: c in s.calls ==> PhaseOk(s, c)
  }

  // ----- every step keeps it

  lemma InitialIsOk(s: State)
    requires Initial(s)
    ensures Inv(s)
  {
  }

  /**
    A step of one call that touches no token: at most it takes or frees its lock, or ends with its rotation not stored.
  */
  ghost predicate StepsAlone(s: State, s': State, c: nat) {
    && s' == s.(calls := s'.calls, locks := s'.locks, hurt := s'.hurt)
    && (forall d :: d in s'.calls && d != c ==> d in s.calls && s'.calls[d] == s.calls[d])
    && (forall d :: d in s.calls && d != c ==> d in s'.calls)
    && (forall ws :: ws in s.locks && s.locks[ws] != c ==> ws in s'.locks && s'.locks[ws] == s.locks[ws])
    && s'.hurt == if InFlight(s, c) then s.hurt + {s.calls[c].ws} else s.hurt
  }

  lemma StepKeepsPhases(s: State, s': State, c: nat)
    requires LocksOk(s) && (forall d :: d in s.calls ==> PhaseOk(s, d))
    requires StepsAlone(s, s', c) && (c in s'.calls ==> PhaseOk(s', c))
    ensures forall d :: d in s'.calls ==> PhaseOk(s', d)
  {
    forall d | d in s'.calls ensures PhaseOk(s', d) {
      assert d != c ==> PhaseOk(s, d);
    }
  }

  lemma StepKeepsStored(s: State, s': State, c: nat)
    requires LocksOk(s) && StoredOk(s) && StepsAlone(s, s', c) && (c in s.calls ==> PhaseOk(s, c))
    ensures StoredOk(s')
  {
    forall ws | RotationInFlight(s, ws) && ws !in s'.hurt ensures RotationInFlight(s', ws) {
      assert s.locks[ws] != c;
    }
  }

  lemma StepAloneKeeps(s: State, s': State, c: nat)
    requires Inv(s) && StepsAlone(s, s', c) && LocksOk(s') && (c in s'.calls ==> PhaseOk(s', c))
    ensures Inv(s')
  {
    StepKeepsPhases(s, s', c);
    StepKeepsStored(s, s', c);
  }

  lemma LeaveKeepsLocks(s: State, c: nat)
    requires LocksOk(s) && c in s.calls
    ensures LocksOk(Leave(s, c))
  {
  }

  /** A call may leave from any point but a rotation on its way to the store. */
  lemma LeaveKeeps(s: State, c: nat)
    requires Inv(s) && c in s.calls && !InFlight(s, c)
    ensures Inv(Leave(s, c))
  {
    LeaveKeepsLocks(s, c);
    StepAloneKeeps(s, Leave(s, c), c);
  }

  lemma ReturnKeepsLocks(s: State, c: nat, access: AccessToken)
    requires LocksOk(s) && c in s.calls
    ensures LocksOk(Return(s, c, access))
  {
  }

  /** And from there it may return a token of its workspace. */
  lemma ReturnKeeps(s: State, c: nat, access: AccessToken)
    requires Inv(s) && c in s.calls && !InFlight(s, c)
    requires access in s.issues && s.issues[access].ws == s.calls[c].ws
    ensures Inv(Return(s, c, access))
  {
    ReturnKeepsLocks(s, c, access);
    StepAloneKeeps(s, Return(s, c, access), c);
  }

  lemma MoveKeepsLocks(s: State, c: nat, p: Phase)
    requires LocksOk(s) && c in s.calls && UnderLock(p) == UnderLock(s.calls[c].phase)
    ensures LocksOk(Move(s, c, p))
  {
  }

  lemma MissKeeps(s: State, c: nat)
    requires Inv(s) && c in s.calls && (s.calls[c].phase.Started? || s.calls[c].phase.Locked?)
    ensures Inv(Move(s, c, if s.calls[c].phase.Started? then Waiting else Missed))
  {
    var p := if s.calls[c].phase.Started? then Waiting else Missed;
    MoveKeepsLocks(s, c, p);
    StepAloneKeeps(s, Move(s, c, p), c);
  }

  lemma LookKeeps(s: State, c: nat)
    requires Inv(s) && c in s.calls && (s.calls[c].phase.Started? || s.calls[c].phase.Locked?)
    ensures s.calls[c].phase.Started? ==> Inv(Apply(s, Look(c)))
    ensures s.calls[c].phase.Locked? ==> Inv(Apply(s, LookAgain(c)))
  {
    var call := s.calls[c];
    var hit := CacheGet(CacheOf(s, call.instance), call.ws, s.now);
    if hit.Some? {
      assert CachedOk(s, call.ws, s.caches[call.instance][call.ws]);
      ReturnKeeps(s, c, hit.value);
    } else {
      MissKeeps(s, c);
    }
  }

  lemma LockKeepsLocks(s: State, c: nat)
    requires LocksOk(s) && Enabled(s, Lock(c))
    ensures LocksOk(Apply(s, Lock(c)))
  {
  }

  lemma LockKeeps(s: State, c: nat)
    requires Inv(s) && Enabled(s, Lock(c))
    ensures Inv(Apply(s, Lock(c)))
  {
    LockKeepsLocks(s, c);
    StepAloneKeeps(s, Apply(s, Lock(c)), c);
  }

  lemma RereadKeeps(s: State, c: nat)
    requires Inv(s) && Enabled(s, Reread(c))
    ensures Inv(Apply(s, Reread(c)))
  {
    var ws := s.calls[c].ws;
    if Usable(s, ws) {
      MoveKeepsLocks(s, c, Read(s.grants[ws].account, s.grants[ws].refresh.value));
      StepAloneKeeps(s, Apply(s, Reread(c)), c);
    } else {
      LeaveKeeps(s, c);
    }
  }

  /** The forge accepts what the call presents. */
  predicate Accepted(s: State, c: nat) {
    c in s.calls && s.calls[c].phase.Read? && s.calls[c].ws in s.live
        && s.live[s.calls[c].ws] == s.calls[c].phase.presented
  }

  /** What is presented and accepted is what was stored. */
  lemma AcceptedIsUnhurt(s: State, c: nat)
    requires Inv(s) && Accepted(s, c)
    ensures s.calls[c].ws !in s.hurt
  {
    assert PhaseOk(s, c);
  }

  lemma RefreshKeepsLocks(s: State, c: nat, rotates: bool, ttl: nat)
    requires LocksOk(s) && Accepted(s, c)
    ensures LocksOk(ApplyRefresh(s, c, rotates, ttl))
  {
    var call := s.calls[c];
    MoveKeepsLocks(s, c,
          Refreshed(call.phase.account, call.phase.presented, if rotates then Some(s.next) else None, s.next, ttl));
  }

  lemma RefreshKeepsPhases(s: State, c: nat, rotates: bool, ttl: nat)
    requires Inv(s) && Accepted(s, c)
    ensures var s' := ApplyRefresh(s, c, rotates, ttl); forall d :: d in s'.calls ==> PhaseOk(s', d)
  {
    AcceptedIsUnhurt(s, c);
    var s' := ApplyRefresh(s, c, rotates, ttl);
    forall d | d in s'.calls ensures PhaseOk(s', d) {
      assert PhaseOk(s, d);
    }
  }

  lemma RefreshKeepsStored(s: State, c: nat, rotates: bool, ttl: nat)
    requires Inv(s) && Accepted(s, c)
    ensures StoredOk(ApplyRefresh(s, c, rotates, ttl))
  {
    var s', ws := ApplyRefresh(s, c, rotates, ttl), s.calls[c].ws;
    forall w | RotationInFlight(s, w) && w != ws ensures RotationInFlight(s', w) {
    }
    assert rotates ==> RotationInFlight(s', ws);
  }

  lemma RefreshKeepsTokens(s: State, c: nat, rotates: bool, ttl: nat)
    requires TokensOk(s) && Accepted(s, c)
    ensures TokensOk(ApplyRefresh(s, c, rotates, ttl))
  {
  }

  lemma RefreshKeepsCaches(s: State, c: nat, rotates: bool, ttl: nat)
    requires TokensOk(s) && CachesOk(s) && Accepted(s, c)
    ensures CachesOk(ApplyRefresh(s, c, rotates, ttl))
  {
    var s' := ApplyRefresh(s, c, rotates, ttl);
    forall i, ws | i in s'.caches && ws in s'.caches[i] ensures CachedOk(s', ws, s'.caches[i][ws]) {
      assert CachedOk(s, ws, s.caches[i][ws]);
    }
  }

  lemma RefreshKeeps(s: State, c: nat, rotates: bool, ttl: nat)
    requires Inv(s) && Enabled(s, Refresh(c, rotates, ttl))
    ensures Inv(Apply(s, Refresh(c, rotates, ttl)))
  {
    if Accepted(s, c) {
      RefreshKeepsLocks(s, c, rotates, ttl);
      RefreshKeepsPhases(s, c, rotates, ttl);
      RefreshKeepsStored(s, c, rotates, ttl);
      RefreshKeepsTokens(s, c, rotates, ttl);
      RefreshKeepsCaches(s, c, rotates, ttl);
    } else {
      LeaveKeeps(s, c);
    }
  }

  lemma SaveKeepsPhases(s: State, c: nat)
    requires Inv(s) && Enabled(s, Persist(c, true))
    ensures var s' := Apply(s, Persist(c, true)); forall d :: d in s'.calls ==> PhaseOk(s', d)
  {
    var s' := Apply(s, Persist(c, true));
    forall d | d in s'.calls ensures PhaseOk(s', d) {
      assert PhaseOk(s, d);
    }
  }

  lemma SaveKeepsStored(s: State, c: nat)
    requires LocksOk(s) && StoredOk(s) && Enabled(s, Persist(c, true)) && PhaseOk(s, c)
    ensures StoredOk(Apply(s, Persist(c, true)))
  {
    var s', ws := Apply(s, Persist(c, true)), s.calls[c].ws;
    forall w | RotationInFlight(s, w) && w != ws ensures RotationInFlight(s', w) {
    }
  }

  lemma PersistKeeps(s: State, c: nat, saved: bool)
    requires Inv(s) && Enabled(s, Persist(c, saved))
    ensures Inv(Apply(s, Persist(c, saved)))
  {
    assert PhaseOk(s, c);
    var p := s.calls[c].phase;
    MoveKeepsLocks(s, c, Persisted(p.access, p.ttl));
    if saved {
      SaveKeepsPhases(s, c);
      SaveKeepsStored(s, c);
    } else {
      StepAloneKeeps(s, Apply(s, Persist(c, false)), c);
    }
  }

  /** What `Put` changes before the call returns. */
  function Filled(s: State, c: nat): State
    requires c in s.calls && s.calls[c].phase.Persisted?
  {
    var s' := ApplyPut(s, c);
    s.(caches := s'.caches, issues := s'.issues)
  }

  lemma FilledCaches(s: State, c: nat)
    requires CachesOk(s) && TokensOk(s) && Enabled(s, Put(c)) && PhaseOk(s, c)
    ensures CachesOk(Filled(s, c))
  {
    var s' := Filled(s, c);
    forall i, ws | i in s'.caches && ws in s'.caches[i] ensures CachedOk(s', ws, s'.caches[i][ws]) {
      if i in s.caches && ws in s.caches[i] {
        assert CachedOk(s, ws, s.caches[i][ws]);
      }
    }
  }

  lemma FilledPhases(s: State, c: nat)
    requires Enabled(s, Put(c)) && forall d :: d in s.calls ==> PhaseOk(s, d)
    ensures forall d :: d in s.calls ==> PhaseOk(Filled(s, c), d)
  {
    forall d | d in s.calls ensures PhaseOk(Filled(s, c), d) {
      assert PhaseOk(s, d);
    }
  }

  lemma FilledIsOk(s: State, c: nat)
    requires Inv(s) && Enabled(s, Put(c))
    ensures Inv(Filled(s, c))
  {
    FilledCaches(s, c);
    FilledPhases(s, c);
  }

  lemma PutKeeps(s: State, c: nat)
    requires Inv(s) && Enabled(s, Put(c))
    ensures Inv(Apply(s, Put(c)))
  {
    assert PhaseOk(s, c);
    FilledIsOk(s, c);
    ReturnKeeps(Filled(s, c), c, s.calls[c].phase.access);
  }

  lemma AbandonKeeps(s: State, c: nat)
    requires Inv(s) && Enabled(s, Abandon(c))
    ensures Inv(Apply(s, Abandon(c)))
  {
    LeaveKeepsLocks(s, c);
    StepAloneKeeps(s, Apply(s, Abandon(c)), c);
  }

  lemma TickKeeps(s: State, delay: nat)
    requires Inv(s)
    ensures Inv(Apply(s, Tick(delay)))
  {
  }

  lemma StartKeepsLocks(s: State, e: Event)
    requires LocksOk(s) && Enabled(s, e) && e.Start?
    ensures LocksOk(Apply(s, e))
  {
  }

  lemma StartKeeps(s: State, e: Event)
    requires Inv(s) && Enabled(s, e) && e.Start?
    ensures Inv(Apply(s, e))
  {
    StartKeepsLocks(s, e);
    StepAloneKeeps(s, Apply(s, e), e.call);
  }

  lemma ForgetKeeps(s: State, instance: nat)
    requires Inv(s)
    ensures Inv(Apply(s, Forget(instance)))
  {
  }

  lemma MarkKeeps(s: State, ws: Workspace)
    requires Inv(s) && Enabled(s, MarkBroken(ws))
    ensures Inv(Apply(s, MarkBroken(ws)))
  {
    var s' := Apply(s, MarkBroken(ws));
    forall d | d in s'.calls ensures PhaseOk(s', d) {
      assert d in s.calls ==> PhaseOk(s, d);
    }
  }

  lemma StepKeepsInv(s: State, e: Event)
    requires Inv(s) && Enabled(s, e)
    ensures Inv(Apply(s, e))
  {
    match e
    case Look(c) => LookKeeps(s, c);
    case LookAgain(c) => LookKeeps(s, c);
    case Lock(c) => LockKeeps(s, c);
    case Reread(c) => RereadKeeps(s, c);
    case Refresh(c, rotates, ttl) => RefreshKeeps(s, c, rotates, ttl);
    case Persist(c, saved) => PersistKeeps(s, c, saved);
    case Put(c) => PutKeeps(s, c);
    case Abandon(c) => AbandonKeeps(s, c);
    case Tick(delay) => TickKeeps(s, delay);
    case Start(_, _, _) => StartKeeps(s, e);
    case Forget(instance) => ForgetKeeps(s, instance);
    case MarkBroken(ws) => MarkKeeps(s, ws);
  }

  lemma {:induction false} RunKeepsInv(start: State, es: seq<Event>)
    requires IsRun(start, es)
    ensures Inv(After(start, es))
    decreases |es|
  {
    if es == [] {
      InitialIsOk(start);
    } else {
      var before := es[..|es| - 1];
      RunKeepsInv(start, before);
      StepKeepsInv(After(start, before), es[|es| - 1]);
    }
  }

  // ----- what it promises

  /**
    A refresh presents the live token exactly when no rotation of its workspace went unstored, and otherwise one rotated
    away.
  */
  lemma RefreshPresentsLive(start: State, es: seq<Event>, c: nat)
    requires IsRun(start, es)
    requires c in After(start, es).calls && After(start, es).calls[c].phase.Read?
    ensures var s := After(start, es);
            && (Accepted(s, c) <==> s.calls[c].ws !in s.hurt)
            && (s.calls[c].phase.presented in s.spent <==> s.calls[c].ws in s.hurt)
  {
    RunKeepsInv(start, es);
    assert PhaseOk(After(start, es), c);
  }

  /**
    While the lock is free, the stored token is the live one, exactly when no rotation of the workspace went unstored.
  */
  lemma FreeLockStoresLive(start: State, es: seq<Event>, ws: Workspace)
    requires IsRun(start, es)
    requires ws !in After(start, es).locks && Usable(After(start, es), ws)
    ensures StoresLive(After(start, es), ws) <==> ws !in After(start, es).hurt
  {
    RunKeepsInv(start, es);
  }

  /** Two calls never refresh one workspace at once. */
  lemma OneRefreshAtATime(start: State, es: seq<Event>, c: nat, d: nat)
    requires IsRun(start, es)
    requires var s := After(start, es);
             c in s.calls && d in s.calls && s.calls[c].ws == s.calls[d].ws && UnderLock(s.calls[c].phase)
                 && UnderLock(s.calls[d].phase)
    ensures c == d
  {
    RunKeepsInv(start, es);
  }

  /**
    A token found in a cache is the workspace's own, and alive as long as it was cached within the leeway of being
    issued.
  */
  lemma CachedIsAlive(start: State, es: seq<Event>, instance: nat, ws: Workspace)
    requires IsRun(start, es)
    requires var s := After(start, es); CacheGet(CacheOf(s, instance), ws, s.now).Some?
    ensures var s := After(start, es);
            var token := CacheGet(CacheOf(s, instance), ws, s.now).value;
            && token in s.issues && s.issues[token].ws == ws
            && (s.issues[token].late <= LEEWAY ==> s.now <= s.issues[token].at + s.issues[token].ttl)
  {
    RunKeepsInv(start, es);
    var s := After(start, es);
    assert CachedOk(s, ws, s.caches[instance][ws]);
  }

  /** A fault: a rotation that is not stored, or a call cut off. */
  predicate IsFault(e: Event) {
    e.Abandon? || (e.Persist? && !e.saved)
  }

  lemma StepHurtsNothing(s: State, e: Event)
    requires Enabled(s, e) && !IsFault(e)
    ensures Apply(s, e).hurt == s.hurt
  {
    match e
    case Persist(_, _) =>
    case Refresh(_, _, _) =>
    case Put(_) =>
    case _ =>
  }

  lemma {:induction false} FaultlessHurtsNothing(start: State, es: seq<Event>)
    requires IsRun(start, es) && forall e :: e in es ==> !IsFault(e)
    ensures After(start, es).hurt == {}
    decreases |es|
  {
    if es != [] {
      var before := es[..|es| - 1];
      FaultlessHurtsNothing(start, before);
      assert es[|es| - 1] in es;
      StepHurtsNothing(After(start, before), es[|es| - 1]);
    }
  }

  /** Without faults no rotation is lost, whatever the instances and the order of their steps. */
  lemma RotationIsNeverLost(start: State, es: seq<Event>)
    requires IsRun(start, es) && forall e :: e in es ==> !IsFault(e)
    ensures var s := After(start, es);
            && (forall c :: c in s.calls && s.calls[c].phase.Read? ==> Accepted(s, c))
            && (forall ws :: ws !in s.locks && Usable(s, ws) ==> StoresLive(s, ws))
  {
    FaultlessHurtsNothing(start, es);
    RunKeepsInv(start, es);
    var s := After(start, es);
    forall c | c in s.calls && s.calls[c].phase.Read? ensures Accepted(s, c) {
      assert PhaseOk(s, c);
    }
  }

  lemma Then(start: State, es: seq<Event>, e: Event) returns (run: seq<Event>)
    requires IsRun(start, es) && Enabled(After(start, es), e)
    ensures run == es + [e] && IsRun(start, run) && After(start, run) == Apply(After(start, es), e)
  {
    run := es + [e];
    assert run[..|run| - 1] == es;
  }

  /** The call holds the workspace's lock, having found nothing cached. */
  function Locking(s: State, c: nat, ws: Workspace): State {
    s.(locks := s.locks[ws := c], calls := s.calls[c := Call(0, ws, Locked)])
  }

  lemma LocksInThree(s: State, c: nat, ws: Workspace)
    requires c !in s.calls && 0 !in s.caches && ws !in s.locks
    ensures Enabled(s, Start(c, 0, ws)) && Enabled(Apply(s, Start(c, 0, ws)), Look(c))
    ensures var s2 := Apply(Apply(s, Start(c, 0, ws)), Look(c));
            Enabled(s2, Lock(c)) && Apply(s2, Lock(c)) == Locking(s, c, ws)
  {
    Sorting.UpdatedTwice(s.calls, c, Call(0, ws, Started), Call(0, ws, Waiting));
    Sorting.UpdatedTwice(s.calls, c, Call(0, ws, Waiting), Call(0, ws, Locked));
  }

  /** And has read the stored token. */
  function Reading(s: State, c: nat, ws: Workspace): State
    requires Usable(s, ws)
  {
    s.(locks := s.locks[ws := c],
          calls := s.calls[c := Call(0, ws, Read(s.grants[ws].account, s.grants[ws].refresh.value))])
  }

  lemma ReadsInTwo(s: State, c: nat, ws: Workspace)
    requires 0 !in s.caches && Usable(s, ws)
    ensures var s1 := Locking(s, c, ws); Enabled(s1, LookAgain(c)) && Enabled(Apply(s1, LookAgain(c)), Reread(c))
    ensures Apply(Apply(Locking(s, c, ws), LookAgain(c)), Reread(c)) == Reading(s, c, ws)
  {
    Sorting.UpdatedTwice(s.calls, c, Call(0, ws, Locked), Call(0, ws, Missed));
    Sorting.UpdatedTwice(s.calls, c, Call(0, ws, Missed),
          Call(0, ws, Read(s.grants[ws].account, s.grants[ws].refresh.value)));
  }

  /** A call on an instance that has nothing cached gets as far as reading the stored token. */
  lemma UpToRead(start: State, es: seq<Event>, c: nat, ws: Workspace) returns (run: seq<Event>)
    requires IsRun(start, es)
    requires var s := After(start, es); c !in s.calls && 0 !in s.caches && ws !in s.locks && Usable(s, ws)
    ensures IsRun(start, run) && After(start, run) == Reading(After(start, es), c, ws)
  {
    LocksInThree(After(start, es), c, ws);
    ReadsInTwo(After(start, es), c, ws);
    run := Then(start, es, Start(c, 0, ws));
    run := Then(start, run, Look(c));
    run := Then(start, run, Lock(c));
    run := Then(start, run, LookAgain(c));
    run := Then(start, run, Reread(c));
  }

  lemma RotateFirst(start: State, ws: Workspace) returns (es: seq<Event>)
    requires Initial(start) && Usable(start, ws)
    ensures IsRun(start, es)
    ensures var s := After(start, es);
            && s.grants == start.grants && s.locks == map[ws := 1] && s.caches == map[]
                && start.grants[ws].refresh.value in s.spent
            && s.calls.Keys == {1} && s.calls[1].ws == ws && s.calls[1].instance == 0 && s.calls[1].phase.Persisted?
  {
    es := UpToRead(start, [], 1, ws);
    es := Then(start, es, Refresh(1, true, 0));
    es := Then(start, es, Persist(1, false));
  }

  lemma RotateUnstored(start: State, ws: Workspace) returns (es: seq<Event>)
    requires Initial(start) && Usable(start, ws)
    ensures IsRun(start, es)
    ensures var s := After(start, es);
            s.grants == start.grants && s.locks == map[] && s.caches == map[] && 2 !in s.calls
                && start.grants[ws].refresh.value in s.spent
  {
    es := RotateFirst(start, ws);
    es := Then(start, es, Put(1));
    es := Then(start, es, Forget(0));
  }

  /** With the rotated token not stored, the next refresh presents the spent one. */
  lemma UnstoredRotationIsLost(start: State, ws: Workspace) returns (es: seq<Event>)
    requires Initial(start) && Usable(start, ws)
    ensures IsRun(start, es)
    ensures var s := After(start, es);
            2 in s.calls && s.calls[2].ws == ws && s.calls[2].phase.Read? && s.calls[2].phase.presented in s.spent
  {
    es := RotateUnstored(start, ws);
    es := UpToRead(start, es, 2, ws);
  }
}
