/** The cache of the injector's own Vault token (pkg/vault/bookkeeping_cache.go): a real-time
    bound on logins, for any pattern of concurrent calls. Time is in minutes. */
module BookkeepingCache {
  import opened Strings

  type Token = string
  type Role = string
  type Caller = nat

  const LIFETIME: real := 30.0
  const MARGIN: real := 5.0

  datatype Entry = Entry(token: Token, expiresAt: real)

  type Entries = map<Role, Entry>

  predicate IsValid(entries: Entries, role: Role, now: real) {
    role in entries && entries[role].expiresAt - now > MARGIN
  }

  class BookkeepingTokenCache {
    var entries: Entries

    constructor ()
      ensures entries == map[]
    {
      entries := map[];
    }

    /** The lock-protected check, made on the fast path and again in the slot. */
    method Check(role: Role, now: real) returns (tok: Option<Token>)
      ensures tok == if IsValid(entries, role, now) then Some(entries[role].token) else None
    {
      tok := None;
      if role in entries {
        var e := entries[role];
        if e.expiresAt - now > MARGIN {
          tok := Some(e.token);
        }
      }
    }

    method Put(role: Role, tok: Token, now: real)
      modifies this
      ensures entries == old(entries)[role := Entry(tok, now + LIFETIME)]
    {
      entries := entries[role := Entry(tok, now + LIFETIME)];
    }

    /** Get with no other caller at work. The clock reads `t0` on the fast path, `t1` in the
        slot and `t2` after the login, which answers `login`. */
    method Get(kubeRole: Role, defaultRole: Role, t0: real, t1: real, t2: real,
               login: Option<Token>) returns (tok: Option<Token>)
      requires t0 <= t1 <= t2
      modifies this
      ensures var role := if kubeRole == "" then defaultRole else kubeRole;
        if role in old(entries) && old(entries)[role].expiresAt - t0 > 5.0
        then tok == Some(old(entries)[role].token) && entries == old(entries)
        else tok == login
             && entries == if login.Some? then old(entries)[role := Entry(login.value, t2 + 30.0)] else old(entries)
    {
      var role := if kubeRole == "" then defaultRole else kubeRole;
      tok := Check(role, t0);
      if tok.None? {
        tok := Check(role, t1);
      }
      if tok.Some? {
        return;
      }
      if login.Some? {
        Put(role, login.value, t2);
      }
      tok := login;
    }
  }

  // ---- The step machine ----

  /** A token with the minutes its entry had left when it was picked. */
  datatype Outcome = Picked(token: Token, left: real) | Failed

  datatype CallerState =
    | Idle
    | Missed(role: Role)
    | Waiting(role: Role)
    | Returned(role: Role, outcome: Outcome)

  datatype Phase = Recheck | LoggingIn | Storing(token: Token) | Finishing(outcome: Outcome)

  datatype Login = Login(role: Role, token: Token, at: real)

  datatype State = State(
    now: real,
    entries: Entries,
    flights: map<Role, Phase>,
    callers: map<Caller, CallerState>,
    logins: seq<Login>)          // the successful ones

  datatype Step =
    | Pass(minutes: real)
    | Call(c: Caller, role: Role)
    | Join(c: Caller)
    | CheckAgain(role: Role)
    | LoginOk(role: Role, token: Token)
    | LoginFail(role: Role)
    | Store(role: Role)
    | Finish(role: Role)
    | Leave(c: Caller)

  function Start(now: real): State {
    State(now, map[], map[], map[], [])
  }

  function At(s: State, c: Caller): CallerState {
    if c in s.callers then s.callers[c] else Idle
  }

  predicate Enabled(s: State, step: Step) {
    match step
    case Pass(minutes) => minutes >= 0.0
    case Call(c, _) => At(s, c) == Idle
    case Join(c) => At(s, c).Missed?
    case CheckAgain(role) => role in s.flights && s.flights[role].Recheck?
    case LoginOk(role, _) => role in s.flights && s.flights[role].LoggingIn?
    case LoginFail(role) => role in s.flights && s.flights[role].LoggingIn?
    case Store(role) => role in s.flights && s.flights[role].Storing?
    case Finish(role) => role in s.flights && s.flights[role].Finishing?
    case Leave(c) => At(s, c).Returned?
  }

  function Pick(s: State, role: Role): Outcome
    requires role in s.entries
  {
    Picked(s.entries[role].token, s.entries[role].expiresAt - s.now)
  }

  function ToPhase(s: State, role: Role, p: Phase): State {
    s.(flights := s.flights[role := p])
  }

  function Apply(s: State, step: Step): State
    requires Enabled(s, step)
  {
    match step
    case Pass(minutes) => s.(now := s.now + minutes)
    case Call(c, role) =>
      s.(callers := s.callers[c :=
        if IsValid(s.entries, role, s.now) then Returned(role, Pick(s, role)) else Missed(role)])
    case Join(c) =>
      var role := At(s, c).role;
      s.(callers := s.callers[c := Waiting(role)],
         flights := if role in s.flights then s.flights else s.flights[role := Recheck])
    case CheckAgain(role) =>
      ToPhase(s, role, if IsValid(s.entries, role, s.now) then Finishing(Pick(s, role)) else LoggingIn)
    case LoginOk(role, token) => ToPhase(s, role, Storing(token)).(logins := s.logins + [Login(role, token, s.now)])
    case LoginFail(role) => ToPhase(s, role, Finishing(Failed))
    case Store(role) =>
      var token := s.flights[role].token;
      ToPhase(s, role, Finishing(Picked(token, LIFETIME))).(
        entries := s.entries[role := Entry(token, s.now + LIFETIME)])
    case Finish(role) =>
      var o := s.flights[role].outcome;
      s.(flights := s.flights - {role},
         callers := map c | c in s.callers :: if s.callers[c] == Waiting(role) then Returned(role, o) else s.callers[c])
    case Leave(c) => s.(callers := s.callers[c := Idle])
  }

  /** `states` are the states that `steps` go through. */
  ghost predicate Behaviour(states: seq<State>, steps: seq<Step>) {
    && |states| == |steps| + 1
    && states[0] == Start(states[0].now)
    && forall i | 0 <= i < |steps| :: Enabled(states[i], steps[i]) && states[i + 1] == Apply(states[i], steps[i])
  }

  /** The times of the successful logins of a role. */
  function Times(logins: seq<Login>, role: Role): seq<real> {
    if logins == [] then []
    else Times(logins[..|logins| - 1], role)
         + if logins[|logins| - 1].role == role then [logins[|logins| - 1].at] else []
  }

  predicate Spaced(ts: seq<real>) {
    forall i | 0 <= i < |ts| - 1 :: ts[i + 1] - ts[i] >= LIFETIME - MARGIN
  }

  function Last(ts: seq<real>): real
    requires ts != []
  {
    ts[|ts| - 1]
  }

  /** What the cache knows of the last login of a role. */
  ghost predicate Covered(s: State, role: Role) {
    var ts := Times(s.logins, role);
    && Spaced(ts)
    && (ts != [] ==> Last(ts) <= s.now)
    && (ts != [] && !(role in s.flights && s.flights[role].Storing?) ==>
          role in s.entries && s.entries[role].expiresAt >= Last(ts) + LIFETIME)
    && (role in s.flights && s.flights[role].LoggingIn? ==> !IsValid(s.entries, role, s.now))
  }

  predicate IssuedFor(logins: seq<Login>, role: Role, t: Token) {
    exists i :: 0 <= i < |logins| && logins[i].role == role && logins[i].token == t
  }

  /** A token handed out was issued to the role and had more than the margin left. */
  ghost predicate GoodOutcome(s: State, role: Role, o: Outcome) {
    o.Picked? ==> IssuedFor(s.logins, role, o.token) && MARGIN < o.left <= LIFETIME
  }

  ghost predicate GoodTokens(s: State) {
    && (forall role | role in s.entries ::
          IssuedFor(s.logins, role, s.entries[role].token) && s.entries[role].expiresAt <= s.now + LIFETIME)
    && (forall role | role in s.flights && s.flights[role].Storing? :: IssuedFor(s.logins, role, s.flights[role].token))
    && (forall role | role in s.flights && s.flights[role].Finishing? :: GoodOutcome(s, role, s.flights[role].outcome))
    && (forall c | c in s.callers && s.callers[c].Returned? :: GoodOutcome(s, s.callers[c].role, s.callers[c].outcome))
  }

  lemma TimesNext(logins: seq<Login>, l: Login, role: Role)
    ensures Times(logins + [l], role) == Times(logins, role) + if l.role == role then [l.at] else []
  {
    assert (logins + [l])[..|logins|] == logins;
  }

  lemma StepKeepsCovered(s: State, step: Step, role: Role)
    requires Covered(s, role) && Enabled(s, step)
    ensures Covered(Apply(s, step), role)
  {
    if step.LoginOk? {
      TimesNext(s.logins, Login(step.role, step.token, s.now), role);
    }
  }

  lemma IssuedLater(logins: seq<Login>, l: Login)
    ensures forall role, t | IssuedFor(logins, role, t) :: IssuedFor(logins + [l], role, t)
    ensures IssuedFor(logins + [l], l.role, l.token)
  {
    assert (logins + [l])[|logins|] == l;
    forall role, t | IssuedFor(logins, role, t) ensures IssuedFor(logins + [l], role, t) {
      var i :| 0 <= i < |logins| && logins[i].role == role && logins[i].token == t;
      assert (logins + [l])[i] == logins[i];
    }
  }

  lemma StepKeepsGoodTokens(s: State, step: Step)
    requires GoodTokens(s) && Enabled(s, step)
    ensures GoodTokens(Apply(s, step))
  {
    if step.LoginOk? {
      IssuedLater(s.logins, Login(step.role, step.token, s.now));
    }
  }

  lemma {:induction false} CoveredThroughout(states: seq<State>, steps: seq<Step>, n: nat, role: Role)
    requires Behaviour(states, steps) && n <= |steps|
    ensures Covered(states[n], role)
  {
    if n > 0 {
      CoveredThroughout(states, steps, n - 1, role);
      assert Enabled(states[n - 1], steps[n - 1]) && states[n] == Apply(states[n - 1], steps[n - 1]);
      StepKeepsCovered(states[n - 1], steps[n - 1], role);
    }
  }

  lemma {:induction false} GoodTokensThroughout(states: seq<State>, steps: seq<Step>, n: nat)
    requires Behaviour(states, steps) && n <= |steps|
    ensures GoodTokens(states[n])
  {
    if n > 0 {
      GoodTokensThroughout(states, steps, n - 1);
      assert Enabled(states[n - 1], steps[n - 1]) && states[n] == Apply(states[n - 1], steps[n - 1]);
      StepKeepsGoodTokens(states[n - 1], steps[n - 1]);
    }
  }

  lemma {:induction false} SpacedSpan(ts: seq<real>, i: nat, j: nat)
    requires Spaced(ts) && i <= j < |ts|
    ensures ts[j] - ts[i] >= (LIFETIME - MARGIN) * (j - i) as real
  {
    if i < j {
      SpacedSpan(ts, i, j - 1);
      assert ts[j - 1 + 1] - ts[j - 1] >= LIFETIME - MARGIN;
    }
  }

  /** The bound, for any call pattern and clock: `n` successful logins of a role span at least
      25 * (n - 1) minutes. */
  lemma LoginsAreSpaced(states: seq<State>, steps: seq<Step>, n: nat, role: Role)
    requires Behaviour(states, steps) && n <= |steps|
    ensures var ts := Times(states[n].logins, role);
      ts != [] ==> Last(ts) - ts[0] >= 25.0 * (|ts| - 1) as real
  {
    CoveredThroughout(states, steps, n, role);
    var ts := Times(states[n].logins, role);
    if ts != [] {
      SpacedSpan(ts, 0, |ts| - 1);
    }
  }

  /** So in any window of `w` minutes a role logs in at most `w` / 25 + 1 times. */
  lemma LoginsInAWindow(states: seq<State>, steps: seq<Step>, n: nat, role: Role, i: nat, j: nat, w: real)
    requires Behaviour(states, steps) && n <= |steps|
    requires i <= j < |Times(states[n].logins, role)|
    requires Times(states[n].logins, role)[j] - Times(states[n].logins, role)[i] <= w
    ensures (j - i + 1) as real <= w / 25.0 + 1.0
  {
    CoveredThroughout(states, steps, n, role);
    SpacedSpan(Times(states[n].logins, role), i, j);
  }

  /** Every token a call returns was issued to its role, and had more than 5 minutes left at
      the check or was just issued with 30. */
  lemma ReturnedTokensAreGood(states: seq<State>, steps: seq<Step>, n: nat, c: Caller)
    requires Behaviour(states, steps) && n <= |steps|
    requires At(states[n], c).Returned? && At(states[n], c).outcome.Picked?
    ensures IssuedFor(states[n].logins, At(states[n], c).role, At(states[n], c).outcome.token)
    ensures 5.0 < At(states[n], c).outcome.left <= 30.0
  {
    GoodTokensThroughout(states, steps, n);
  }

  /** An entry with more than 5 minutes left is used, on the fast path and in the slot. */
  lemma ValidIsUsed(s: State, c: Caller, role: Role)
    requires role in s.entries && s.entries[role].expiresAt - s.now > 5.0
    ensures var picked := Picked(s.entries[role].token, s.entries[role].expiresAt - s.now);
      && (At(s, c) == Idle ==> At(Apply(s, Call(c, role)), c) == Returned(role, picked))
      && (Enabled(s, CheckAgain(role)) ==> Apply(s, CheckAgain(role)).flights[role] == Finishing(picked))
  {
  }

  /** A failed login is told to the callers and changes nothing else. */
  lemma FailureIsToldOn(s: State, role: Role)
    requires role in s.flights && s.flights[role] == LoggingIn
    ensures Enabled(s, LoginFail(role))
    ensures Apply(s, LoginFail(role)) == s.(flights := s.flights[role := Finishing(Failed)])
  {
  }

  lemma StoredForHalfAnHour(s: State, role: Role, token: Token)
    requires role in s.flights && s.flights[role] == Storing(token)
    ensures var t := Apply(s, Store(role));
      t.entries == s.entries[role := Entry(token, s.now + 30.0)] && t.flights[role] == Finishing(Picked(token, 30.0))
  {
  }

  /** A login is only under way while the cache has no valid entry for the role; there is one
      slot to a role, so one login at a time. */
  lemma NoLoginWhileValid(states: seq<State>, steps: seq<Step>, n: nat, role: Role)
    requires Behaviour(states, steps) && n <= |steps|
    requires role in states[n].flights && states[n].flights[role].LoggingIn?
    ensures !IsValid(states[n].entries, role, states[n].now)
  {
    CoveredThroughout(states, steps, n, role);
  }
}
