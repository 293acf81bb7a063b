/** app/services/auth_service.py:194-249 and app/repositories/auth_repository.py:89-148: rotating refresh tokens
    with reuse detection. A token stands for its hash; tokens and family ids are random and never drawn twice,
    so the next one of each is simply the next number. */
module RefreshTokens {
  import opened Results

  datatype Token = Token(user: nat, family: nat, expiresAt: int, usedAt: Option<int>, revokedAt: Option<int>)

  datatype Tokens = Tokens(rows: map<nat, Token>, nextToken: nat, nextFamily: nat)

  function Empty(): Tokens {
    Tokens(map[], 0, 0)
  }

  /** How long a token is valid, and how long its row is kept after it has expired. */
  datatype Policy = Policy(ttl: nat, retention: nat)

  predicate IsLive(t: Token) {
    t.usedAt.None? && t.revokedAt.None?
  }

  // ------------------------------------------------------------------ the operations as functions

  function NewRefresh(s: Tokens, user: nat, family: nat, expiresAt: int): Tokens {
    s.(rows := s.rows[s.nextToken := Token(user, family, expiresAt, None, None)], nextToken := s.nextToken + 1)
  }

  function SignedIn(s: Tokens, user: nat, expiresAt: int): Tokens {
    NewRefresh(s, user, s.nextFamily, expiresAt).(nextFamily := s.nextFamily + 1)
  }

  function Revoke(t: Token, now: int): Token {
    if t.revokedAt.None? then t.(revokedAt := Some(now)) else t
  }

  function RevokeFamily(s: Tokens, family: nat, now: int): Tokens {
    s.(rows := map k | k in s.rows :: if s.rows[k].family == family then Revoke(s.rows[k], now) else s.rows[k])
  }

  function RevokeUser(s: Tokens, user: nat, now: int): Tokens {
    s.(rows := map k | k in s.rows :: if s.rows[k].user == user then Revoke(s.rows[k], now) else s.rows[k])
  }

  function Purged(s: Tokens, before: int): Tokens {
    s.(rows := map k | k in s.rows && s.rows[k].expiresAt >= before :: s.rows[k])
  }

  /** Whether a presented token is exchanged for a new one. */
  predicate Accepts(s: Tokens, token: nat, now: int, accountActive: bool) {
    token in s.rows && IsLive(s.rows[token]) && s.rows[token].expiresAt > now && accountActive
  }

  /** Rotation, or the revocation that outlives the rejected request; every other rejection is rolled back. */
  function Refreshed(s: Tokens, token: nat, now: int, accountActive: bool, expiresAt: int): Tokens {
    if Accepts(s, token, now, accountActive) then
      var row := s.rows[token];
      NewRefresh(s.(rows := s.rows[token := row.(usedAt := Some(now))]), row.user, row.family, expiresAt)
    else if token in s.rows && !IsLive(s.rows[token]) then RevokeFamily(s, s.rows[token].family, now)
    else s
  }

  // ------------------------------------------------------------------ the service

  class AuthService {
    const policy: Policy
    var rows: map<nat, Token>
    var nextToken: nat
    var nextFamily: nat

    function State(): Tokens
      reads this
    {
      Tokens(rows, nextToken, nextFamily)
    }

    constructor (policy: Policy)
      ensures State() == Empty() && this.policy == policy
    {
      this.policy, rows, nextToken, nextFamily := policy, map[], 0, 0;
    }

    method NewRefreshToken(user: nat, family: nat, now: int) returns (raw: nat)
      modifies `rows, `nextToken
      ensures raw == old(nextToken) && State() == NewRefresh(old(State()), user, family, now + policy.ttl)
    {
      raw := nextToken;
      nextToken := nextToken + 1;
      rows := rows[raw := Token(user, family, now + policy.ttl, None, None)];
    }

    method IssueTokens(user: nat, now: int) returns (raw: nat)
      modifies this
      ensures raw == old(nextToken) && State() == SignedIn(old(State()), user, now + policy.ttl)
    {
      var family := nextFamily;
      nextFamily := nextFamily + 1;
      raw := NewRefreshToken(user, family, now);
    }

    /** `account` is the user's standing, looked up after the token has been marked used. */
    method Refresh(token: nat, now: int, accountActive: bool) returns (r: Option<nat>)
      modifies `rows, `nextToken
      ensures r.Some? <==>
                && token in old(rows) && old(rows)[token].usedAt.None? && old(rows)[token].revokedAt.None?
                && now < old(rows)[token].expiresAt && accountActive
      ensures r == if Accepts(old(State()), token, now, accountActive) then Some(old(nextToken)) else None
      ensures State() == Refreshed(old(State()), token, now, accountActive, now + policy.ttl)
    {
      if token !in rows {
        return None;
      }
      var row := rows[token];
      if row.revokedAt.Some? || row.usedAt.Some? {
        RevokeFamilyRows(row.family, now);
        return None;
      }
      if row.expiresAt <= now {
        return None;
      }
      var committed := rows;
      rows := rows[token := row.(usedAt := Some(now))];
      if !accountActive {
        rows := committed;
        return None;
      }
      var raw := NewRefreshToken(row.user, row.family, now);
      return Some(raw);
    }

    method RevokeFamilyRows(family: nat, now: int)
      modifies `rows
      ensures State() == RevokeFamily(old(State()), family, now)
    {
      rows := map k | k in rows :: if rows[k].family == family && rows[k].revokedAt.None?
          then rows[k].(revokedAt := Some(now)) else rows[k];
    }

    method RevokeAllForUser(user: nat, now: int)
      modifies `rows
      ensures State() == RevokeUser(old(State()), user, now)
    {
      rows := map k | k in rows :: if rows[k].user == user && rows[k].revokedAt.None?
          then rows[k].(revokedAt := Some(now)) else rows[k];
    }

    /** Returns the number of rows deleted. */
    method PurgeExpired(before: int) returns (deleted: nat)
      modifies `rows
      ensures State() == Purged(old(State()), before)
      ensures deleted == |old(rows)| - |rows|
    {
      var kept := map k | k in rows && rows[k].expiresAt >= before :: rows[k];
      KeptAreFewer(rows, kept);
      deleted := |rows| - |kept|;
      rows := kept;
    }

    /** One event: a sign-in, a refresh, a ban, or the worker's purge of what expired a retention period ago. */
    method Handle(e: Event)
      modifies this
      ensures State() == Step(policy, old(State()), e)
    {
      match e {
        case SignIn(now, user) => var _ := IssueTokens(user, now);
        case Refresh(now, token, accountActive) => var _ := Refresh(token, now, accountActive);
        case Ban(now, user) => RevokeAllForUser(user, now);
        case Purge(now) => var _ := PurgeExpired(now - policy.retention);
      }
    }

    /** A whole run of events, which ends in the state the theorems speak about. */
    method Serve(events: seq<Event>)
      modifies this
      ensures State() == Run(policy, old(State()), events)
    {
      hide Step;
      for i := 0 to |events|
        invariant State() == Run(policy, old(State()), events[..i])
      {
        Handle(events[i]);
        assert events[..i + 1][..i] == events[..i];
      }
      assert events[..|events|] == events;
    }
  }

  lemma KeptAreFewer(rows: map<nat, Token>, kept: map<nat, Token>)
    requires kept.Keys <= rows.Keys
    ensures |kept| <= |rows|
  {
    assert rows.Keys == kept.Keys + (rows.Keys - kept.Keys);
    assert |rows.Keys| == |kept.Keys| + |rows.Keys - kept.Keys|;
  }

  // ------------------------------------------------------------------ runs

  /** What reaches the service, each at its own time. */
  datatype Event =
    | SignIn(now: int, user: nat)
    | Refresh(now: int, token: nat, accountActive: bool)
    | Ban(now: int, user: nat)
    | Purge(now: int)

  function Step(p: Policy, s: Tokens, e: Event): Tokens {
    match e
    case SignIn(now, user) => SignedIn(s, user, now + p.ttl)
    case Refresh(now, token, active) => Refreshed(s, token, now, active, now + p.ttl)
    case Ban(now, user) => RevokeUser(s, user, now)
    case Purge(now) => Purged(s, now - p.retention)
  }

  function Run(p: Policy, s: Tokens, events: seq<Event>): Tokens {
    if |events| == 0 then s else Step(p, Run(p, s, events[..|events| - 1]), events[|events| - 1])
  }

  ghost predicate ClockForward(events: seq<Event>) {
    forall i, j :: 0 <= i <= j < |events| ==> events[i].now <= events[j].now
  }

  /** At most one live token in a family; ids that have been drawn lie below the next ones. */
  ghost predicate Inv(s: Tokens) {
    && (forall k :: k in s.rows ==> k < s.nextToken && s.rows[k].family < s.nextFamily)
    && (forall j, k :: j in s.rows && k in s.rows && IsLive(s.rows[j]) && IsLive(s.rows[k]) ==>
          s.rows[j].family == s.rows[k].family ==> j == k)
  }

  lemma SignInKeepsInv(s: Tokens, user: nat, expiresAt: int)
    requires Inv(s)
    ensures Inv(SignedIn(s, user, expiresAt))
  {
  }

  /** Marking a live token used leaves its family without one ... */
  lemma UsingKeepsInv(s: Tokens, token: nat, now: int)
    requires Inv(s) && token in s.rows && IsLive(s.rows[token])
    ensures var used := s.(rows := s.rows[token := s.rows[token].(usedAt := Some(now))]);
            Inv(used) && Dead(used, s.rows[token].family)
  {
  }

  /** ... so that a new one may join it. */
  lemma JoiningKeepsInv(s: Tokens, user: nat, family: nat, expiresAt: int)
    requires Inv(s) && Dead(s, family)
    ensures Inv(NewRefresh(s, user, family, expiresAt))
  {
  }

  lemma RevokingKeepsInv(s: Tokens, family: nat, now: int)
    requires Inv(s)
    ensures Inv(RevokeFamily(s, family, now))
  {
  }

  lemma RefreshKeepsInv(s: Tokens, token: nat, now: int, active: bool, expiresAt: int)
    requires Inv(s)
    ensures Inv(Refreshed(s, token, now, active, expiresAt))
  {
    hide Inv, RevokeFamily, NewRefresh, Dead;
    if Accepts(s, token, now, active) {
      var row := s.rows[token];
      UsingKeepsInv(s, token, now);
      JoiningKeepsInv(s.(rows := s.rows[token := row.(usedAt := Some(now))]), row.user, row.family, expiresAt);
    } else if token in s.rows && !IsLive(s.rows[token]) {
      RevokingKeepsInv(s, s.rows[token].family, now);
    }
  }

  lemma StepKeepsInv(p: Policy, s: Tokens, e: Event)
    requires Inv(s)
    ensures Inv(Step(p, s, e))
  {
    hide SignedIn, Refreshed;
    match e {
      case SignIn(now, user) => SignInKeepsInv(s, user, now + p.ttl);
      case Refresh(now, token, active) => RefreshKeepsInv(s, token, now, active, now + p.ttl);
      case Ban(now, user) =>
      case Purge(now) =>
    }
  }

  lemma {:induction false} RunKeepsInv(p: Policy, events: seq<Event>)
    ensures Inv(Run(p, Empty(), events))
  {
    if |events| > 0 {
      RunKeepsInv(p, events[..|events| - 1]);
      StepKeepsInv(p, Run(p, Empty(), events[..|events| - 1]), events[|events| - 1]);
    }
  }

  /** A family that exists and has no live token. */
  ghost predicate Dead(s: Tokens, family: nat) {
    family < s.nextFamily && forall k :: k in s.rows && s.rows[k].family == family ==> !IsLive(s.rows[k])
  }

  lemma StepKeepsDead(p: Policy, s: Tokens, e: Event, family: nat)
    requires Inv(s) && Dead(s, family)
    ensures Dead(Step(p, s, e), family)
  {
  }

  /** A dead family stays dead, whatever else happens and whatever is purged. */
  lemma {:induction false} DeadForGood(p: Policy, events: seq<Event>, k: nat, family: nat)
    requires k <= |events| && Dead(Run(p, Empty(), events[..k]), family)
    ensures Dead(Run(p, Empty(), events), family)
    decreases |events|
  {
    if k == |events| {
      assert events[..k] == events;
    } else {
      var init := events[..|events| - 1];
      assert init[..k] == events[..k];
      DeadForGood(p, init, k, family);
      RunKeepsInv(p, init);
      StepKeepsDead(p, Run(p, Empty(), init), events[|events| - 1], family);
    }
  }

  /** Once a used or revoked token that is still on file has been presented, no later refresh in its family
      ever succeeds. */
  lemma ReuseEndsFamily(p: Policy, events: seq<Event>, k: nat, m: nat)
    requires k < m < |events| && events[k].Refresh? && events[m].Refresh?
    requires var s := Run(p, Empty(), events[..k]); events[k].token in s.rows && !IsLive(s.rows[events[k].token])
    requires var s := Run(p, Empty(), events[..m]);
             && events[m].token in s.rows
             && s.rows[events[m].token].family == Run(p, Empty(), events[..k]).rows[events[k].token].family
    ensures !Accepts(Run(p, Empty(), events[..m]), events[m].token, events[m].now, events[m].accountActive)
  {
    var before, family := Run(p, Empty(), events[..k]), Run(p, Empty(), events[..k]).rows[events[k].token].family;
    RunKeepsInv(p, events[..k]);
    assert events[..k + 1][..k] == events[..k] && events[..m][..k + 1] == events[..k + 1];
    assert Run(p, Empty(), events[..k + 1]) == RevokeFamily(before, family, events[k].now);
    DeadForGood(p, events[..m], k + 1, family);
  }

  /** No live token of a user belongs to a family older than a given one. */
  ghost predicate OnlyNewer(s: Tokens, user: nat, family: nat) {
    && family <= s.nextFamily
    && forall k :: k in s.rows && s.rows[k].user == user && IsLive(s.rows[k]) ==> s.rows[k].family >= family
  }

  lemma {:induction false} OnlyNewerForGood(p: Policy, events: seq<Event>, k: nat, user: nat, family: nat)
    requires k <= |events| && OnlyNewer(Run(p, Empty(), events[..k]), user, family)
    ensures OnlyNewer(Run(p, Empty(), events), user, family)
    decreases |events|
  {
    if k == |events| {
      assert events[..k] == events;
    } else {
      var init := events[..|events| - 1];
      assert init[..k] == events[..k];
      OnlyNewerForGood(p, init, k, user, family);
    }
  }

  /** After a ban nothing the user held can be refreshed: a later refresh needs a sign-in after the ban. */
  lemma BanEndsSessions(p: Policy, events: seq<Event>, k: nat, m: nat)
    requires k < m < |events| && events[k].Ban? && events[m].Refresh?
    requires var s := Run(p, Empty(), events[..m]);
             events[m].token in s.rows && s.rows[events[m].token].user == events[k].user
    requires Accepts(Run(p, Empty(), events[..m]), events[m].token, events[m].now, events[m].accountActive)
    ensures Run(p, Empty(), events[..m]).rows[events[m].token].family >= Run(p, Empty(), events[..k]).nextFamily
  {
    var before := Run(p, Empty(), events[..k]);
    assert events[..k + 1][..k] == events[..k] && events[..m][..k + 1] == events[..k + 1];
    assert Run(p, Empty(), events[..k + 1]) == RevokeUser(before, events[k].user, events[k].now);
    OnlyNewerForGood(p, events[..m], k + 1, events[k].user, before.nextFamily);
  }

  // ------------------------------------------------------------------ when a refresh is accepted

  /** A token's row as it was issued: unused and unrevoked, valid for the whole lifetime. */
  ghost predicate Fresh(p: Policy, s: Tokens, e: Event, row: Token) {
    && row == Token(row.user, row.family, e.now + p.ttl, None, None)
    && match e
       case SignIn(_, user) => row.user == user && row.family == s.nextFamily
       case Refresh(_, u, _) => u in s.rows && row.user == s.rows[u].user && row.family == s.rows[u].family
       case _ => false
  }

  /** The event numbered `k` issues the token. */
  ghost predicate IssuedAt(p: Policy, events: seq<Event>, k: nat, token: nat)
    requires k < |events|
  {
    Run(p, Empty(), events[..k]).nextToken == token < Run(p, Empty(), events[..k + 1]).nextToken
  }

  lemma IssueIsFresh(p: Policy, s: Tokens, e: Event)
    requires Step(p, s, e).nextToken > s.nextToken
    ensures Step(p, s, e).nextToken == s.nextToken + 1
    ensures s.nextToken in Step(p, s, e).rows && Fresh(p, s, e, Step(p, s, e).rows[s.nextToken])
  {
  }

  /** The event ends the life of a token issued with this row: it is exchanged for a new one, its user is banned, a
      token of its family that is used or revoked is presented, or its row is purged. */
  ghost predicate Ends(p: Policy, s: Tokens, e: Event, token: nat, row: Token) {
    match e
    case SignIn(_, _) => false
    case Refresh(_, u, _) =>
      || (u == token && Step(p, s, e).nextToken > s.nextToken)
      || (u in s.rows && s.rows[u].family == row.family && (s.rows[u].usedAt.Some? || s.rows[u].revokedAt.Some?))
    case Ban(_, user) => user == row.user
    case Purge(now) => now > row.expiresAt + p.retention
  }

  /** The token's row is as it was issued. */
  ghost predicate Has(s: Tokens, token: nat, row: Token) {
    token in s.rows && s.rows[token] == row
  }

  /** If it is on file at all, it has the user, family and expiry it was issued with. */
  ghost predicate Descends(s: Tokens, token: nat, row: Token) {
    && token < s.nextToken
    && (token in s.rows ==> s.rows[token].(usedAt := None, revokedAt := None) == row)
  }

  lemma StepLives(p: Policy, s: Tokens, e: Event, token: nat, row: Token)
    requires Descends(s, token, row) && IsLive(row)
    ensures Descends(Step(p, s, e), token, row)
    ensures Has(Step(p, s, e), token, row) <==> Has(s, token, row) && !Ends(p, s, e, token, row)
  {
  }

  /** None of the events after `k` ends the token's life. */
  ghost predicate Unended(p: Policy, events: seq<Event>, k: nat, token: nat, row: Token) {
    forall m :: k < m < |events| ==> !Ends(p, Run(p, Empty(), events[..m]), events[m], token, row)
  }

  lemma UnendedStep(p: Policy, events: seq<Event>, k: nat, token: nat, row: Token)
    requires k < |events| - 1
    ensures var n := |events| - 1;
            Unended(p, events, k, token, row)
            <==> Unended(p, events[..n], k, token, row)
                 && !Ends(p, Run(p, Empty(), events[..n]), events[n], token, row)
  {
    hide Ends, Run;
    var n := |events| - 1;
    var init := events[..n];
    assert forall m :: k < m < n ==> init[..m] == events[..m] && init[m] == events[m];
    if Unended(p, events, k, token, row) {
      forall m | k < m < n ensures !Ends(p, Run(p, Empty(), init[..m]), init[m], token, row) {
        assert !Ends(p, Run(p, Empty(), events[..m]), events[m], token, row);
      }
    }
    if Unended(p, init, k, token, row) && !Ends(p, Run(p, Empty(), events[..n]), events[n], token, row) {
      forall m | k < m < |events| ensures !Ends(p, Run(p, Empty(), events[..m]), events[m], token, row) {
        if m < n {
          assert !Ends(p, Run(p, Empty(), init[..m]), init[m], token, row);
        }
      }
    }
  }

  lemma {:induction false} Lives(p: Policy, events: seq<Event>, k: nat, token: nat, row: Token)
    requires k < |events| && IsLive(row)
    requires var s := Run(p, Empty(), events[..k + 1]); Descends(s, token, row) && Has(s, token, row)
    ensures var s := Run(p, Empty(), events);
            && Descends(s, token, row)
            && (Has(s, token, row) <==> Unended(p, events, k, token, row))
    decreases |events|
  {
    hide Step, Ends, Descends, Has, Unended;
    var n := |events| - 1;
    if k == n {
      assert events[..k + 1] == events;
      NoneAfter(p, events, token, row);
    } else {
      var init := events[..n];
      assert init[..k + 1] == events[..k + 1];
      Lives(p, init, k, token, row);
      StepLives(p, Run(p, Empty(), init), events[n], token, row);
      UnendedStep(p, events, k, token, row);
    }
  }

  lemma NoneAfter(p: Policy, events: seq<Event>, token: nat, row: Token)
    requires |events| > 0
    ensures Unended(p, events, |events| - 1, token, row)
  {
  }

  /** Every token on file was issued by some event. */
  lemma {:induction false} IssueExists(p: Policy, events: seq<Event>, token: nat) returns (k: nat)
    requires token < Run(p, Empty(), events).nextToken
    ensures k < |events| && IssuedAt(p, events, k, token)
    decreases |events|
  {
    hide Step;
    var n := |events| - 1;
    var init := events[..n];
    if token < Run(p, Empty(), init).nextToken {
      k := IssueExists(p, init, token);
      assert init[..k] == events[..k] && init[..k + 1] == events[..k + 1];
    } else {
      k := n;
      IssueIsFresh(p, Run(p, Empty(), init), events[n]);
      assert events[..n + 1] == events;
    }
  }

  /** The row an event gave the token it issued. */
  ghost function RowIssued(p: Policy, events: seq<Event>, k: nat, token: nat): Token
    requires k < |events| && token in Run(p, Empty(), events[..k + 1]).rows
  {
    Run(p, Empty(), events[..k + 1]).rows[token]
  }

  lemma {:induction false} IssuedRowIs(p: Policy, events: seq<Event>, k: nat, token: nat)
    requires k < |events| && IssuedAt(p, events, k, token)
    ensures token in Run(p, Empty(), events[..k + 1]).rows
    ensures Fresh(p, Run(p, Empty(), events[..k]), events[k], RowIssued(p, events, k, token))
    ensures Descends(Run(p, Empty(), events[..k + 1]), token, RowIssued(p, events, k, token))
  {
    hide Step;
    assert events[..k + 1][..k] == events[..k];
    IssueIsFresh(p, Run(p, Empty(), events[..k]), events[k]);
  }

  /** The token was issued by the event `k`, a sign-in or an accepted refresh, less than its lifetime ago, and nothing
      has ended its life since. */
  ghost predicate GoodSince(p: Policy, events: seq<Event>, k: nat, token: nat, now: int)
    requires k < |events|
  {
    && IssuedAt(p, events, k, token) && now < events[k].now + p.ttl
    && token in Run(p, Empty(), events[..k + 1]).rows
    && Unended(p, events, k, token, RowIssued(p, events, k, token))
  }

  /** After any events, a refresh is accepted exactly when the account is active and the token was issued less than its
      lifetime ago and has since been neither exchanged nor revoked nor purged. */
  lemma {:induction false} AcceptedExactly(p: Policy, events: seq<Event>, token: nat, now: int, active: bool)
    ensures Accepts(Run(p, Empty(), events), token, now, active)
       <==> active && exists k :: 0 <= k < |events| && GoodSince(p, events, k, token, now)
  {
    hide Run, Inv, IssuedAt, Unended, Fresh;
    var s := Run(p, Empty(), events);
    RunKeepsInv(p, events);
    if token in s.rows {
      IdsDrawn(s, token);
      var k := IssueExists(p, events, token);
      IssuedRowIs(p, events, k, token);
      IssuedIsLive(p, events, k, token);
      Lives(p, events, k, token, RowIssued(p, events, k, token));
      if Accepts(s, token, now, active) {
        assert GoodSince(p, events, k, token, now);
      }
    }
    forall k | 0 <= k < |events| && GoodSince(p, events, k, token, now)
      ensures Accepts(s, token, now, true)
    {
      IssuedRowIs(p, events, k, token);
      IssuedIsLive(p, events, k, token);
      Lives(p, events, k, token, RowIssued(p, events, k, token));
    }
  }

  lemma IssuedIsLive(p: Policy, events: seq<Event>, k: nat, token: nat)
    requires k < |events| && token in Run(p, Empty(), events[..k + 1]).rows
    requires Fresh(p, Run(p, Empty(), events[..k]), events[k], RowIssued(p, events, k, token))
    ensures var row := RowIssued(p, events, k, token); IsLive(row) && row.expiresAt == events[k].now + p.ttl
  {
    hide Run;
  }

  /** So no token is ever accepted once its lifetime is over. */
  lemma {:induction false} ExpiredIsRefused(p: Policy, events: seq<Event>, k: nat, token: nat, now: int, active: bool)
    requires k < |events| && IssuedAt(p, events, k, token) && now >= events[k].now + p.ttl
    ensures !Accepts(Run(p, Empty(), events), token, now, active)
  {
    hide Run, Unended;
    AcceptedExactly(p, events, token, now, active);
    forall j | 0 <= j < |events| && GoodSince(p, events, j, token, now) ensures j == k {
      IssuedOnce(p, events, j, k, token);
    }
  }

  lemma {:induction false} TokensGrow(p: Policy, events: seq<Event>, i: nat, j: nat)
    requires i <= j <= |events|
    ensures Run(p, Empty(), events[..i]).nextToken <= Run(p, Empty(), events[..j]).nextToken
    decreases j
  {
    if i < j {
      TokensGrow(p, events, i, j - 1);
      assert events[..j][..j - 1] == events[..j - 1];
    }
  }

  /** A token is issued by one event only. */
  lemma IssuedOnce(p: Policy, events: seq<Event>, j: nat, k: nat, token: nat)
    requires j < |events| && k < |events| && IssuedAt(p, events, j, token) && IssuedAt(p, events, k, token)
    ensures j == k
  {
    hide Run;
    if j < k {
      TokensGrow(p, events, j + 1, k);
    } else if k < j {
      TokensGrow(p, events, k + 1, j);
    }
  }

  // ------------------------------------------------------------------ what a purge forgets

  /** No purge among these events comes later than the time. */
  ghost predicate NoPurgeAfter(events: seq<Event>, time: int) {
    forall i :: 0 <= i < |events| && events[i].Purge? ==> events[i].now <= time
  }

  /** A row that was there stays on file, with its expiry and family, exactly as long as no purge comes later than
      a retention period after its expiry; and one that is not live never becomes so. */
  ghost predicate KeptAs(s: Tokens, s': Tokens, token: nat, kept: bool) {
    && token in s.rows && token < s'.nextToken
    && (token in s'.rows <==> kept)
    && (kept ==> && s'.rows[token].expiresAt == s.rows[token].expiresAt
                 && s'.rows[token].family == s.rows[token].family
                 && (!IsLive(s.rows[token]) ==> !IsLive(s'.rows[token])))
  }

  lemma StepKeeps(p: Policy, s: Tokens, s': Tokens, e: Event, token: nat, kept: bool)
    requires KeptAs(s, s', token, kept)
    ensures KeptAs(s, Step(p, s', e), token,
                   kept && (e.Purge? ==> e.now <= s.rows[token].expiresAt + p.retention))
  {
  }

  lemma {:induction false} OnFile(p: Policy, s: Tokens, events: seq<Event>, token: nat)
    requires token in s.rows && token < s.nextToken
    ensures KeptAs(s, Run(p, s, events), token, NoPurgeAfter(events, s.rows[token].expiresAt + p.retention))
  {
    hide KeptAs, Step;
    if |events| == 0 {
      assert KeptAs(s, s, token, true) by { KeptReflexive(s, token); }
    } else {
      var init, last, time := events[..|events| - 1], events[|events| - 1], s.rows[token].expiresAt + p.retention;
      OnFile(p, s, init, token);
      StepKeeps(p, s, Run(p, s, init), last, token, NoPurgeAfter(init, time));
      PurgesAppend(init, last, time);
      assert init + [last] == events;
    }
  }

  lemma PurgesAppend(events: seq<Event>, e: Event, time: int)
    ensures NoPurgeAfter(events + [e], time) <==> NoPurgeAfter(events, time) && (e.Purge? ==> e.now <= time)
  {
    var all := events + [e];
    assert all[|events|] == e;
    assert forall i :: 0 <= i < |events| ==> all[i] == events[i];
  }

  lemma KeptReflexive(s: Tokens, token: nat)
    requires token in s.rows && token < s.nextToken
    ensures KeptAs(s, s, token, true)
  {
  }

  lemma {:induction false} RunSplits(p: Policy, s: Tokens, first: seq<Event>, second: seq<Event>)
    ensures Run(p, s, first + second) == Run(p, Run(p, s, first), second)
    decreases |second|
  {
    hide Step;
    if |second| == 0 {
      assert first + second == first;
    } else {
      RunSplits(p, s, first, second[..|second| - 1]);
      assert (first + second)[..|first + second| - 1] == first + second[..|second| - 1];
    }
  }

  lemma RunExtends(p: Policy, events: seq<Event>, e: Event)
    ensures Run(p, Empty(), events + [e]) == Step(p, Run(p, Empty(), events), e)
  {
    assert (events + [e])[..|events|] == events;
  }

  /** A used or revoked token is presented again, after any events in between. If none of them is a purge later than
      a retention period after its expiry, the replay ends its family for good, whatever comes after; if one is, the
      replay changes nothing. */
  lemma {:induction false} ReplayOutcome(
      p: Policy, before: seq<Event>, between: seq<Event>, now: int, token: nat, active: bool, after: seq<Event>)
    requires var s := Run(p, Empty(), before); token in s.rows && !IsLive(s.rows[token])
    ensures var s, replay := Run(p, Empty(), before), Refresh(now, token, active);
            var time := s.rows[token].expiresAt + p.retention;
            && (NoPurgeAfter(between, time) ==>
                  Dead(Run(p, Empty(), before + between + [replay] + after), s.rows[token].family))
            && (!NoPurgeAfter(between, time) ==>
                  Run(p, Empty(), before + between + [replay]) == Run(p, Empty(), before + between))
  {
    hide Run, Inv, NoPurgeAfter, Dead;
    var s, replay := Run(p, Empty(), before), Refresh(now, token, active);
    RunKeepsInv(p, before);
    RunKeepsInv(p, before + between);
    IdsDrawn(s, token);
    RunSplits(p, Empty(), before, between);
    OnFile(p, s, between, token);
    RunExtends(p, before + between, replay);
    if NoPurgeAfter(between, s.rows[token].expiresAt + p.retention) {
      RevokedIsDead(Run(p, Empty(), before + between), token, now);
      var events := before + between + [replay] + after;
      assert events[..|before + between| + 1] == before + between + [replay];
      DeadForGood(p, events, |before + between| + 1, s.rows[token].family);
    }
  }

  lemma IdsDrawn(s: Tokens, token: nat)
    requires Inv(s) && token in s.rows
    ensures token < s.nextToken && s.rows[token].family < s.nextFamily
  {
  }

  lemma RevokedIsDead(s: Tokens, token: nat, now: int)
    requires Inv(s) && token in s.rows
    ensures Dead(RevokeFamily(s, s.rows[token].family, now), s.rows[token].family)
  {
  }

  /** On a forward clock, then, a replay no later than a retention period after the token's expiry always ends its
      family. */
  lemma {:induction false} TimelyReplayEndsFamily(
      p: Policy, before: seq<Event>, between: seq<Event>, now: int, token: nat, active: bool, after: seq<Event>)
    requires var s := Run(p, Empty(), before);
             token in s.rows && !IsLive(s.rows[token]) && now <= s.rows[token].expiresAt + p.retention
    requires ClockForward(before + between + [Refresh(now, token, active)])
    ensures var s := Run(p, Empty(), before);
            Dead(Run(p, Empty(), before + between + [Refresh(now, token, active)] + after), s.rows[token].family)
  {
    hide Run, Dead;
    var events := before + between + [Refresh(now, token, active)];
    forall i | 0 <= i < |between| ensures between[i].now <= now {
      assert events[|before| + i] == between[i] && events[|before| + |between|] == Refresh(now, token, active);
    }
    ReplayOutcome(p, before, between, now, token, active, after);
  }

  /** A sign-in, then a rotation of the latest token just before it expires, again and again. */
  function Rotations(p: Policy, user: nat, n: nat): seq<Event> {
    if n == 0 then [SignIn(0, user)]
    else Rotations(p, user, n - 1) + [Refresh(n * (p.ttl - 1), n - 1, true)]
  }

  lemma {:induction false} RotationsReach(p: Policy, user: nat, n: nat)
    requires p.ttl >= 2
    ensures var s := Run(p, Empty(), Rotations(p, user, n));
            && s.nextToken == n + 1 && s.nextFamily == 1
            && n in s.rows && s.rows[n] == Token(user, 0, n * (p.ttl - 1) + p.ttl, None, None)
            && 0 in s.rows && s.rows[0].family == 0 && s.rows[0].expiresAt == p.ttl
            && (n > 0 ==> !IsLive(s.rows[0]))
  {
    hide Run;
    if n == 0 {
      RunExtends(p, [], SignIn(0, user));
      NothingYet(p);
      assert [] + [SignIn(0, user)] == Rotations(p, user, 0);
    } else {
      RotationsReach(p, user, n - 1);
      assert (n - 1) * (p.ttl - 1) + p.ttl == n * (p.ttl - 1) + 1;
      RunExtends(p, Rotations(p, user, n - 1), Refresh(n * (p.ttl - 1), n - 1, true));
    }
  }

  lemma NothingYet(p: Policy)
    ensures Run(p, Empty(), []) == Empty()
  {
  }

  lemma {:induction false} RotationsForward(p: Policy, user: nat, n: nat)
    requires p.ttl >= 2
    ensures |Rotations(p, user, n)| == n + 1 && ClockForward(Rotations(p, user, n))
    ensures forall i :: 0 <= i <= n ==> Rotations(p, user, n)[i].now <= n * (p.ttl - 1)
  {
    if n > 0 {
      RotationsForward(p, user, n - 1);
      assert (n - 1) * (p.ttl - 1) <= n * (p.ttl - 1);
    }
  }

  /** Just after the first token's row may be purged; and how often the session must be rotated to outlive that. */
  function PurgeTime(p: Policy): int {
    p.ttl + p.retention + 1
  }

  function RotationCount(p: Policy): nat
    requires p.ttl >= 2
  {
    (p.retention + 1) / (p.ttl - 1) + 1
  }

  lemma RotationsSpan(p: Policy)
    requires p.ttl >= 2
    ensures PurgeTime(p) - p.ttl < RotationCount(p) * (p.ttl - 1) <= PurgeTime(p)
  {
    var a, b := p.retention + 1, p.ttl - 1;
    var q := a / b;
    assert a == q * b + a % b;
    assert (q + 1) * b == q * b + b;
  }

  function ReplayAfterPurge(p: Policy, user: nat): seq<Event>
    requires p.ttl >= 2
  {
    Rotations(p, user, RotationCount(p)) + [Purge(PurgeTime(p))] + [Refresh(PurgeTime(p), 0, true)]
  }

  /** No retention is long enough. Whatever the settings, a session that keeps rotating outlives the row of its first
      token: once that is purged its replay goes unnoticed, and the session's latest token is accepted. Without the
      purge the replay would have ended the family. */
  lemma {:induction false} PurgedReuseGoesUnnoticed(p: Policy, user: nat)
    requires p.ttl >= 2
    ensures var n, now, events := RotationCount(p), PurgeTime(p), ReplayAfterPurge(p, user);
            && n > 0 && ClockForward(events) && |events| == n + 3
            && Accepts(Run(p, Empty(), events), n, now, true)
            && !Accepts(Run(p, Empty(), Rotations(p, user, n) + [Refresh(now, 0, true)]), n, now, true)
  {
    hide Run, Rotations, PurgeTime, RotationCount;
    var n, now := RotationCount(p), PurgeTime(p);
    var rotations, replay := Rotations(p, user, n), Refresh(now, 0, true);
    RotationsSpan(p);
    RotationsReach(p, user, n);
    RotationsForward(p, user, n);
    RunExtends(p, rotations, Purge(now));
    RunExtends(p, rotations + [Purge(now)], replay);
    RunExtends(p, rotations, replay);
    FirstIsPurged(p);
  }

  lemma FirstIsPurged(p: Policy)
    requires p.ttl >= 2
    ensures RotationCount(p) > 0 && PurgeTime(p) - p.retention > p.ttl
  {
  }

  /** With the default thirty days of each, in days: rotations at 29 and 58, the purge and the replay at 61. */
  lemma {:induction false} ThirtyDays(user: nat)
    ensures var p := Policy(30, 30);
            && ReplayAfterPurge(p, user) == [SignIn(0, user), Refresh(29, 0, true), Refresh(58, 1, true), Purge(61),
                                             Refresh(61, 0, true)]
            && Accepts(Run(p, Empty(), ReplayAfterPurge(p, user)), 2, 61, true)
  {
    hide Run;
    var p := Policy(30, 30);
    PurgedReuseGoesUnnoticed(p, user);
    assert Rotations(p, user, 1) == [SignIn(0, user), Refresh(29, 0, true)];
    assert Rotations(p, user, 2) == Rotations(p, user, 1) + [Refresh(58, 1, true)];
  }
}
