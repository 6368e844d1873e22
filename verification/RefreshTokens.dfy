/**
 * Refresh-token families: rotation extends a family by one token, reuse of a revoked token kills it.
 * A token's id is its position; the raw token a client presents stands for the id its hash finds.
 */
module RefreshTokens {
  import opened Prelude

  type TokenId = nat
  type UserId = nat
  type FamilyId = nat

  datatype Token = Token(
    user: UserId,
    family: FamilyId,
    replacedBy: Option<TokenId>,
    revokedAt: Option<nat>,
    expiresAt: nat)

  /** `nextFamily` supplies the fresh family ids. */
  datatype Store = Store(tokens: seq<Token>, nextFamily: FamilyId)

  const EMPTY := Store([], 0)

  datatype Event =
    | Login(user: UserId, expiresAt: nat)
    | Refresh(token: TokenId, now: nat, userActive: bool, expiresAt: nat)
    | Logout(token: TokenId, now: nat)
    | NewPassword(user: UserId, now: nat)

  predicate Live(t: Token) {
    t.revokedAt.None?
  }

  function Revoked(t: Token, now: nat): Token {
    if Live(t) then t.(revokedAt := Some(now)) else t
  }

  function RevokeFamily(tokens: seq<Token>, f: FamilyId, now: nat): seq<Token> {
    seq(|tokens|, i requires 0 <= i < |tokens| => if tokens[i].family == f then Revoked(tokens[i], now) else tokens[i])
  }

  function RevokeUser(tokens: seq<Token>, u: UserId, now: nat): seq<Token> {
    seq(|tokens|, i requires 0 <= i < |tokens| => if tokens[i].user == u then Revoked(tokens[i], now) else tokens[i])
  }

  /** Whether a refresh hands out a new pair. */
  predicate Rotates(s: Store, t: TokenId, now: nat, userActive: bool) {
    t < |s.tokens| && Live(s.tokens[t]) && now <= s.tokens[t].expiresAt && userActive
  }

  function Rotated(s: Store, t: TokenId, now: nat, expiresAt: nat): Store
    requires t < |s.tokens|
  {
    var presented := s.tokens[t];
    s.(tokens := s.tokens[t := presented.(revokedAt := Some(now), replacedBy := Some(|s.tokens|))]
                 + [Token(presented.user, presented.family, None, None, expiresAt)])
  }

  function Step(s: Store, e: Event): Store {
    match e
    case Login(u, exp) => Store(s.tokens + [Token(u, s.nextFamily, None, None, exp)], s.nextFamily + 1)
    case Refresh(t, now, active, exp) =>
      if t < |s.tokens| && !Live(s.tokens[t]) then s.(tokens := RevokeFamily(s.tokens, s.tokens[t].family, now))
      else if Rotates(s, t, now, active) then Rotated(s, t, now, exp)
      else s
    case Logout(t, now) =>
      if t < |s.tokens| then s.(tokens := s.tokens[t := Revoked(s.tokens[t], now)]) else s
    case NewPassword(u, now) => s.(tokens := RevokeUser(s.tokens, u, now))
  }

  function Run(s: Store, events: seq<Event>): Store {
    if events == [] then s else Step(Run(s, events[..|events| - 1]), events[|events| - 1])
  }

  // ---- Families ----------------------------------------------------------------------------

  /** The tokens of a family, oldest first. */
  function Members(tokens: seq<Token>, f: FamilyId): seq<TokenId> {
    if tokens == [] then []
    else
      var last := |tokens| - 1;
      Members(tokens[..last], f) + if tokens[last].family == f then [last] else []
  }

  lemma {:induction false} MembersSound(tokens: seq<Token>, f: FamilyId)
    ensures forall j :: 0 <= j < |Members(tokens, f)| ==>
              Members(tokens, f)[j] < |tokens| && tokens[Members(tokens, f)[j]].family == f
    ensures forall i, j :: 0 <= i < j < |Members(tokens, f)| ==> Members(tokens, f)[i] < Members(tokens, f)[j]
    ensures forall t: TokenId :: t < |tokens| && tokens[t].family == f ==> t in Members(tokens, f)
    decreases |tokens|
  {
    if tokens != [] {
      var last := |tokens| - 1;
      var init := tokens[..last];
      MembersSound(init, f);
      assert forall i :: 0 <= i < last ==> init[i] == tokens[i];
      var m, m' := Members(init, f), Members(tokens, f);
      forall t: TokenId | t < |tokens| && tokens[t].family == f ensures t in m' {
        if t < last {
          assert t in m;
        } else {
          assert m'[|m|] == last;
        }
      }
    }
  }

  lemma {:induction false} MembersDependOnFamily(tokens: seq<Token>, tokens': seq<Token>, f: FamilyId)
    requires |tokens'| == |tokens| && forall i :: 0 <= i < |tokens| ==> tokens'[i].family == tokens[i].family
    ensures Members(tokens', f) == Members(tokens, f)
    decreases |tokens|
  {
    if tokens != [] {
      MembersDependOnFamily(tokens[..|tokens| - 1], tokens'[..|tokens| - 1], f);
    }
  }

  /** Member `j` links to the next member, if there is one, and is then revoked. */
  predicate LinkOk(tokens: seq<Token>, m: seq<TokenId>, j: nat)
    requires j < |m|
  {
    && m[0] < |tokens| && m[j] < |tokens|
    && tokens[m[j]].user == tokens[m[0]].user
    && tokens[m[j]].replacedBy == (if j + 1 < |m| then Some(m[j + 1]) else None)
    && (j + 1 < |m| ==> !Live(tokens[m[j]]))
  }

  /** The links of a family form one path through all its members; only its end can be live. */
  predicate OnePath(tokens: seq<Token>, m: seq<TokenId>) {
    forall j :: 0 <= j < |m| ==> LinkOk(tokens, m, j)
  }

  predicate FamilyOk(tokens: seq<Token>, f: FamilyId) {
    OnePath(tokens, Members(tokens, f))
  }

  ghost predicate StoreOk(s: Store) {
    && (forall t :: 0 <= t < |s.tokens| ==> s.tokens[t].family < s.nextFamily)
    && (forall f :: FamilyOk(s.tokens, f))
  }

  /** Revoking tokens bends no path. */
  lemma RevokingKeepsFamily(tokens: seq<Token>, tokens': seq<Token>, f: FamilyId)
    requires |tokens'| == |tokens|
    requires forall i :: 0 <= i < |tokens| ==>
               tokens'[i] == tokens[i] || (exists now :: tokens'[i] == tokens[i].(revokedAt := Some(now)))
    requires FamilyOk(tokens, f)
    ensures FamilyOk(tokens', f)
  {
    MembersDependOnFamily(tokens, tokens', f);
    MembersSound(tokens, f);
    var m := Members(tokens, f);
    forall j | 0 <= j < |m| ensures LinkOk(tokens', m, j) {
      assert LinkOk(tokens, m, j);
    }
  }

  lemma MembersSnoc(tokens: seq<Token>, t: Token, f: FamilyId)
    ensures Members(tokens + [t], f) == Members(tokens, f) + if t.family == f then [|tokens|] else []
  {
    assert (tokens + [t])[..|tokens|] == tokens;
  }

  lemma LoginKeepsFamily(s: Store, u: UserId, exp: nat, f: FamilyId)
    requires StoreOk(s)
    ensures FamilyOk(Step(s, Login(u, exp)).tokens, f)
  {
    var t := Step(s, Login(u, exp)).tokens;
    var m, m' := Members(s.tokens, f), Members(t, f);
    MembersSnoc(s.tokens, t[|s.tokens|], f);
    MembersSound(s.tokens, f);
    assert FamilyOk(s.tokens, f);
    assert f == s.nextFamily ==> m == [] by {
      assert m != [] ==> s.tokens[m[0]].family < s.nextFamily;
    }
    forall j | 0 <= j < |m'| ensures LinkOk(t, m', j) {
      if m' == m {
        assert LinkOk(s.tokens, m, j);
      }
    }
  }

  /** A live token is the end of its family's path. */
  lemma LiveIsLast(tokens: seq<Token>, t: TokenId)
    requires t < |tokens| && FamilyOk(tokens, tokens[t].family) && Live(tokens[t])
    ensures var m := Members(tokens, tokens[t].family);
            m != [] && m[|m| - 1] == t
  {
    MembersSound(tokens, tokens[t].family);
    var m := Members(tokens, tokens[t].family);
    var j :| 0 <= j < |m| && m[j] == t;
    assert LinkOk(tokens, m, j);
  }

  lemma RotationKeepsFamily(s: Store, t: TokenId, now: nat, exp: nat, f: FamilyId)
    requires StoreOk(s) && t < |s.tokens| && Live(s.tokens[t])
    ensures FamilyOk(Rotated(s, t, now, exp).tokens, f)
  {
    var before, after := s.tokens, Rotated(s, t, now, exp).tokens;
    var bent := before[t := after[t]];
    var m := Members(before, f);
    assert FamilyOk(before, f);
    MembersSound(before, f);
    MembersDependOnFamily(before, bent, f);
    MembersSnoc(bent, after[|before|], f);
    var m' := Members(after, f);
    if before[t].family == f {
      LiveIsLast(before, t);
    }
    forall j | 0 <= j < |m'| ensures LinkOk(after, m', j) {
      assert j < |m| ==> LinkOk(before, m, j);
      assert m != [] ==> LinkOk(before, m, 0) && LinkOk(before, m, |m| - 1);
    }
  }

  lemma StepKeepsFamily(s: Store, e: Event, f: FamilyId)
    requires StoreOk(s)
    ensures FamilyOk(Step(s, e).tokens, f)
  {
    assert FamilyOk(s.tokens, f);
    match e
    case Login(u, exp) => LoginKeepsFamily(s, u, exp, f);
    case Refresh(t, now, active, exp) =>
      if t < |s.tokens| && !Live(s.tokens[t]) {
        RevokingKeepsFamily(s.tokens, Step(s, e).tokens, f);
      } else if Rotates(s, t, now, active) {
        RotationKeepsFamily(s, t, now, exp, f);
      }
    case Logout(t, now) => RevokingKeepsFamily(s.tokens, Step(s, e).tokens, f);
    case NewPassword(u, now) => RevokingKeepsFamily(s.tokens, Step(s, e).tokens, f);
  }

  lemma StepKeepsStore(s: Store, e: Event)
    requires StoreOk(s)
    ensures StoreOk(Step(s, e)) && s.nextFamily <= Step(s, e).nextFamily
  {
    forall f ensures FamilyOk(Step(s, e).tokens, f) {
      StepKeepsFamily(s, e, f);
    }
  }

  lemma {:induction false} RunKeepsStore(s: Store, events: seq<Event>)
    requires StoreOk(s)
    ensures StoreOk(Run(s, events)) && s.nextFamily <= Run(s, events).nextFamily
    decreases |events|
  {
    if events != [] {
      RunKeepsStore(s, events[..|events| - 1]);
      StepKeepsStore(Run(s, events[..|events| - 1]), events[|events| - 1]);
    }
  }

  // ---- What every run keeps ----------------------------------------------------------------

  /** In every run from an empty store, for every family. */
  lemma FamiliesArePaths(events: seq<Event>, f: FamilyId)
    ensures var tokens := Run(EMPTY, events).tokens;
            var m := Members(tokens, f);
            && OnePath(tokens, m)
            && (forall i, j :: 0 <= i < j < |m| ==> m[i] < m[j])
  {
    assert StoreOk(EMPTY);
    RunKeepsStore(EMPTY, events);
    var tokens := Run(EMPTY, events).tokens;
    MembersSound(tokens, f);
    assert FamilyOk(tokens, f);
  }

  /** A family has at most one live token. */
  lemma OneLiveToken(events: seq<Event>, t: TokenId, u: TokenId)
    requires var tokens := Run(EMPTY, events).tokens;
             && t < |tokens| && u < |tokens| && tokens[t].family == tokens[u].family
             && Live(tokens[t]) && Live(tokens[u])
    ensures t == u
  {
    assert StoreOk(EMPTY);
    RunKeepsStore(EMPTY, events);
    var tokens := Run(EMPTY, events).tokens;
    assert FamilyOk(tokens, tokens[t].family);
    LiveIsLast(tokens, t);
    LiveIsLast(tokens, u);
  }

  predicate Dead(s: Store, f: FamilyId) {
    forall t :: 0 <= t < |s.tokens| && s.tokens[t].family == f ==> !Live(s.tokens[t])
  }

  /** Presenting a revoked token leaves its family without a live token. */
  lemma ReuseKillsFamily(s: Store, t: TokenId, now: nat, userActive: bool, exp: nat)
    requires t < |s.tokens| && !Live(s.tokens[t])
    ensures Dead(Step(s, Refresh(t, now, userActive, exp)), s.tokens[t].family)
    ensures |Step(s, Refresh(t, now, userActive, exp)).tokens| == |s.tokens|
  {
  }

  /** A dead family never comes back, and no revocation is ever undone or re-dated. */
  lemma {:induction false} DeadStaysDead(s: Store, events: seq<Event>, f: FamilyId)
    requires StoreOk(s) && f < s.nextFamily
    ensures Dead(s, f) ==> Dead(Run(s, events), f)
    ensures |s.tokens| <= |Run(s, events).tokens|
    ensures forall t :: 0 <= t < |s.tokens| && !Live(s.tokens[t]) ==> Run(s, events).tokens[t].revokedAt == s.tokens[t].revokedAt
    decreases |events|
  {
    if events != [] {
      var init := events[..|events| - 1];
      DeadStaysDead(s, init, f);
      RunKeepsStore(s, init);
    }
  }

  lemma {:induction false} RunSplits(s: Store, before: seq<Event>, e: Event, after: seq<Event>)
    ensures Run(s, before + [e] + after) == Run(Step(Run(s, before), e), after)
    decreases |after|
  {
    if after == [] {
      assert before + [e] + after == before + [e];
      assert (before + [e])[..|before|] == before;
    } else {
      var last := |after| - 1;
      var events := before + [e] + after;
      assert events[..|events| - 1] == before + [e] + after[..last];
      RunSplits(s, before, e, after[..last]);
    }
  }

  /**
   * In every run from an empty store: once a revoked token has been presented, no later event gives its
   * family a live token again.
   */
  lemma ReuseKillsForGood(before: seq<Event>, e: Event, after: seq<Event>)
    requires e.Refresh?
    requires var s := Run(EMPTY, before); e.token < |s.tokens| && !Live(s.tokens[e.token])
    ensures Dead(Run(EMPTY, before + [e] + after), Run(EMPTY, before).tokens[e.token].family)
  {
    var s := Run(EMPTY, before);
    assert StoreOk(EMPTY);
    RunKeepsStore(EMPTY, before);
    StepKeepsStore(s, e);
    ReuseKillsFamily(s, e.token, e.now, e.userActive, e.expiresAt);
    RunSplits(EMPTY, before, e, after);
    DeadStaysDead(Step(s, e), after, s.tokens[e.token].family);
  }

  /** A rotation moves the life of the family from the presented token to the new one. */
  lemma RotationMovesLife(s: Store, t: TokenId, now: nat, exp: nat, u: TokenId)
    requires StoreOk(s) && Rotates(s, t, now, true)
    ensures var next := Step(s, Refresh(t, now, true, exp));
            && |next.tokens| == |s.tokens| + 1
            && next.tokens[t].replacedBy == Some(|s.tokens|)
            && next.tokens[|s.tokens|].user == s.tokens[t].user
            && (u < |next.tokens| && next.tokens[u].family == s.tokens[t].family ==>
                  (Live(next.tokens[u]) <==> u == |s.tokens|))
  {
    if u < |s.tokens| && s.tokens[u].family == s.tokens[t].family && Live(s.tokens[u]) {
      assert FamilyOk(s.tokens, s.tokens[t].family);
      LiveIsLast(s.tokens, t);
      LiveIsLast(s.tokens, u);
    }
  }

  // ---- When tokens are replaced, and sessions ended ----------------------------------------

  /** Event `at` was a refresh that replaced token `t` while it was live and not expired. */
  predicate ReplacedBy(events: seq<Event>, at: nat, t: TokenId, token: Token)
    requires at < |events|
  {
    var s := Run(EMPTY, events[..at]);
    && events[at].Refresh? && events[at].token == t && events[at].userActive
    && events[at].now <= token.expiresAt && token.revokedAt == Some(events[at].now)
    && t < |s.tokens| && s.tokens[t].revokedAt.None? && s.tokens[t].expiresAt == token.expiresAt
    && token.replacedBy == Some(|s.tokens|)
  }

  lemma ReplacementStays(events: seq<Event>, at: nat, t: TokenId, token: Token)
    requires events != [] && at < |events| - 1 && ReplacedBy(events[..|events| - 1], at, t, token)
    ensures ReplacedBy(events, at, t, token)
  {
    assert events[..|events| - 1][..at] == events[..at];
  }

  /** A token that has been replaced stays as it is. */
  lemma ReplacedTokenStays(s: Store, e: Event, t: TokenId)
    requires StoreOk(s) && t < |s.tokens| && s.tokens[t].replacedBy.Some?
    ensures t < |Step(s, e).tokens| && Step(s, e).tokens[t] == s.tokens[t]
  {
    var m := Members(s.tokens, s.tokens[t].family);
    MembersSound(s.tokens, s.tokens[t].family);
    assert FamilyOk(s.tokens, s.tokens[t].family);
    var j :| 0 <= j < |m| && m[j] == t;
    assert LinkOk(s.tokens, m, j);
  }

  /** In every run, a token that has a successor was replaced by a refresh of its own, dated no later than its expiry. */
  lemma {:induction false} ReplacedInTime(events: seq<Event>, t: TokenId) returns (at: nat)
    requires t < |Run(EMPTY, events).tokens| && Run(EMPTY, events).tokens[t].replacedBy.Some?
    ensures at < |events| && ReplacedBy(events, at, t, Run(EMPTY, events).tokens[t])
    decreases |events|
  {
    var init, e := events[..|events| - 1], events[|events| - 1];
    var s := Run(EMPTY, init);
    assert StoreOk(EMPTY);
    RunKeepsStore(EMPTY, init);
    if t < |s.tokens| && s.tokens[t].replacedBy.Some? {
      at := ReplacedInTime(init, t);
      ReplacedTokenStays(s, e, t);
      ReplacementStays(events, at, t, s.tokens[t]);
    } else {
      at := |events| - 1;
    }
  }

  /** A refresh hands out a token exactly for a live, unexpired token of an active user. */
  lemma RefreshIssuesIff(s: Store, t: TokenId, now: nat, userActive: bool, exp: nat)
    ensures var n := |Step(s, Refresh(t, now, userActive, exp)).tokens|;
            if t < |s.tokens| && s.tokens[t].revokedAt.None? && now <= s.tokens[t].expiresAt && userActive
            then n == |s.tokens| + 1 else n == |s.tokens|
  {
  }

  /** In every run, no token that a user had when the password changed is live at any later time. */
  lemma PasswordEndsSessions(before: seq<Event>, u: UserId, now: nat, after: seq<Event>, t: TokenId)
    requires t < |Run(EMPTY, before).tokens| && Run(EMPTY, before).tokens[t].user == u
    ensures var s := Run(EMPTY, before + [NewPassword(u, now)] + after);
            t < |s.tokens| && s.tokens[t].revokedAt.Some?
  {
    var s := Run(EMPTY, before);
    var s' := Step(s, NewPassword(u, now));
    assert StoreOk(EMPTY);
    RunKeepsStore(EMPTY, before);
    StepKeepsStore(s, NewPassword(u, now));
    RunSplits(EMPTY, before, NewPassword(u, now), after);
    assert !Live(s'.tokens[t]) && s'.tokens[t].family < s'.nextFamily;
    DeadStaysDead(s', after, s'.tokens[t].family);
  }

  // ---- The service -------------------------------------------------------------------------

  /** A password-reset token; its id is its position. */
  datatype Reset = Reset(user: UserId, expiresAt: nat, usedAt: Option<nat>)

  /** `passwords` holds every user; accounts of an OAuth login have none. */
  class AuthService {
    var tokens: seq<Token>
    var nextFamily: FamilyId
    var passwords: map<UserId, Option<string>>
    var resets: seq<Reset>

    ghost function State(): Store
      reads this
    {
      Store(tokens, nextFamily)
    }

    constructor ()
      ensures State() == EMPTY && passwords == map[] && resets == []
    {
      tokens, nextFamily, passwords, resets := [], 0, map[], [];
    }

    method IssueRefreshToken(user: UserId, family: FamilyId, expiresAt: nat) returns (t: TokenId)
      modifies this`tokens
      ensures tokens == old(tokens) + [Token(user, family, None, None, expiresAt)] && t == |old(tokens)|
    {
      t := |tokens|;
      tokens := tokens + [Token(user, family, None, None, expiresAt)];
    }

    method IssueTokenPair(user: UserId, expiresAt: nat) returns (t: TokenId)
      modifies this`tokens, this`nextFamily
      ensures State() == Step(old(State()), Login(user, expiresAt))
      ensures t == |old(tokens)| && tokens == old(tokens) + [Token(user, old(nextFamily), None, None, expiresAt)]
      ensures nextFamily == old(nextFamily) + 1
    {
      var family := nextFamily;
      nextFamily := nextFamily + 1;
      t := IssueRefreshToken(user, family, expiresAt);
    }

    method RevokeTokensOfFamily(f: FamilyId, now: nat)
      modifies this`tokens
      ensures tokens == RevokeFamily(old(tokens), f, now)
      ensures |tokens| == |old(tokens)|
      ensures forall i :: 0 <= i < |tokens| ==>
        tokens[i] == if old(tokens)[i].family == f && old(tokens)[i].revokedAt.None?
                     then old(tokens)[i].(revokedAt := Some(now)) else old(tokens)[i]
    {
      for i := 0 to |tokens|
        invariant |tokens| == |old(tokens)|
        invariant forall j :: 0 <= j < i ==> tokens[j] == RevokeFamily(old(tokens), f, now)[j]
        invariant forall j :: i <= j < |tokens| ==> tokens[j] == old(tokens)[j]
      {
        if tokens[i].family == f && tokens[i].revokedAt.None? {
          tokens := tokens[i := tokens[i].(revokedAt := Some(now))];
        }
      }
    }

    method RevokeAllForUser(u: UserId, now: nat)
      modifies this`tokens
      ensures tokens == RevokeUser(old(tokens), u, now)
      ensures |tokens| == |old(tokens)|
      ensures forall i :: 0 <= i < |tokens| ==>
        tokens[i] == if old(tokens)[i].user == u && old(tokens)[i].revokedAt.None?
                     then old(tokens)[i].(revokedAt := Some(now)) else old(tokens)[i]
    {
      for i := 0 to |tokens|
        invariant |tokens| == |old(tokens)|
        invariant forall j :: 0 <= j < i ==> tokens[j] == RevokeUser(old(tokens), u, now)[j]
        invariant forall j :: i <= j < |tokens| ==> tokens[j] == old(tokens)[j]
      {
        if tokens[i].user == u && tokens[i].revokedAt.None? {
          tokens := tokens[i := tokens[i].(revokedAt := Some(now))];
        }
      }
    }

    /** The refresh route. On reuse the revocation is committed although the request fails. */
    method RotateRefreshToken(t: TokenId, now: nat, userActive: bool, expiresAt: nat) returns (r: Result<TokenId>)
      modifies this`tokens
      ensures State() == Step(old(State()), Refresh(t, now, userActive, expiresAt))
      ensures r.Ok? <==>
        && t < |old(tokens)| && old(tokens)[t].revokedAt.None? && now <= old(tokens)[t].expiresAt && userActive
      ensures r.Err? ==> r.error == Unauthorized
      ensures r.Ok? ==>
        && r.value == |old(tokens)|
        && tokens == old(tokens)[t := old(tokens)[t].(revokedAt := Some(now), replacedBy := Some(r.value))]
                     + [Token(old(tokens)[t].user, old(tokens)[t].family, None, None, expiresAt)]
      ensures r.Err? && (t >= |old(tokens)| || old(tokens)[t].revokedAt.None?) ==> tokens == old(tokens)
      ensures r.Err? ==> |tokens| == |old(tokens)|
      ensures t < |old(tokens)| && old(tokens)[t].revokedAt.Some? ==>
        forall i :: 0 <= i < |old(tokens)| ==>
          tokens[i] == if old(tokens)[i].family == old(tokens)[t].family && old(tokens)[i].revokedAt.None?
                       then old(tokens)[i].(revokedAt := Some(now)) else old(tokens)[i]
    {
      if t >= |tokens| {
        return Err(Unauthorized);
      }
      var stored := tokens[t];
      if stored.revokedAt.Some? {
        RevokeTokensOfFamily(stored.family, now);
        return Err(Unauthorized);
      }
      if stored.expiresAt < now {
        return Err(Unauthorized);
      }
      if !userActive {
        return Err(Unauthorized);
      }
      tokens := tokens[t := stored.(revokedAt := Some(now))];
      var issued := IssueRefreshToken(stored.user, stored.family, expiresAt);
      tokens := tokens[t := tokens[t].(replacedBy := Some(issued))];
      assert tokens == Rotated(old(State()), t, now, expiresAt).tokens;
      r := Ok(issued);
    }

    method LogoutToken(t: TokenId, now: nat)
      modifies this`tokens
      ensures State() == Step(old(State()), Logout(t, now))
      ensures t >= |old(tokens)| || old(tokens)[t].revokedAt.Some? ==> tokens == old(tokens)
      ensures t < |old(tokens)| && old(tokens)[t].revokedAt.None? ==>
        tokens == old(tokens)[t := old(tokens)[t].(revokedAt := Some(now))]
    {
      if t < |tokens| && tokens[t].revokedAt.None? {
        tokens := tokens[t := tokens[t].(revokedAt := Some(now))];
      }
    }

    method ChangePassword(u: UserId, current: string, next: string, now: nat) returns (r: Result<()>)
      requires u in passwords
      modifies this`tokens, this`passwords
      ensures r == if old(passwords)[u] == Some(current) then Ok(()) else Err(Unauthorized)
      ensures r.Ok? ==> passwords == old(passwords)[u := Some(next)] && State() == Step(old(State()), NewPassword(u, now))
      ensures r.Ok? ==> forall i :: 0 <= i < |tokens| && tokens[i].user == u ==> tokens[i].revokedAt.Some?
      ensures r.Err? ==> passwords == old(passwords) && State() == old(State())
    {
      if passwords[u].None? || passwords[u].value != current {
        return Err(Unauthorized);
      }
      passwords := passwords[u := Some(next)];
      RevokeAllForUser(u, now);
      r := Ok(());
    }

    /** A reset token works once, before it expires, and ends every session of its user. */
    method ConfirmPasswordReset(id: nat, next: string, now: nat) returns (r: Result<()>)
      modifies this`tokens, this`passwords, this`resets
      ensures r == if id >= |old(resets)| || old(resets)[id].usedAt.Some? || old(resets)[id].expiresAt < now then Err(Unauthorized)
                   else if old(resets)[id].user !in old(passwords) then Err(NotFound) else Ok(())
      ensures r.Ok? ==>
        && passwords == old(passwords)[old(resets)[id].user := Some(next)]
        && resets == old(resets)[id := old(resets)[id].(usedAt := Some(now))]
        && State() == Step(old(State()), NewPassword(old(resets)[id].user, now))
        && resets[id].usedAt.Some?
        && forall i :: 0 <= i < |tokens| && tokens[i].user == old(resets)[id].user ==> tokens[i].revokedAt.Some?
      ensures r.Err? ==> passwords == old(passwords) && resets == old(resets) && State() == old(State())
    {
      if id >= |resets| || resets[id].usedAt.Some? || resets[id].expiresAt < now {
        return Err(Unauthorized);
      }
      var u := resets[id].user;
      if u !in passwords {
        return Err(NotFound);
      }
      passwords := passwords[u := Some(next)];
      resets := resets[id := resets[id].(usedAt := Some(now))];
      RevokeAllForUser(u, now);
      r := Ok(());
    }
  }
}
