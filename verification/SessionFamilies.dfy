/** Refresh-token families: one replacedBy path each, at most one live session, and a death that is final. */
module SessionFamilies {
  import opened Options
  import opened Sessions

  // ----- the invariant -------------------------------------------------------

  /** What is the same for all sessions of a family. */
  datatype Origin = Origin(family: string, user: string, twoFactor: bool)

  predicate From(x: Session, o: Origin) {
    x.family == o.family && x.user == o.user && x.twoFactor == o.twoFactor
  }

  /** The sessions of `c` replace each other in that order, every replaced one is revoked, ids grow along the path, and
      all share one origin. */
  predicate Path(m: map<nat, Session>, c: seq<nat>, o: Origin) {
    && c != [] && c[0] in m && From(m[c[0]], o)
    && if |c| == 1 then m[c[0]].replacedBy.None?
       else m[c[0]].replacedBy == Some(c[1]) && Revoked(m[c[0]]) && c[0] < c[1] && Path(m, c[1..], o)
  }

  function OriginOf(x: Session): Origin { Origin(x.family, x.user, x.twoFactor) }

  predicate IsPath(m: map<nat, Session>, c: seq<nat>, family: string) {
    c != [] && c[0] in m && m[c[0]].family == family && Path(m, c, OriginOf(m[c[0]]))
  }

  ghost predicate FamiliesArePaths(s: State) {
    forall f :: f in s.chains ==> IsPath(s.sessions, s.chains[f], f)
  }

  predicate InChain(s: State, family: string, id: nat) { family in s.chains && id in s.chains[family] }

  ghost predicate Listed(s: State) {
    && (forall id :: id in s.gone ==> id in s.sessions)
    && (forall id :: id in s.sessions ==> id < s.nextId && InChain(s, s.sessions[id].family, id))
    && (forall f, id :: InChain(s, f, id) ==> id in s.sessions && s.sessions[id].family == f)
  }

  ghost predicate TokensDistinct(s: State) {
    forall a, b :: a in s.sessions && b in s.sessions && s.sessions[a].token == s.sessions[b].token ==> a == b
  }

  ghost predicate Inv(s: State) {
    FamiliesArePaths(s) && Listed(s) && TokensDistinct(s)
  }

  // ----- paths ---------------------------------------------------------------

  /** Only the last session of a path can be unrevoked, and it is the only one not replaced. */
  lemma {:induction false} OnlyTheLast(m: map<nat, Session>, c: seq<nat>, o: Origin, id: nat)
    requires Path(m, c, o) && id in c
    ensures id in m && From(m[id], o)
    ensures !Revoked(m[id]) || m[id].replacedBy.None? ==> id == c[|c| - 1]
    ensures m[id].replacedBy.Some? ==> Revoked(m[id])
  {
    if |c| > 1 && id != c[0] { OnlyTheLast(m, c[1..], o, id); }
  }

  lemma {:induction false} PathsGrow(m: map<nat, Session>, c: seq<nat>, o: Origin, i: nat, j: nat)
    requires Path(m, c, o) && i < j < |c|
    ensures c[i] < c[j]
    decreases |c|
  {
    if i > 0 {
      PathsGrow(m, c[1..], o, i - 1, j - 1);
    } else if j > 1 {
      PathsGrow(m, c[1..], o, 0, j - 1);
    }
  }

  /** Revoking more sessions keeps every path. */
  predicate RevokesMore(x: Session, y: Session) {
    y == x.(revokedAt := y.revokedAt) && (Revoked(x) ==> Revoked(y))
  }

  lemma {:induction false} RevokingKeepsPath(m: map<nat, Session>, m': map<nat, Session>, c: seq<nat>, o: Origin)
    requires Path(m, c, o)
    requires forall id :: id in m ==> id in m' && RevokesMore(m[id], m'[id])
    ensures Path(m', c, o)
  {
    assert RevokesMore(m[c[0]], m'[c[0]]);
    if |c| > 1 { RevokingKeepsPath(m, m', c[1..], o); }
  }

  /** A path depends on its own sessions only. */
  lemma {:induction false} SamePath(m: map<nat, Session>, m': map<nat, Session>, c: seq<nat>, o: Origin)
    requires Path(m, c, o)
    requires forall id :: id in c ==> id in m' && (id in m ==> m'[id] == m[id])
    ensures Path(m', c, o)
  {
    assert c[0] in c;
    if |c| > 1 {
      forall id | id in c[1..] ensures id in m' && (id in m ==> m'[id] == m[id]) {
        assert id in c;
      }
      SamePath(m, m', c[1..], o);
    }
  }

  /** Rotating the last session of a path makes it one longer. */
  lemma {:induction false} RotatingExtendsPath(m: map<nat, Session>, m': map<nat, Session>, c: seq<nat>, o: Origin,
      n: nat)
    requires Path(m, c, o) && n in m' && From(m'[n], o) && m'[n].replacedBy.None?
    requires forall id :: id in c ==> id < n && id in m'
    requires forall id :: id in c && id != c[|c| - 1] && id in m ==> m'[id] == m[id]
    requires c[|c| - 1] in c && Revoked(m'[c[|c| - 1]]) && m'[c[|c| - 1]].replacedBy == Some(n)
    requires From(m'[c[|c| - 1]], o)
    ensures Path(m', c + [n], o)
  {
    if |c| == 1 {
      assert (c + [n])[1..] == [n];
      assert Path(m', [n], o);
    } else {
      var d := c[1..];
      assert (c + [n])[1..] == d + [n];
      assert d[|d| - 1] == c[|c| - 1] && c[0] in c;
      forall id | id in d ensures id in c {
      }
      PathsGrow(m, c, o, 0, |c| - 1);
      RotatingExtendsPath(m, m', d, o, n);
    }
  }

  // ----- each step keeps it --------------------------------------------------

  lemma LoginKeeps(s: State, user: string, family: string, token: string, ttl: nat, twoFactor: bool)
    requires Inv(s) && family !in s.chains && Fresh(s, token)
    ensures Inv(DoLogin(s, user, family, token, ttl, twoFactor))
  {
    LoginKeepsLists(s, user, family, token, ttl, twoFactor);
    var s' := DoLogin(s, user, family, token, ttl, twoFactor);
    forall f | f in s'.chains ensures IsPath(s'.sessions, s'.chains[f], f) {
      if f == family {
        assert Path(s'.sessions, [s.nextId], Origin(family, user, twoFactor));
      } else {
        PathBeside(s, s'.sessions, f);
      }
    }
  }

  lemma LoginKeepsLists(s: State, user: string, family: string, token: string, ttl: nat, twoFactor: bool)
    requires Listed(s) && TokensDistinct(s) && family !in s.chains && Fresh(s, token)
    ensures Listed(DoLogin(s, user, family, token, ttl, twoFactor))
    ensures TokensDistinct(DoLogin(s, user, family, token, ttl, twoFactor))
  {
    var s' := DoLogin(s, user, family, token, ttl, twoFactor);
    forall f, id | InChain(s', f, id) ensures id in s'.sessions && s'.sessions[id].family == f {
      assert f != family ==> InChain(s, f, id);
    }
    forall id | id in s'.sessions ensures id < s'.nextId && InChain(s', s'.sessions[id].family, id) {
      assert id != s.nextId ==> InChain(s, s.sessions[id].family, id);
    }
  }

  /** A family that a step does not touch. */
  lemma PathBeside(s: State, m: map<nat, Session>, f: string)
    requires FamiliesArePaths(s) && Listed(s) && f in s.chains
    requires forall id :: id in s.sessions && s.sessions[id].family == f ==> id in m && m[id] == s.sessions[id]
    ensures IsPath(m, s.chains[f], f)
  {
    var c := s.chains[f];
    forall id | id in c ensures id in m && (id in s.sessions ==> m[id] == s.sessions[id]) {
      assert InChain(s, f, id);
    }
    assert c[0] in c;
    SamePath(s.sessions, m, c, OriginOf(s.sessions[c[0]]));
  }

  /** Some sessions are revoked and nothing else happens. */
  ghost predicate OnlyRevokes(s: State, s': State) {
    && s' == s.(sessions := s'.sessions) && s'.sessions.Keys == s.sessions.Keys
    && forall id :: id in s.sessions ==> RevokesMore(s.sessions[id], s'.sessions[id])
  }

  lemma RevokeOnlyRevokes(s: State, p: (nat, Session) -> bool)
    ensures OnlyRevokes(s, RevokeWhere(s, p))
  {
  }

  lemma RevokingKeeps(s: State, s': State)
    requires Inv(s) && OnlyRevokes(s, s')
    ensures Inv(s')
  {
    forall f | f in s'.chains ensures IsPath(s'.sessions, s'.chains[f], f) {
      var c := s.chains[f];
      assert RevokesMore(s.sessions[c[0]], s'.sessions[c[0]]);
      RevokingKeepsPath(s.sessions, s'.sessions, c, OriginOf(s.sessions[c[0]]));
    }
    RevokingKeepsLists(s, s');
  }

  lemma RevokingKeepsLists(s: State, s': State)
    requires Listed(s) && TokensDistinct(s) && OnlyRevokes(s, s')
    ensures Listed(s') && TokensDistinct(s')
  {
    forall id | id in s.sessions
      ensures s'.sessions[id].family == s.sessions[id].family && s'.sessions[id].token == s.sessions[id].token
    {
      assert RevokesMore(s.sessions[id], s'.sessions[id]);
    }
    forall f, id | InChain(s', f, id) ensures id in s'.sessions && s'.sessions[id].family == f {
      assert InChain(s, f, id);
    }
    forall id | id in s'.sessions ensures id < s'.nextId && InChain(s', s'.sessions[id].family, id) {
      assert InChain(s, s.sessions[id].family, id);
    }
  }

  lemma RevokeKeeps(s: State, p: (nat, Session) -> bool)
    requires Inv(s)
    ensures Inv(RevokeWhere(s, p))
  {
    RevokeOnlyRevokes(s, p);
    RevokingKeeps(s, RevokeWhere(s, p));
  }

  lemma RotateKeeps(s: State, id: nat, token: string, expiresAt: int)
    requires Inv(s) && id in s.sessions && !Revoked(s.sessions[id]) && Fresh(s, token)
    ensures Inv(Rotate(s, id, token, expiresAt))
  {
    RotateKeepsPaths(s, id, token, expiresAt);
    RotateKeepsLists(s, id, token, expiresAt);
  }

  lemma RotateKeepsLists(s: State, id: nat, token: string, expiresAt: int)
    requires Listed(s) && TokensDistinct(s) && id in s.sessions && Fresh(s, token)
    ensures Listed(Rotate(s, id, token, expiresAt)) && TokensDistinct(Rotate(s, id, token, expiresAt))
  {
    var s', g := Rotate(s, id, token, expiresAt), s.sessions[id].family;
    assert InChain(s, g, id);
    forall f, i | InChain(s', f, i) ensures i in s'.sessions && s'.sessions[i].family == f {
      assert f != g || i != s.nextId ==> InChain(s, f, i);
    }
    forall i | i in s'.sessions ensures i < s'.nextId && InChain(s', s'.sessions[i].family, i) {
      assert i != s.nextId ==> InChain(s, s.sessions[i].family, i);
    }
  }

  lemma RotateKeepsPaths(s: State, id: nat, token: string, expiresAt: int)
    requires Inv(s) && id in s.sessions && !Revoked(s.sessions[id])
    ensures FamiliesArePaths(Rotate(s, id, token, expiresAt))
  {
    var s', g := Rotate(s, id, token, expiresAt), s.sessions[id].family;
    assert InChain(s, g, id);
    forall f | f in s'.chains ensures IsPath(s'.sessions, s'.chains[f], f) {
      if f == g {
        RotatedPath(s, id, token, expiresAt);
      } else {
        PathBeside(s, s'.sessions, f);
      }
    }
  }

  lemma RotatedPath(s: State, id: nat, token: string, expiresAt: int)
    requires FamiliesArePaths(s) && Listed(s) && id in s.sessions && !Revoked(s.sessions[id])
    ensures var s', g := Rotate(s, id, token, expiresAt), s.sessions[id].family; IsPath(s'.sessions, s'.chains[g], g)
  {
    var s', g := Rotate(s, id, token, expiresAt), s.sessions[id].family;
    assert InChain(s, g, id);
    var c := s.chains[g];
    var o := OriginOf(s.sessions[c[0]]);
    OnlyTheLast(s.sessions, c, o, id);
    forall i | i in c ensures i < s.nextId && i in s'.sessions && i in s.sessions {
      assert InChain(s, g, i);
    }
    assert From(s.sessions[id], o);
    RotatingExtendsPath(s.sessions, s'.sessions, c, o, s.nextId);
    var first: nat := c[0];
    assert OriginOf(s'.sessions[first]) == o;
    assert (c + [s.nextId])[0] == c[0];
  }

  lemma {:induction false} FindRowFinds(rows: map<nat, Session>, token: string, below: nat)
    ensures var found := FindRow(rows, token, below);
      && (found.Some? ==> found.value in rows && rows[found.value].token == token)
      && (found.None? ==> forall id :: id in rows && id < below ==> rows[id].token != token)
  {
    if below > 0 { FindRowFinds(rows, token, below - 1); }
  }

  lemma FindFinds(s: State, token: string)
    ensures var found := Find(s, token);
      && (found.Some? ==> Present(s, found.value) && s.sessions[found.value].token == token)
      && (found.None? ==> forall id: nat :: Present(s, id) && id < s.nextId ==> s.sessions[id].token != token)
  {
    FindRowFinds(Rows(s), token, s.nextId);
    assert forall id: nat :: Present(s, id) ==> Rows(s)[id] == s.sessions[id];
  }

  /** A refresh rotates a live session, revokes the family of a present one, or does nothing. */
  lemma RefreshCases(s: State, token: string, newToken: string, ttl: nat)
    ensures var out, s' := OutcomeOf(s, token), DoRefresh(s, token, newToken, ttl);
      && (out.Rotates? ==> Live(s, out.id) && s' == Rotate(s, out.id, newToken, s.now + ttl))
      && (out.Reused? ==> Present(s, out.id) && s' == RevokeWhere(s, OfFamily(s.sessions[out.id].family)))
      && (!out.Rotates? && !out.Reused? ==> s' == s)
  {
    FindFinds(s, token);
  }

  lemma RefreshKeeps(s: State, token: string, newToken: string, ttl: nat)
    requires Inv(s) && Fresh(s, newToken)
    ensures Inv(DoRefresh(s, token, newToken, ttl))
  {
    RefreshCases(s, token, newToken, ttl);
    CasesKeep(s, DoRefresh(s, token, newToken, ttl), OutcomeOf(s, token), newToken, s.now + ttl);
  }

  lemma CasesKeep(s: State, s': State, out: RefreshOutcome, newToken: string, expiresAt: int)
    requires Inv(s) && Fresh(s, newToken)
    requires out.Rotates? ==> Live(s, out.id) && s' == Rotate(s, out.id, newToken, expiresAt)
    requires out.Reused? ==> Present(s, out.id) && s' == RevokeWhere(s, OfFamily(s.sessions[out.id].family))
    requires !out.Rotates? && !out.Reused? ==> s' == s
    ensures Inv(s')
  {
    if out.Rotates? {
      RotateKeeps(s, out.id, newToken, expiresAt);
    } else if out.Reused? {
      RevokeKeeps(s, OfFamily(s.sessions[out.id].family));
    }
  }

  lemma RotateTokenKeeps(s: State, token: string, newToken: string, expiresAt: int)
    requires Inv(s) && Fresh(s, newToken)
    ensures Inv(DoRotateToken(s, token, newToken, expiresAt))
  {
    FindFinds(s, token);
    if Rotatable(s, token).Some? { RotateKeeps(s, Rotatable(s, token).value, newToken, expiresAt); }
  }

  /** Deleting rows and time passing leave the history as it is. */
  lemma SameHistoryKeeps(s: State, s': State)
    requires Inv(s) && s' == s.(gone := s'.gone, now := s'.now) && s'.gone <= s'.sessions.Keys
    ensures Inv(s')
  {
    forall f, id | InChain(s', f, id) ensures id in s'.sessions && s'.sessions[id].family == f {
      assert InChain(s, f, id);
    }
    forall id | id in s'.sessions ensures id < s'.nextId && InChain(s', s'.sessions[id].family, id) {
      assert InChain(s, s.sessions[id].family, id);
    }
  }

  lemma StepKeeps(s: State, step: Step)
    requires Inv(s) && Enabled(s, step)
    ensures Inv(Apply(s, step))
  {
    match step
    case Login(user, family, token, ttl, twoFactor) => LoginKeeps(s, user, family, token, ttl, twoFactor);
    case Refresh(token, newToken, ttl) => RefreshKeeps(s, token, newToken, ttl);
    case RotateToken(token, newToken, expiresAt) => RotateTokenKeeps(s, token, newToken, expiresAt);
    case Revoke(user, id) => RevokeKeeps(s, Own(user, id));
    case RevokeOthers(user, current) => RevokeKeeps(s, Others(user, current));
    case RevokeFamily(family) => RevokeKeeps(s, UnrevokedOf(family));
    case Logout(currentId, cookie) => RevokeKeeps(s, LoggedOut(currentId, cookie));
    case _ => SameHistoryKeeps(s, Apply(s, step));
  }

  lemma {:induction false} RunKeeps(s: State, steps: seq<Step>)
    requires Inv(s) && Possible(s, steps)
    ensures Inv(Final(s, steps))
    decreases |steps|
  {
    if steps != [] {
      StepKeeps(s, steps[0]);
      RunKeeps(Apply(s, steps[0]), steps[1..]);
    }
  }

  // ----- theorems ------------------------------------------------------------

  ghost predicate AtMostOneLive(s: State, family: string) {
    forall a, b :: Live(s, a) && Live(s, b) && s.sessions[a].family == s.sessions[b].family == family ==> a == b
  }

  lemma PathsHaveOneLive(s: State, family: string)
    requires Inv(s)
    ensures AtMostOneLive(s, family)
  {
    forall a, b | Live(s, a) && Live(s, b) && s.sessions[a].family == s.sessions[b].family == family ensures a == b {
      LiveIsLast(s, a);
      LiveIsLast(s, b);
    }
  }

  lemma LiveIsLast(s: State, id: nat)
    requires FamiliesArePaths(s) && Listed(s) && id in s.sessions
    ensures var c := ChainOf(s, s.sessions[id].family); id in c
    ensures var c := ChainOf(s, s.sessions[id].family); !Revoked(s.sessions[id]) ==> id == c[|c| - 1]
    ensures s.sessions[id].replacedBy.Some? ==> Revoked(s.sessions[id])
  {
    var f := s.sessions[id].family;
    assert InChain(s, f, id);
    OnlyTheLast(s.sessions, s.chains[f], OriginOf(s.sessions[s.chains[f][0]]), id);
  }

  /** Over every run, the sessions ever created in a family form one acyclic `replacedBy` path whose replaced sessions
      are all revoked and whose sessions share user and two-factor state, and at most one of them is live. */
  lemma {:induction false} EveryFamilyIsAPath(steps: seq<Step>, family: string)
    requires Possible(Init, steps)
    ensures var s := Final(Init, steps);
      && (family in s.chains ==> IsPath(s.sessions, s.chains[family], family))
      && (forall i, j :: 0 <= i < j < |ChainOf(s, family)| ==> ChainOf(s, family)[i] < ChainOf(s, family)[j])
      && (forall id :: id in s.sessions && s.sessions[id].family == family ==> InChain(s, family, id))
      && AtMostOneLive(s, family)
  {
    RunKeeps(Init, steps);
    var s := Final(Init, steps);
    PathsHaveOneLive(s, family);
    forall i, j | 0 <= i < j < |ChainOf(s, family)| ensures ChainOf(s, family)[i] < ChainOf(s, family)[j] {
      PathsGrow(s.sessions, s.chains[family], OriginOf(s.sessions[s.chains[family][0]]), i, j);
    }
  }

  /** No session of the family can ever be refreshed. */
  ghost predicate Dead(s: State, family: string) {
    && family in s.chains
    && forall id :: id in s.sessions && s.sessions[id].family == family ==> id in s.gone || Revoked(s.sessions[id])
  }

  /** Presenting an unexpired token whose session is revoked or replaced kills its family. */
  lemma ReuseKillsFamily(s: State, token: string, newToken: string, ttl: nat, id: nat)
    requires Listed(s) && TokensDistinct(s)
    requires Present(s, id) && s.sessions[id].token == token && s.sessions[id].expiresAt >= s.now
    requires Revoked(s.sessions[id]) || s.sessions[id].replacedBy.Some?
    ensures Dead(DoRefresh(s, token, newToken, ttl), s.sessions[id].family)
  {
    assert OutcomeOf(s, token) == Reused(id) by { FoundAgain(s, id); }
    var s' := RevokeWhere(s, OfFamily(s.sessions[id].family));
    assert DoRefresh(s, token, newToken, ttl) == s';
    RevokingFamilyKills(s, id);
  }

  lemma RevokingFamilyKills(s: State, id: nat)
    requires Listed(s) && Present(s, id)
    ensures Dead(RevokeWhere(s, OfFamily(s.sessions[id].family)), s.sessions[id].family)
  {
    assert InChain(s, s.sessions[id].family, id);
  }

  /** The token of a session in the collection finds that session. */
  lemma FoundAgain(s: State, id: nat)
    requires Listed(s) && TokensDistinct(s) && Present(s, id)
    ensures Find(s, s.sessions[id].token) == Some(id)
  {
    FindFinds(s, s.sessions[id].token);
  }

  lemma RevokeKeepsDead(s: State, p: (nat, Session) -> bool, family: string)
    requires Dead(s, family)
    ensures Dead(RevokeWhere(s, p), family)
  {
  }

  lemma RotateKeepsDead(s: State, id: nat, token: string, expiresAt: int, family: string)
    requires Dead(s, family) && Live(s, id)
    ensures Dead(Rotate(s, id, token, expiresAt), family)
  {
  }

  lemma RefreshKeepsDead(s: State, token: string, newToken: string, ttl: nat, family: string)
    requires Dead(s, family)
    ensures Dead(DoRefresh(s, token, newToken, ttl), family)
  {
    FindFinds(s, token);
    RefreshCases(s, token, newToken, ttl);
    var out := OutcomeOf(s, token);
    if out.Rotates? {
      RotateKeepsDead(s, out.id, newToken, s.now + ttl, family);
    } else if out.Reused? {
      RevokeKeepsDead(s, OfFamily(s.sessions[out.id].family), family);
    }
  }

  lemma RotateTokenKeepsDead(s: State, token: string, newToken: string, expiresAt: int, family: string)
    requires Dead(s, family)
    ensures Dead(DoRotateToken(s, token, newToken, expiresAt), family)
  {
    FindFinds(s, token);
    if Rotatable(s, token).Some? { RotateKeepsDead(s, Rotatable(s, token).value, newToken, expiresAt, family); }
  }

  lemma DeadStays(s: State, step: Step, family: string)
    requires Dead(s, family) && Enabled(s, step)
    ensures Dead(Apply(s, step), family)
  {
    match step
    case Refresh(token, newToken, ttl) => RefreshKeepsDead(s, token, newToken, ttl, family);
    case RotateToken(token, newToken, expiresAt) => RotateTokenKeepsDead(s, token, newToken, expiresAt, family);
    case Revoke(user, id) => RevokeKeepsDead(s, Own(user, id), family);
    case RevokeOthers(user, current) => RevokeKeepsDead(s, Others(user, current), family);
    case RevokeFamily(f) => RevokeKeepsDead(s, UnrevokedOf(f), family);
    case Logout(currentId, cookie) => RevokeKeepsDead(s, LoggedOut(currentId, cookie), family);
    case _ =>
  }

  /** A dead family stays dead: no login, refresh, rotation, revocation or logout ever yields a live session in it. */
  lemma {:induction false} DeadForever(s: State, steps: seq<Step>, family: string)
    requires Possible(s, steps) && Dead(s, family)
    ensures Dead(Final(s, steps), family)
    ensures forall id :: Live(Final(s, steps), id) ==> Final(s, steps).sessions[id].family != family
    decreases |steps|
  {
    if steps != [] {
      DeadStays(s, steps[0], family);
      DeadForever(Apply(s, steps[0]), steps[1..], family);
    }
  }

  // ----- a token rotates once ------------------------------------------------

  /** A revoked session stays revoked under its token. */
  predicate Spent(s: State, id: nat, token: string) {
    id in s.sessions && s.sessions[id].token == token && Revoked(s.sessions[id])
  }

  lemma SpentStays(s: State, step: Step, id: nat, token: string)
    requires Listed(s) && Spent(s, id, token) && Enabled(s, step)
    ensures Spent(Apply(s, step), id, token)
  {
  }

  /** Once a session is revoked, by rotation or otherwise, its token never rotates again, in either implementation:
      a refresh token is good for one rotation over the whole run. */
  lemma {:induction false} TokenRotatesOnce(s: State, steps: seq<Step>, id: nat)
    requires Inv(s) && Possible(s, steps) && id in s.sessions && Revoked(s.sessions[id])
    ensures var s', token := Final(s, steps), s.sessions[id].token;
      Spent(s', id, token) && !OutcomeOf(s', token).Rotates? && Rotatable(s', token).None?
    decreases |steps|
  {
    var token := s.sessions[id].token;
    if steps == [] {
      FindFinds(s, token);
    } else {
      StepKeeps(s, steps[0]);
      SpentStays(s, steps[0], id, token);
      TokenRotatesOnce(Apply(s, steps[0]), steps[1..], id);
    }
  }

  // ----- signing out ---------------------------------------------------------

  /** A revocation stamps the rows it is for with the time, and leaves every other row as it is. */
  lemma RevokeEndsExactly(s: State, p: (nat, Session) -> bool, id: nat)
    ensures Live(RevokeWhere(s, p), id) <==> Live(s, id) && !p(id, s.sessions[id])
    ensures id in s.sessions ==>
      RevokeWhere(s, p).sessions[id] ==
        if Present(s, id) && p(id, s.sessions[id]) then s.sessions[id].(revokedAt := Some(s.now)) else s.sessions[id]
  {
  }

  /** Exactly which sessions stay live after each way of signing out; nothing becomes live. */
  lemma SigningOutEndsExactly(s: State, id: nat, user: string, target: nat, current: Option<nat>,
                              cookie: Option<string>, family: string)
    ensures Live(RevokeWhere(s, Own(user, target)), id) <==>
      Live(s, id) && !(id == target && s.sessions[id].user == user)
    ensures Live(RevokeWhere(s, Others(user, target)), id) <==>
      Live(s, id) && (id == target || s.sessions[id].user != user)
    ensures Live(RevokeWhere(s, LoggedOut(current, cookie)), id) <==>
      Live(s, id) && current != Some(id) && cookie != Some(s.sessions[id].token)
    ensures Live(RevokeWhere(s, UnrevokedOf(family)), id) <==> Live(s, id) && s.sessions[id].family != family
    ensures Live(DoChangePassword(s, user, current), id) <==>
      Live(s, id) && (current == Some(id) || s.sessions[id].user != user)
  {
    RevokeEndsExactly(s, Own(user, target), id);
    RevokeEndsExactly(s, Others(user, target), id);
    RevokeEndsExactly(s, LoggedOut(current, cookie), id);
    RevokeEndsExactly(s, UnrevokedOf(family), id);
  }

  // ----- the two implementations ---------------------------------------------

  /** The repository's reuse check looks at `replacedBy` alone. */
  function DetectReuse(s: State, token: string): bool {
    match Find(s, token)
    case None => false
    case Some(id) => id in s.sessions && s.sessions[id].replacedBy.Some?
  }

  /** On an unexpired session the two reuse checks differ exactly when it was revoked without being replaced. */
  lemma ReuseChecksDifferExactlyWhen(s: State, id: nat)
    requires Inv(s) && Present(s, id) && s.sessions[id].expiresAt >= s.now
    ensures (OutcomeOf(s, s.sessions[id].token).Reused? != DetectReuse(s, s.sessions[id].token)) <==>
      Revoked(s.sessions[id]) && s.sessions[id].replacedBy.None?
  {
    FoundAgain(s, id);
  }

  /** The controller and the repository rotate the same tokens, to the same state, except that the repository also
      rotates expired sessions that are not deleted yet. */
  lemma RotationsAgreeExactlyWhen(s: State, id: nat, newToken: string, ttl: nat)
    requires Inv(s) && Present(s, id)
    ensures var token := s.sessions[id].token;
      && ((OutcomeOf(s, token).Rotates? == Rotatable(s, token).Some?) <==>
            Revoked(s.sessions[id]) || s.sessions[id].expiresAt >= s.now)
      && (OutcomeOf(s, token).Rotates? ==>
            DoRefresh(s, token, newToken, ttl) == DoRotateToken(s, token, newToken, s.now + ttl))
  {
    FoundAgain(s, id);
    LiveIsLast(s, id);
  }

  // ----- overlapped refreshes ------------------------------------------------

  /** The writes of a refresh that read session `id` earlier keep its family to one live session if and only if no other
      session of the family is live by then. */
  lemma LateRotationIsSafeExactlyWhen(s: State, id: nat, token: string, expiresAt: int)
    requires Listed(s) && Present(s, id)
    ensures AtMostOneLive(Rotate(s, id, token, expiresAt), s.sessions[id].family) <==>
      forall other :: other != id && Live(s, other) ==> s.sessions[other].family != s.sessions[id].family
  {
    var s' := Rotate(s, id, token, expiresAt);
    var f := s.sessions[id].family;
    assert Live(s', s.nextId) && s'.sessions[s.nextId].family == f;
    forall other | other != id && Live(s, other) ensures other != s.nextId && Live(s', other) {
    }
    if forall other :: other != id && Live(s, other) ==> s.sessions[other].family != f {
      forall a | Live(s', a) && s'.sessions[a].family == f ensures a == s.nextId {
        assert a != s.nextId && a != id ==> Live(s, a);
      }
    } else {
      var other :| other != id && Live(s, other) && s.sessions[other].family == f;
      assert Live(s', other) && s'.sessions[other].family == f;
    }
  }

  /** Two overlapped refreshes of one token: both read the live session before either writes, and the family forks. */
  lemma OverlappedRefreshesFork(s: State, id: nat, token1: string, token2: string, expiresAt: int)
    requires Listed(s) && Live(s, id)
    ensures var s' := Rotate(Rotate(s, id, token1, expiresAt), id, token2, expiresAt);
      && Live(s', s.nextId) && Live(s', s.nextId + 1)
      && s'.sessions[s.nextId].family == s'.sessions[s.nextId + 1].family == s.sessions[id].family
  {
  }
}
