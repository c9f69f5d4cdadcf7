/** The session handlers over the stored rows, each tied to the step it is. */
module SessionStore {
  import opened Options
  import opened Sessions
  import opened SessionFamilies

  datatype Reply = Refused(status: int, message: string) | Tokens(id: nat)

  /** What the controller answers in each case. */
  function ReplyTo(s: State, token: Option<string>): Reply {
    match token
    case None => Refused(401, "No refresh token provided")
    case Some(t) =>
      match OutcomeOf(s, t)
      case Invalid => Refused(401, "Invalid refresh token")
      case Expired => Refused(401, "Refresh token expired")
      case Reused(_) => Refused(401, "Refresh token has been reused")
      case Rotates(_) => Tokens(s.nextId)
  }

  // ----- what a refresh does, said of the rows --------------------------------

  /** A row of the collection with this token. */
  predicate HasToken(s: State, id: nat, token: string) { Present(s, id) && s.sessions[id].token == token }

  predicate Unexpired(s: State, x: Session) { x.expiresAt >= s.now }

  predicate Unused(x: Session) { x.revokedAt.None? && x.replacedBy.None? }

  /** Row `id` is replaced by a new live one of the same user, family and two-factor state; no other row changes. */
  ghost predicate Replaced(s: State, s': State, id: nat, newToken: string, expiresAt: int)
    requires id in s.sessions
  {
    var x := s.sessions[id];
    && Live(s', s.nextId) && s'.sessions.Keys == s.sessions.Keys + {s.nextId}
    && s'.sessions[s.nextId] == Session(x.user, newToken, x.family, expiresAt, None, None, x.twoFactor)
    && s'.sessions[id] == x.(revokedAt := Some(s.now), replacedBy := Some(s.nextId))
    && forall other :: other in s.sessions && other != id ==> s'.sessions[other] == s.sessions[other]
  }

  /** Every row of the family in the collection is revoked, now, and no other row changes. */
  ghost predicate FamilyRevoked(s: State, s': State, family: string) {
    && s'.sessions.Keys == s.sessions.Keys
    && forall id :: id in s.sessions ==>
         s'.sessions[id] == if Present(s, id) && s.sessions[id].family == family
                            then s.sessions[id].(revokedAt := Some(s.now)) else s.sessions[id]
  }

  /** The answer, when row `id` has the token: an unexpired, unused one is replaced, good for `ttl`; an expired one
      changes nothing; any other revokes its family. */
  ghost predicate RefreshedRow(s: State, s': State, id: nat, newToken: string, ttl: nat, reply: Reply)
    requires id in s.sessions
  {
    var x := s.sessions[id];
    if !Unexpired(s, x) then reply == Refused(401, "Refresh token expired") && s' == s
    else if Unused(x) then reply == Tokens(s.nextId) && Replaced(s, s', id, newToken, s.now + ttl)
    else reply == Refused(401, "Refresh token has been reused") && FamilyRevoked(s, s', x.family)
  }

  /** The whole answer of a refresh: without a token, or with one that no row has, it is refused and changes nothing. */
  ghost predicate Refreshed(s: State, s': State, token: Option<string>, newToken: string, ttl: nat, reply: Reply) {
    && s'.gone == s.gone && s'.now == s.now
    && (token.None? ==> reply == Refused(401, "No refresh token provided") && s' == s)
    && (token.Some? && (forall id :: !HasToken(s, id, token.value)) ==>
          reply == Refused(401, "Invalid refresh token") && s' == s)
    && (token.Some? ==> forall id :: HasToken(s, id, token.value) ==> RefreshedRow(s, s', id, newToken, ttl, reply))
  }

  /** The session's state after a refresh. */
  function AfterRefresh(s: State, token: Option<string>, newToken: string, ttl: nat): State {
    if token.None? then s else DoRefresh(s, token.value, newToken, ttl)
  }

  lemma RotateReplaces(s: State, id: nat, newToken: string, expiresAt: int)
    requires Listed(s) && Present(s, id)
    ensures Replaced(s, Rotate(s, id, newToken, expiresAt), id, newToken, expiresAt)
    ensures Rotate(s, id, newToken, expiresAt).gone == s.gone && Rotate(s, id, newToken, expiresAt).now == s.now
  {
  }

  lemma RevokingFamily(s: State, family: string)
    ensures FamilyRevoked(s, RevokeWhere(s, OfFamily(family)), family)
  {
  }

  lemma OutcomeOfRow(s: State, id: nat)
    requires Listed(s) && TokensDistinct(s) && Present(s, id)
    ensures var x := s.sessions[id];
      OutcomeOf(s, x.token) ==
        if !Unexpired(s, x) then Expired else if Unused(x) then RefreshOutcome.Rotates(id) else Reused(id)
  {
    FoundAgain(s, id);
  }

  lemma CasesOfRow(s: State, s': State, id: nat, newToken: string, ttl: nat, out: RefreshOutcome, reply: Reply)
    requires id in s.sessions
    requires var x := s.sessions[id];
      out == if !Unexpired(s, x) then Expired else if Unused(x) then RefreshOutcome.Rotates(id) else Reused(id)
    requires out.Rotates? ==> reply == Tokens(s.nextId) && Replaced(s, s', id, newToken, s.now + ttl)
    requires out.Reused? ==>
      reply == Refused(401, "Refresh token has been reused") && FamilyRevoked(s, s', s.sessions[id].family)
    requires out.Expired? ==> reply == Refused(401, "Refresh token expired") && s' == s
    ensures RefreshedRow(s, s', id, newToken, ttl, reply)
  {
  }

  /** What a refresh does in each case, with the state after it named. */
  lemma CasesOfState(s: State, s': State, id: nat, newToken: string, ttl: nat, out: RefreshOutcome)
    requires Listed(s) && Present(s, id) && (out.Rotates? || out.Reused? ==> out.id == id)
    requires out.Rotates? ==> s' == Rotate(s, id, newToken, s.now + ttl)
    requires out.Reused? ==> s' == RevokeWhere(s, OfFamily(s.sessions[id].family))
    requires !out.Rotates? && !out.Reused? ==> s' == s
    ensures out.Rotates? ==> Replaced(s, s', id, newToken, s.now + ttl)
    ensures out.Reused? ==> FamilyRevoked(s, s', s.sessions[id].family)
    ensures s'.gone == s.gone && s'.now == s.now
  {
    if out.Rotates? {
      RotateReplaces(s, id, newToken, s.now + ttl);
    } else if out.Reused? {
      RevokingFamily(s, s.sessions[id].family);
    }
  }

  lemma RefreshOfRow(s: State, s': State, id: nat, newToken: string, ttl: nat)
    requires Listed(s) && TokensDistinct(s) && Present(s, id)
    requires s' == DoRefresh(s, s.sessions[id].token, newToken, ttl)
    ensures RefreshedRow(s, s', id, newToken, ttl, ReplyTo(s, Some(s.sessions[id].token)))
    ensures s'.gone == s.gone && s'.now == s.now
  {
    var token := s.sessions[id].token;
    OutcomeOfRow(s, id);
    RefreshCases(s, token, newToken, ttl);
    CasesOfState(s, s', id, newToken, ttl, OutcomeOf(s, token));
    CasesOfRow(s, s', id, newToken, ttl, OutcomeOf(s, token), ReplyTo(s, Some(token)));
  }

  lemma RefreshOfNothing(s: State, token: string, newToken: string, ttl: nat)
    requires Listed(s) && forall id :: !HasToken(s, id, token)
    ensures ReplyTo(s, Some(token)) == Refused(401, "Invalid refresh token") && DoRefresh(s, token, newToken, ttl) == s
  {
    FindFinds(s, token);
    if Find(s, token).Some? { assert HasToken(s, Find(s, token).value, token); }
  }

  /** Every answer of a refresh, and everything it changes, in terms of the rows. */
  lemma RefreshAnswersExactly(s: State, token: Option<string>, newToken: string, ttl: nat)
    requires Listed(s) && TokensDistinct(s)
    ensures Refreshed(s, AfterRefresh(s, token, newToken, ttl), token, newToken, ttl, ReplyTo(s, token))
  {
    if token.Some? {
      if id :| HasToken(s, id, token.value) {
        RefreshOfRow(s, AfterRefresh(s, token, newToken, ttl), id, newToken, ttl);
        OnlyRowWithToken(s, id, token.value);
      } else {
        RefreshOfNothing(s, token.value, newToken, ttl);
      }
    }
  }

  lemma OnlyRowWithToken(s: State, id: nat, token: string)
    requires TokensDistinct(s) && HasToken(s, id, token)
    ensures forall other :: HasToken(s, other, token) ==> other == id
  {
  }

  /** Tokens are handed out if and only if a row in the collection has the token, is unexpired, not revoked and not
      replaced. */
  lemma TokensExactlyWhen(s: State, token: Option<string>, newToken: string, ttl: nat)
    requires Listed(s) && TokensDistinct(s)
    ensures ReplyTo(s, token).Tokens? <==>
      token.Some? && exists id :: HasToken(s, id, token.value) && Unexpired(s, s.sessions[id]) && Unused(s.sessions[id])
    ensures !ReplyTo(s, token).Tokens? ==>
      ReplyTo(s, token).status == 401 && AfterRefresh(s, token, newToken, ttl).sessions.Keys == s.sessions.Keys
  {
    RefreshAnswersExactly(s, token, newToken, ttl);
    if token.Some? {
      if id :| HasToken(s, id, token.value) {
        assert RefreshedRow(s, AfterRefresh(s, token, newToken, ttl), id, newToken, ttl, ReplyTo(s, token));
        OnlyRowWithToken(s, id, token.value);
      }
    }
  }

  /** The repository's rotation: it replaces the row with the token if that is not revoked, whatever its expiry, and
      otherwise changes nothing. */
  lemma RotatesTokenExactly(s: State, id: nat, newToken: string, expiresAt: int)
    requires Listed(s) && TokensDistinct(s) && Present(s, id)
    ensures var x := s.sessions[id]; var s' := DoRotateToken(s, x.token, newToken, expiresAt);
      if x.revokedAt.None? then Rotatable(s, x.token) == Some(id) && Replaced(s, s', id, newToken, expiresAt)
      else Rotatable(s, x.token).None? && s' == s
  {
    FoundAgain(s, id);
    RotateReplaces(s, id, newToken, expiresAt);
  }

  lemma UnknownTokenRotatesNothing(s: State, token: string, newToken: string, expiresAt: int)
    requires Listed(s) && forall id :: !HasToken(s, id, token)
    ensures Rotatable(s, token).None? && DoRotateToken(s, token, newToken, expiresAt) == s
  {
    FindFinds(s, token);
    if Find(s, token).Some? { assert HasToken(s, Find(s, token).value, token); }
  }

  /** A login makes one live session, good for `ttl`, and changes no other. */
  lemma LoginMakesOneSession(s: State, user: string, family: string, token: string, ttl: nat, twoFactor: bool)
    requires Listed(s)
    ensures var s' := DoLogin(s, user, family, token, ttl, twoFactor);
      && s.nextId !in s.sessions && Live(s', s.nextId) && s'.sessions.Keys == s.sessions.Keys + {s.nextId}
      && s'.sessions[s.nextId] == Session(user, token, family, s.now + ttl, None, None, twoFactor)
      && (forall id :: id in s.sessions ==> s'.sessions[id] == s.sessions[id]) && s'.gone == s.gone
  {
  }

  ghost predicate Numbered(s: State) {
    && (forall id :: id in s.sessions ==> id < s.nextId)
    && (forall id :: id in s.gone ==> id in s.sessions)
  }

  class Store {
    /** The rows in the collection. */
    var rows: map<nat, Session>
    var nextId: nat
    var now: int
    /** History: every row ever created, the deleted ones, and the families' sessions in order. */
    ghost var all: map<nat, Session>
    ghost var gone: set<nat>
    ghost var chains: map<string, seq<nat>>

    ghost function View(): State
      reads this
    {
      State(all, gone, nextId, now, chains)
    }

    ghost predicate Valid()
      reads this
    {
      rows == Rows(View()) && Numbered(View())
    }

    constructor ()
      ensures Valid() && View() == Init
    {
      rows, nextId, now := map[], 0, 0;
      all, gone, chains := map[], {}, map[];
    }

    method FindOne(token: string) returns (id: Option<nat>)
      requires Valid()
      ensures id == Find(View(), token)
      ensures id.Some? ==> id.value in rows
    {
      id := FindRow(rows, token, nextId);
      FindFinds(View(), token);
    }

    method UpdateMany(p: (nat, Session) -> bool)
      requires Valid()
      modifies `rows, `all
      ensures Valid() && View() == RevokeWhere(old(View()), p)
    {
      rows := map id | id in rows :: if p(id, rows[id]) then RevokeRow(rows[id], now) else rows[id];
      all := RevokeWhere(View(), p).sessions;
    }

    /** `createSessionAndTokens`, the store's part. */
    method Login(user: string, family: string, token: string, ttl: nat, twoFactor: bool) returns (created: nat)
      requires Valid()
      modifies this
      ensures Valid() && View() == DoLogin(old(View()), user, family, token, ttl, twoFactor) && created == old(nextId)
    {
      created := nextId;
      var session := Session(user, token, family, now + ttl, None, None, twoFactor);
      rows := rows[created := session];
      nextId := nextId + 1;
      all, chains := all[created := session], chains[family := [created]];
    }

    /** Create the successor, then revoke and link the old row. */
    method RotateRow(id: nat, newToken: string, expiresAt: int)
      requires Valid() && id in rows
      modifies this
      ensures Valid() && View() == Rotate(old(View()), id, newToken, expiresAt)
    {
      ghost var was := View();
      var created := nextId;
      var rotated := rows[id];
      rows := rows[created := Successor(rotated, newToken, expiresAt)];
      nextId := nextId + 1;
      rows := rows[id := rows[id].(revokedAt := Some(now), replacedBy := Some(created))];
      all, chains := Rotate(was, id, newToken, expiresAt).sessions, Rotate(was, id, newToken, expiresAt).chains;
    }

    method Refresh(token: Option<string>, newToken: string, ttl: nat) returns (reply: Reply)
      requires Valid()
      modifies this
      ensures Valid() && reply == ReplyTo(old(View()), token)
      ensures View() == AfterRefresh(old(View()), token, newToken, ttl)
      ensures old(Listed(View()) && TokensDistinct(View())) ==>
        Refreshed(old(View()), View(), token, newToken, ttl, reply)
    {
      ghost var was := View();
      if Listed(was) && TokensDistinct(was) { RefreshAnswersExactly(was, token, newToken, ttl); }
      if token.None? { return Refused(401, "No refresh token provided"); }
      var found := FindOne(token.value);
      if found.None? { return Refused(401, "Invalid refresh token"); }
      var session := rows[found.value];
      if session.expiresAt < now { return Refused(401, "Refresh token expired"); }
      if session.revokedAt.Some? || session.replacedBy.Some? {
        UpdateMany(OfFamily(session.family));
        return Refused(401, "Refresh token has been reused");
      }
      reply := Tokens(nextId);
      RotateRow(found.value, newToken, now + ttl);
    }

    /** The repository's rotation. */
    method RotateToken(token: string, newToken: string, expiresAt: int) returns (created: Option<nat>)
      requires Valid()
      modifies this
      ensures Valid() && View() == DoRotateToken(old(View()), token, newToken, expiresAt)
      ensures created == if Rotatable(old(View()), token).Some? then Some(old(nextId)) else None
    {
      var found := FindOne(token);
      if found.None? || rows[found.value].revokedAt.Some? { return None; }
      created := Some(nextId);
      RotateRow(found.value, newToken, expiresAt);
    }

    method RevokeSession(user: string, id: nat) returns (reply: Option<Reply>)
      requires Valid()
      modifies `rows, `all
      ensures Valid() && View() == RevokeWhere(old(View()), Own(user, id))
      ensures reply == if Present(old(View()), id) && old(View()).sessions[id].user == user then None
                       else Some(Refused(404, "Session not found"))
    {
      if id !in rows || rows[id].user != user {
        reply := Some(Refused(404, "Session not found"));
        NothingToRevoke(View(), Own(user, id));
        return;
      }
      reply := None;
      UpdateMany(Own(user, id));
    }

    method RevokeAllOther(user: string, current: nat)
      requires Valid()
      modifies `rows, `all
      ensures Valid() && View() == RevokeWhere(old(View()), Others(user, current))
    {
      UpdateMany(Others(user, current));
    }

    /** The sign-out of a password change. */
    method DeleteOthers(user: string, kept: Option<nat>)
      requires Valid()
      modifies `rows, `gone
      ensures Valid() && View() == DoChangePassword(old(View()), user, kept)
    {
      rows := map id | id in rows && !(rows[id].user == user && kept != Some(id)) :: rows[id];
      gone := DoChangePassword(View(), user, kept).gone;
    }

    method Logout(currentId: Option<nat>, cookie: Option<string>)
      requires Valid()
      modifies `rows, `all
      ensures Valid() && View() == RevokeWhere(old(View()), LoggedOut(currentId, cookie))
    {
      ghost var was := View();
      if currentId.Some? {
        UpdateMany(LoggedOut(currentId, None));
      } else {
        NothingToRevoke(was, LoggedOut(None, None));
      }
      ghost var between := View();
      if cookie.Some? { UpdateMany(LoggedOut(None, cookie)); } else { NothingToRevoke(between, LoggedOut(None, None)); }
      LogoutInTwo(was, currentId, cookie);
    }
  }

  lemma NothingToRevoke(s: State, p: (nat, Session) -> bool)
    requires forall id :: Present(s, id) ==> !p(id, s.sessions[id])
    ensures RevokeWhere(s, p) == s
  {
  }

  /** Two updates at the same time are one, when neither looks at what the other changes. */
  lemma RevokedInTwo(s: State, p: (nat, Session) -> bool, q: (nat, Session) -> bool, both: (nat, Session) -> bool)
    requires forall id :: Present(s, id) ==> EitherRevokes(s, p, q, both, id)
    ensures RevokeWhere(RevokeWhere(s, p), q) == RevokeWhere(s, both)
  {
    var a, b := RevokeWhere(RevokeWhere(s, p), q).sessions, RevokeWhere(s, both).sessions;
    forall id | id in s.sessions ensures a[id] == b[id] {
      assert Present(s, id) ==> EitherRevokes(s, p, q, both, id);
    }
    assert a == b;
  }

  predicate EitherRevokes(s: State, p: (nat, Session) -> bool, q: (nat, Session) -> bool,
      both: (nat, Session) -> bool, id: nat)
    requires id in s.sessions
  {
    var x := s.sessions[id];
    && q(id, RevokeRow(x, s.now)) == q(id, x)
    && (both(id, x) <==> p(id, x) || q(id, x))
  }

  /** The two updates of a logout are one. */
  lemma LogoutInTwo(s: State, currentId: Option<nat>, cookie: Option<string>)
    ensures RevokeWhere(RevokeWhere(s, LoggedOut(currentId, None)), LoggedOut(None, cookie))
      == RevokeWhere(s, LoggedOut(currentId, cookie))
  {
    RevokedInTwo(s, LoggedOut(currentId, None), LoggedOut(None, cookie), LoggedOut(currentId, cookie));
  }
}
