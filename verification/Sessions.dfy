/** Refresh-token sessions: every session ever created, and what logins, refreshes, revocations and deletions do to
    them, one request at a time. */
module Sessions {
  import opened Options

  /** A session row; `token` stands for the hash of its refresh token. */
  datatype Session = Session(
    user: string,
    token: string,
    family: string,
    expiresAt: int,
    revokedAt: Option<int>,
    replacedBy: Option<nat>,
    twoFactor: bool)

  /** All rows by `_id`, including the deleted ones, which are listed in `gone` and keep their last value; `chains` is
      history, the sessions of each family in order of creation. */
  datatype State = State(
    sessions: map<nat, Session>,
    gone: set<nat>,
    nextId: nat,
    now: int,
    chains: map<string, seq<nat>>)

  const Init := State(map[], {}, 0, 0, map[])

  datatype Step =
    | Login(user: string, family: string, token: string, ttl: nat, twoFactor: bool)
    | Refresh(token: string, newToken: string, ttl: nat)
    | RotateToken(token: string, newToken: string, expiresAt: int)
    | Revoke(user: string, id: nat)
    | RevokeOthers(user: string, current: nat)
    | RevokeFamily(family: string)
    | Logout(currentId: Option<nat>, cookie: Option<string>)
    | ChangePassword(user: string, kept: Option<nat>)
    | Expire(id: nat)
    | Tick(ms: nat)

  datatype RefreshOutcome = Invalid | Expired | Reused(id: nat) | Rotates(id: nat)

  predicate Present(s: State, id: nat) { id in s.sessions && id !in s.gone }

  predicate Revoked(x: Session) { x.revokedAt.Some? }

  /** Presentable and not revoked. */
  predicate Live(s: State, id: nat) { Present(s, id) && !Revoked(s.sessions[id]) }

  predicate Fresh(s: State, token: string) {
    forall id :: id in s.sessions ==> s.sessions[id].token != token
  }

  /** Tokens are 32 random bytes and families random UUIDs: neither repeats. */
  predicate Enabled(s: State, step: Step) {
    match step
    case Login(_, family, token, _, _) => family !in s.chains && Fresh(s, token)
    case Refresh(_, newToken, _) => Fresh(s, newToken)
    case RotateToken(_, newToken, _) => Fresh(s, newToken)
    case Expire(id) => Present(s, id) && s.sessions[id].expiresAt <= s.now
    case _ => true
  }

  /** The rows that are in the collection. */
  function Rows(s: State): map<nat, Session> {
    map id | id in s.sessions && id !in s.gone :: s.sessions[id]
  }

  function FindRow(rows: map<nat, Session>, token: string, below: nat): Option<nat> {
    if below == 0 then None
    else if below - 1 in rows && rows[below - 1].token == token then Some(below - 1)
    else FindRow(rows, token, below - 1)
  }

  /** `findOne({ refreshTokenHash })`. */
  function Find(s: State, token: string): Option<nat> { FindRow(Rows(s), token, s.nextId) }

  /** Expiry is checked first, then reuse. */
  function OutcomeOf(s: State, token: string): RefreshOutcome {
    match Find(s, token)
    case None => Invalid
    case Some(id) =>
      if id !in s.sessions then Invalid
      else if s.sessions[id].expiresAt < s.now then Expired
      else if Revoked(s.sessions[id]) || s.sessions[id].replacedBy.Some? then Reused(id)
      else Rotates(id)
  }

  function RevokeRow(x: Session, now: int): Session { x.(revokedAt := Some(now)) }

  /** `updateMany` and `updateOne` of `revokedAt`, on the rows that are still there. */
  function RevokeWhere(s: State, p: (nat, Session) -> bool): State {
    s.(sessions := map id | id in s.sessions ::
         if id !in s.gone && p(id, s.sessions[id]) then RevokeRow(s.sessions[id], s.now) else s.sessions[id])
  }

  function Successor(x: Session, token: string, expiresAt: int): Session {
    Session(x.user, token, x.family, expiresAt, None, None, x.twoFactor)
  }

  function ChainOf(s: State, family: string): seq<nat> {
    if family in s.chains then s.chains[family] else []
  }

  /** Create the successor, then revoke the old session and link it. */
  function Rotate(s: State, id: nat, token: string, expiresAt: int): State
    requires id in s.sessions
  {
    var x := s.sessions[id];
    s.(sessions := s.sessions[id := x.(revokedAt := Some(s.now), replacedBy := Some(s.nextId))]
                             [s.nextId := Successor(x, token, expiresAt)],
       nextId := s.nextId + 1,
       chains := s.chains[x.family := ChainOf(s, x.family) + [s.nextId]])
  }

  function DoLogin(s: State, user: string, family: string, token: string, ttl: nat, twoFactor: bool): State {
    s.(sessions := s.sessions[s.nextId := Session(user, token, family, s.now + ttl, None, None, twoFactor)],
       nextId := s.nextId + 1,
       chains := s.chains[family := [s.nextId]])
  }

  function OfFamily(family: string): (nat, Session) -> bool { (id, x: Session) => x.family == family }

  function DoRefresh(s: State, token: string, newToken: string, ttl: nat): State {
    match OutcomeOf(s, token)
    case Rotates(id) => if id in s.sessions then Rotate(s, id, newToken, s.now + ttl) else s
    case Reused(id) => if id in s.sessions then RevokeWhere(s, OfFamily(s.sessions[id].family)) else s
    case _ => s
  }

  /** The repository's rotation: refused for a missing or revoked session, whatever its expiry. */
  function Rotatable(s: State, token: string): Option<nat> {
    match Find(s, token)
    case None => None
    case Some(id) => if id in s.sessions && !Revoked(s.sessions[id]) then Some(id) else None
  }

  function DoRotateToken(s: State, token: string, newToken: string, expiresAt: int): State {
    match Rotatable(s, token)
    case None => s
    case Some(id) => if id in s.sessions then Rotate(s, id, newToken, expiresAt) else s
  }

  function Own(user: string, target: nat): (nat, Session) -> bool {
    (id, x: Session) => id == target && x.user == user
  }

  function Others(user: string, current: nat): (nat, Session) -> bool {
    (id, x: Session) => x.user == user && id != current && !Revoked(x)
  }

  function UnrevokedOf(family: string): (nat, Session) -> bool {
    (id, x: Session) => x.family == family && !Revoked(x)
  }

  function LoggedOut(currentId: Option<nat>, cookie: Option<string>): (nat, Session) -> bool {
    (id, x: Session) => currentId == Some(id) || cookie == Some(x.token)
  }

  /** A password change deletes every other session of the user. */
  function DoChangePassword(s: State, user: string, kept: Option<nat>): State {
    s.(gone := s.gone + set id | id in s.sessions && s.sessions[id].user == user && kept != Some(id))
  }

  function Apply(s: State, step: Step): State
    requires Enabled(s, step)
  {
    match step
    case Login(user, family, token, ttl, twoFactor) => DoLogin(s, user, family, token, ttl, twoFactor)
    case Refresh(token, newToken, ttl) => DoRefresh(s, token, newToken, ttl)
    case RotateToken(token, newToken, expiresAt) => DoRotateToken(s, token, newToken, expiresAt)
    case Revoke(user, id) => RevokeWhere(s, Own(user, id))
    case RevokeOthers(user, current) => RevokeWhere(s, Others(user, current))
    case RevokeFamily(family) => RevokeWhere(s, UnrevokedOf(family))
    case Logout(currentId, cookie) => RevokeWhere(s, LoggedOut(currentId, cookie))
    case ChangePassword(user, kept) => DoChangePassword(s, user, kept)
    case Expire(id) => s.(gone := s.gone + {id})
    case Tick(ms) => s.(now := s.now + ms)
  }

  predicate Possible(s: State, steps: seq<Step>)
    decreases |steps|
  {
    steps != [] ==> Enabled(s, steps[0]) && Possible(Apply(s, steps[0]), steps[1..])
  }

  function Final(s: State, steps: seq<Step>): State
    requires Possible(s, steps)
    decreases |steps|
  {
    if steps == [] then s else Final(Apply(s, steps[0]), steps[1..])
  }
}
