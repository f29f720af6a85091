/** User accounts and login sessions: registration's duplicate-email rule,
    login, and how a bearer token resolves to a user. */
module Accounts {
  import opened Common

  /** A user as the API returns it (without the password hash). */
  datatype User = User(id: Uuid, email: string, name: string, phone: Option<string>)

  /** A stored user: the user and the hash of their password. */
  datatype UserRecord = UserRecord(user: User, passwordHash: string)

  /** A login session: a bearer token and the user it belongs to. */
  datatype Session = Session(token: Uuid, userId: Uuid)

  /** What register and login return. */
  datatype UserResponse = UserResponse(user: User, token: Uuid)

  predicate EmailTaken(users: seq<UserRecord>, email: string) {
    exists k :: 0 <= k < |users| && users[k].user.email == email
  }

  /** The invariant registration maintains: no two users share an email. */
  predicate DistinctEmails(users: seq<UserRecord>) {
    forall i, j :: 0 <= i < j < |users| ==> users[i].user.email != users[j].user.email
  }

  predicate HasSession(sessions: seq<Session>, token: Uuid) {
    exists k :: 0 <= k < |sessions| && sessions[k].token == token
  }

  /** Fresh tokens make every session's token its own. */
  predicate DistinctTokens(sessions: seq<Session>) {
    forall i, j :: 0 <= i < j < |sessions| ==> sessions[i].token != sessions[j].token
  }

  /** Every session token was handed out before `bound`. */
  predicate TokensBelow(sessions: seq<Session>, bound: nat) {
    forall k :: 0 <= k < |sessions| ==> sessions[k].token < bound
  }

  lemma TokensBelowRaise(sessions: seq<Session>, bound: nat, bound': nat)
    requires TokensBelow(sessions, bound) && bound <= bound'
    ensures TokensBelow(sessions, bound')
  {
  }

  /** A session with a token not handed out before keeps tokens distinct. */
  lemma NewSessionKeepsTokensDistinct(sessions: seq<Session>, bound: nat, session: Session, bound': nat)
    requires DistinctTokens(sessions) && TokensBelow(sessions, bound)
    requires bound <= session.token < bound'
    ensures DistinctTokens(sessions + [session]) && TokensBelow(sessions + [session], bound')
  {
  }

  /** The user a lookup by email finds: the first one, or `|users|`. */
  function FindByEmail(users: seq<UserRecord>, email: string): (i: nat)
    ensures i <= |users|
    ensures i < |users| <==> EmailTaken(users, email)
    ensures i < |users| ==> users[i].user.email == email
    ensures forall k :: 0 <= k < i ==> users[k].user.email != email
  {
    FirstIndex(users, (u: UserRecord) => u.user.email == email)
  }

  /** With distinct emails, the user found by email is the only one with it. */
  lemma FindByEmailUnique(users: seq<UserRecord>, k: nat)
    requires DistinctEmails(users) && k < |users|
    ensures FindByEmail(users, users[k].user.email) == k
  {
  }

  /** The user a lookup by id finds: the first one, or `|users|`. */
  function FindById(users: seq<UserRecord>, id: Uuid): (i: nat)
    ensures i <= |users|
    ensures i < |users| ==> users[i].user.id == id
    ensures forall k :: 0 <= k < i ==> users[k].user.id != id
    ensures i == |users| ==> forall k :: 0 <= k < |users| ==> users[k].user.id != id
  {
    FirstIndex(users, (u: UserRecord) => u.user.id == id)
  }

  /** The session a lookup by token finds: the first one, or `|sessions|`. */
  function FindSession(sessions: seq<Session>, token: Uuid): (i: nat)
    ensures i <= |sessions|
    ensures i < |sessions| <==> HasSession(sessions, token)
    ensures i < |sessions| ==> sessions[i].token == token
    ensures forall k :: 0 <= k < i ==> sessions[k].token != token
  {
    FirstIndex(sessions, (s: Session) => s.token == token)
  }

  /** get_current_user: no token, an unknown token, or a session whose user
      no longer exists all give no user; otherwise the session's user. */
  function Authenticate(sessions: seq<Session>, users: seq<UserRecord>, token: Option<Uuid>): (u: Option<User>)
    ensures u.Some? <==> token.Some? && HasSession(sessions, token.value)
                          && exists k :: 0 <= k < |users| && users[k].user.id == sessions[FindSession(sessions, token.value)].userId
    ensures u.Some? ==> exists k :: 0 <= k < |sessions| && sessions[k] == Session(token.value, u.value.id)
    ensures u.Some? ==> exists k :: 0 <= k < |users| && users[k].user == u.value
  {
    if token.None? then None
    else
      var s := FindSession(sessions, token.value);
      if s == |sessions| then None
      else
        var i := FindById(users, sessions[s].userId);
        if i == |users| then None else Some(users[i].user)
  }

  /** Registering an email no user has keeps emails distinct. */
  lemma RegisterKeepsEmailsDistinct(users: seq<UserRecord>, record: UserRecord)
    requires DistinctEmails(users) && !EmailTaken(users, record.user.email)
    ensures DistinctEmails(users + [record])
  {
  }

  /** The sessions after logout's delete: the first session with the token
      is removed and the others stay in order. */
  function WithoutSession(sessions: seq<Session>, token: Uuid): (r: seq<Session>)
    ensures HasSession(sessions, token) ==> |r| == |sessions| - 1
    ensures !HasSession(sessions, token) ==> r == sessions
    ensures forall k :: 0 <= k < |r| ==> r[k] in sessions
    ensures HasSession(sessions, token) ==>
              multiset(r) + multiset{sessions[FindSession(sessions, token)]} == multiset(sessions)
    ensures HasSession(sessions, token) ==>
              var i := FindSession(sessions, token);
              && (forall k :: 0 <= k < i ==> r[k] == sessions[k])
              && (forall k :: i <= k < |r| ==> r[k] == sessions[k + 1])
    ensures DistinctTokens(sessions) ==> DistinctTokens(r) && !HasSession(r, token)
  {
    var i := FindSession(sessions, token);
    if i < |sessions| then
      DropSession(sessions, i);
      sessions[..i] + sessions[i + 1..]
    else sessions
  }

  /** Dropping the session at position `i` keeps the others in order and
      loses exactly that one. */
  lemma DropSession(sessions: seq<Session>, i: nat)
    requires i < |sessions|
    ensures var r := sessions[..i] + sessions[i + 1..];
            && |r| == |sessions| - 1
            && (forall k :: 0 <= k < i ==> r[k] == sessions[k])
            && (forall k :: i <= k < |r| ==> r[k] == sessions[k + 1])
            && multiset(r) + multiset{sessions[i]} == multiset(sessions)
  {
    assert sessions == sessions[..i] + [sessions[i]] + sessions[i + 1..];
  }

  /** Logout hands out no token. */
  lemma LogoutKeepsTokensBelow(sessions: seq<Session>, token: Uuid, bound: nat)
    requires TokensBelow(sessions, bound)
    ensures TokensBelow(WithoutSession(sessions, token), bound)
  {
  }

  /** After logout a token no longer authenticates anyone. */
  lemma LogoutRevokes(sessions: seq<Session>, users: seq<UserRecord>, token: Uuid)
    requires DistinctTokens(sessions)
    ensures Authenticate(WithoutSession(sessions, token), users, Some(token)).None?
  {
  }
}
