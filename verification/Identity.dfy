/** Accounts, credentials and freezes (app/services/identity.py and the account
    routes of app/__init__.py). */
module Identity {
  import opened Schema

  predicate IsActive(db: Tables, user: nat) {
    user < |db.users| && db.users[user].status.Active?
  }

  predicate IsFrozen(db: Tables, user: nat) {
    user < |db.users| && db.users[user].status.Frozen?
  }

  // -------------------------------------------------------- bulk row updates

  function RevokeKeys(keys: seq<ApiKey>, user: nat): (after: seq<ApiKey>)
    ensures |after| == |keys|
  {
    seq(|keys|, i requires 0 <= i < |keys| => if keys[i].user == user then keys[i].(active := false) else keys[i])
  }

  function RevokeSessions(sessions: seq<AccessSession>, user: nat): (after: seq<AccessSession>)
    ensures |after| == |sessions|
  {
    seq(|sessions|, i requires 0 <= i < |sessions| =>
      if sessions[i].user == user then sessions[i].(revoked := true) else sessions[i])
  }

  function ConsumeTokens(tokens: seq<OneTimeToken>, user: nat): (after: seq<OneTimeToken>)
    ensures |after| == |tokens|
  {
    seq(|tokens|, i requires 0 <= i < |tokens| =>
      if tokens[i].user == user then tokens[i].(consumed := true) else tokens[i])
  }

  function ActiveKeys(keys: seq<ApiKey>, user: nat): nat {
    CountRows(keys, (k: ApiKey) => k.user == user && k.active)
  }

  // ------------------------------------------------------------------ accounts

  /** Registration creates the account and its empty wallet together. */
  function Register(db: Tables, requireVerification: bool): Reply {
    var user := if requireVerification then User(PendingEmail, false) else User(Active, true);
    Reply(db.(users := db.users + [user], wallets := db.wallets + [Wallet(0, 0)]), Ok(Row(|db.users|)))
  }

  /** `login`, with the outcome of the password check given. */
  function Login(db: Tables, user: nat, passwordValid: bool, requireVerified: bool, expiresAt: Time): Reply {
    if !IsActive(db, user) || (requireVerified && !db.users[user].verified) || !passwordValid then
      Refuse(db, BadCredentials)
    else
      Reply(db.(sessions := db.sessions + [AccessSession(user, false, expiresAt)]), Ok(Row(|db.sessions|)))
  }

  function LogoutAll(db: Tables, user: nat): Reply {
    Reply(db.(sessions := RevokeSessions(db.sessions, user)), Ok(Nothing))
  }

  /** `enforce_key_limit` followed by the insertion of the key. */
  function CreateKey(db: Tables, user: nat, maxActiveKeys: int): Reply {
    if maxActiveKeys < 1 then Refuse(db, KeyLimitInvalid)
    else if !IsActive(db, user) || !db.users[user].verified then Refuse(db, Unverified)
    else if ActiveKeys(db.keys, user) >= maxActiveKeys then Refuse(db, KeyLimitReached)
    else Reply(db.(keys := db.keys + [ApiKey(user, true)]), Ok(Row(|db.keys|)))
  }

  function RevokeKey(db: Tables, user: nat, key: nat): Reply {
    if key >= |db.keys| || db.keys[key].user != user || !db.keys[key].active then Refuse(db, KeyMissing)
    else Reply(db.(keys := db.keys[key := db.keys[key].(active := false)]), Ok(Nothing))
  }

  // -------------------------------------------------------------------- tokens

  predicate Usable(tokens: seq<OneTimeToken>, token: nat, now: Time) {
    token < |tokens| && !tokens[token].consumed && now < tokens[token].expiresAt
  }

  /** `issue_email_verification` up to its first commit. */
  function IssueVerification(db: Tables, user: nat, expiresAt: Time): Reply {
    if user >= |db.users| then Refuse(db, UserMissing)
    else
      Reply(db.(verifications := ConsumeTokens(db.verifications, user) + [OneTimeToken(user, false, expiresAt)]),
            Ok(Row(|db.verifications|)))
  }

  /** `consume_email_verification`. */
  function ConsumeVerification(db: Tables, token: nat, now: Time): Reply {
    if !Usable(db.verifications, token, now) then Reply(db, Ok(Accepted(false)))
    else
      var user := db.verifications[token].user;
      if user >= |db.users| || !db.users[user].status.PendingEmail? then Reply(db, Ok(Accepted(false)))
      else
        Reply(db.(verifications := db.verifications[token := db.verifications[token].(consumed := true)],
                  users := db.users[user := User(Active, true)]),
              Ok(Accepted(true)))
  }

  /** `request_password_reset` up to its first commit; nobody learns whether the
      account exists. */
  function RequestReset(db: Tables, user: nat, expiresAt: Time): Reply {
    if !IsActive(db, user) then Reply(db, Ok(Nothing))
    else
      Reply(db.(resets := ConsumeTokens(db.resets, user) + [OneTimeToken(user, false, expiresAt)]), Ok(Nothing))
  }

  /** A token whose message could not be delivered is spent at once. */
  function CancelReset(db: Tables, token: nat): Reply {
    if token >= |db.resets| then Reply(db, Ok(Nothing))
    else Reply(db.(resets := db.resets[token := db.resets[token].(consumed := true)]), Ok(Nothing))
  }

  function CancelVerification(db: Tables, token: nat): Reply {
    if token >= |db.verifications| then Reply(db, Ok(Nothing))
    else
      Reply(db.(verifications := db.verifications[token := db.verifications[token].(consumed := true)]), Ok(Nothing))
  }

  /** `reset_password`: a global credential rotation. */
  function ResetPassword(db: Tables, token: nat, passwordAcceptable: bool, now: Time): Reply {
    if !Usable(db.resets, token, now) then Reply(db, Ok(Accepted(false)))
    else
      var user := db.resets[token].user;
      var spent := db.resets[token := db.resets[token].(consumed := true)];
      if !IsActive(db, user) then Reply(db.(resets := spent), Ok(Accepted(false)))
      else if !passwordAcceptable then Refuse(db, PasswordRejected)
      else
        Reply(db.(resets := spent, sessions := RevokeSessions(db.sessions, user), keys := RevokeKeys(db.keys, user)),
              Ok(Accepted(true)))
  }

  // -------------------------------------------------------------------- freeze

  /** `apply_user_freeze`: the account and every credential of its owner. */
  function FreezeUser(db: Tables, user: nat): Tables {
    if user >= |db.users| then db
    else
      db.(users := db.users[user := db.users[user].(status := Frozen)],
          keys := RevokeKeys(db.keys, user),
          sessions := RevokeSessions(db.sessions, user),
          verifications := ConsumeTokens(db.verifications, user),
          resets := ConsumeTokens(db.resets, user))
  }

  predicate HasRisk(refunds: seq<Refund>, user: nat) {
    Any(refunds, (r: Refund) => r.user == user && r.status.Risk?)
  }

  /** `update_account_status` with action "freeze". */
  function Freeze(db: Tables, user: nat): Reply {
    if user >= |db.users| then Refuse(db, UserMissing)
    else if db.users[user].status.Frozen? then Reply(db, Ok(Counted(0)))
    else Reply(FreezeUser(db, user), Ok(Counted(ActiveKeys(db.keys, user))))
  }

  /** `update_account_status` with action "unfreeze": credentials stay revoked. */
  function Unfreeze(db: Tables, user: nat): Reply {
    if user >= |db.users| then Refuse(db, UserMissing)
    else if !db.users[user].status.Frozen? then Refuse(db, NotFrozen)
    else if !db.users[user].verified then Refuse(db, Unverified)
    else if HasRisk(db.refunds, user) then Refuse(db, UnresolvedRisk)
    else Reply(db.(users := db.users[user := db.users[user].(status := Active)]), Ok(Nothing))
  }
}
