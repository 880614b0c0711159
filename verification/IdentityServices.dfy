/** The credential services as they run (app/services/identity.py and the account
    route of app/__init__.py). */
module IdentityServices {
  import opened Schema
  import opened Identity
  import opened Store

  // ----------------------------------------------------------------- bulk updates

  lemma ActiveKeysPrefix(keys: seq<ApiKey>, user: nat, i: nat)
    requires i < |keys|
    ensures ActiveKeys(keys[..i + 1], user) == ActiveKeys(keys[..i], user) + if keys[i].user == user && keys[i].active then 1 else 0
  {
    assert keys[..i + 1][..i] == keys[..i];
  }

  /** Revoke the user's active keys; how many rows changed. */
  method RevokeActiveKeys(session: Session, user: nat) returns (changed: nat)
    modifies session`keys
    ensures session.keys == RevokeKeys(old(session.keys), user)
    ensures changed == ActiveKeys(old(session.keys), user)
  {
    var rows := session.keys;
    changed := 0;
    for i := 0 to |rows|
      invariant rows == old(session.keys) && |session.keys| == |rows|
      invariant forall k | 0 <= k < i :: session.keys[k] == RevokeKeys(rows, user)[k]
      invariant forall k | i <= k < |rows| :: session.keys[k] == rows[k]
      invariant changed == ActiveKeys(rows[..i], user)
    {
      ActiveKeysPrefix(rows, user, i);
      var row := session.keys[i];
      if row.user == user && row.active {
        session.keys := session.keys[i := row.(active := false)];
        changed := changed + 1;
      }
    }
    assert rows[..|rows|] == rows;
    assert session.keys == RevokeKeys(rows, user);
  }

  method RevokeOpenSessions(session: Session, user: nat)
    modifies session`sessions
    ensures session.sessions == RevokeSessions(old(session.sessions), user)
  {
    var rows := session.sessions;
    for i := 0 to |rows|
      invariant rows == old(session.sessions) && |session.sessions| == |rows|
      invariant forall k | 0 <= k < i :: session.sessions[k] == RevokeSessions(rows, user)[k]
      invariant forall k | i <= k < |rows| :: session.sessions[k] == rows[k]
    {
      var row := session.sessions[i];
      if row.user == user && !row.revoked {
        session.sessions := session.sessions[i := row.(revoked := true)];
      }
    }
    assert session.sessions == RevokeSessions(rows, user);
  }

  method ConsumeResets(session: Session, user: nat)
    modifies session`resets
    ensures session.resets == ConsumeTokens(old(session.resets), user)
  {
    var rows := session.resets;
    for i := 0 to |rows|
      invariant rows == old(session.resets) && |session.resets| == |rows|
      invariant forall k | 0 <= k < i :: session.resets[k] == ConsumeTokens(rows, user)[k]
      invariant forall k | i <= k < |rows| :: session.resets[k] == rows[k]
    {
      var row := session.resets[i];
      if row.user == user && !row.consumed {
        session.resets := session.resets[i := row.(consumed := true)];
      }
    }
    assert session.resets == ConsumeTokens(rows, user);
  }

  method ConsumeVerifications(session: Session, user: nat)
    modifies session`verifications
    ensures session.verifications == ConsumeTokens(old(session.verifications), user)
  {
    var rows := session.verifications;
    for i := 0 to |rows|
      invariant rows == old(session.verifications) && |session.verifications| == |rows|
      invariant forall k | 0 <= k < i :: session.verifications[k] == ConsumeTokens(rows, user)[k]
      invariant forall k | i <= k < |rows| :: session.verifications[k] == rows[k]
    {
      var row := session.verifications[i];
      if row.user == user && !row.consumed {
        session.verifications := session.verifications[i := row.(consumed := true)];
      }
    }
    assert session.verifications == ConsumeTokens(rows, user);
  }

  // ----------------------------------------------------------------------- freeze

  /** `apply_user_freeze`: freeze the account and every credential, without a commit. */
  method ApplyUserFreeze(session: Session, user: nat) returns (revoked: nat)
    modifies session`users, session`keys, session`sessions, session`verifications, session`resets
    ensures session.View() == FreezeUser(old(session.View()), user)
    ensures revoked == if user < |old(session.users)| then ActiveKeys(old(session.keys), user) else 0
  {
    if user >= |session.users| { return 0; }
    session.users := session.users[user := session.users[user].(status := Frozen)];
    revoked := RevokeActiveKeys(session, user);
    RevokeOpenSessions(session, user);
    ConsumeVerifications(session, user);
    ConsumeResets(session, user);
  }

  /** `update_account_status`. */
  method UpdateAccountStatus(session: Session, user: nat, freeze: bool) returns (out: Outcome)
    requires session.Clean()
    modifies session
    ensures session.Clean()
    ensures Reply(session.committed, out)
            == if freeze then Freeze(old(session.committed), user) else Unfreeze(old(session.committed), user)
  {
    if user >= |session.users| { return Err(UserMissing); }
    var before := session.users[user].status;
    if freeze {
      var revoked := 0;
      if !before.Frozen? { revoked := ApplyUserFreeze(session, user); }
      out := Ok(Counted(revoked));
    } else {
      if !before.Frozen? { return Err(NotFrozen); }
      if !session.users[user].verified { return Err(Unverified); }
      if HasRisk(session.refunds, user) { return Err(UnresolvedRisk); }
      session.users := session.users[user := session.users[user].(status := Active)];
      out := Ok(Nothing);
    }
    session.Commit();
  }

  // ----------------------------------------------------------------------- tokens

  /** `issue_email_verification` up to its first commit. */
  method IssueEmailVerification(session: Session, user: nat, expiresAt: Time) returns (out: Outcome)
    requires session.Clean()
    modifies session
    ensures session.Clean()
    ensures Reply(session.committed, out) == IssueVerification(old(session.committed), user, expiresAt)
  {
    if user >= |session.users| { return Err(UserMissing); }
    ConsumeVerifications(session, user);
    out := Ok(Row(|session.verifications|));
    session.verifications := session.verifications + [OneTimeToken(user, false, expiresAt)];
    session.Commit();
  }

  /** `consume_email_verification`. */
  method ConsumeEmailVerification(session: Session, token: nat, now: Time) returns (out: Outcome)
    requires session.Clean()
    modifies session
    ensures session.Clean()
    ensures Reply(session.committed, out) == ConsumeVerification(old(session.committed), token, now)
  {
    out := Ok(Accepted(false));
    if token >= |session.verifications| || session.verifications[token].consumed { return; }
    var record := session.verifications[token];
    if record.expiresAt <= now { return; }
    if record.user >= |session.users| || !session.users[record.user].status.PendingEmail? {
      session.Rollback();
      return;
    }
    session.verifications := session.verifications[token := record.(consumed := true)];
    session.users := session.users[record.user := session.users[record.user].(status := Active)];
    session.users := session.users[record.user := session.users[record.user].(verified := true)];
    session.Commit();
    out := Ok(Accepted(true));
  }

  /** `request_password_reset` up to its first commit. */
  method RequestPasswordReset(session: Session, user: nat, expiresAt: Time) returns (out: Outcome)
    requires session.Clean()
    modifies session
    ensures session.Clean()
    ensures Reply(session.committed, out) == RequestReset(old(session.committed), user, expiresAt)
  {
    out := Ok(Nothing);
    if user >= |session.users| || !session.users[user].status.Active? {
      session.Rollback();
      return;
    }
    ConsumeResets(session, user);
    session.resets := session.resets + [OneTimeToken(user, false, expiresAt)];
    session.Commit();
  }

  /** `reset_password`: a spent token, and every session and key with it. */
  method ResetPasswordWith(session: Session, token: nat, passwordAcceptable: bool, now: Time) returns (out: Outcome)
    requires session.Clean()
    modifies session
    ensures session.Clean()
    ensures Reply(session.committed, out) == ResetPassword(old(session.committed), token, passwordAcceptable, now)
  {
    out := Ok(Accepted(false));
    if token >= |session.resets| || session.resets[token].consumed { session.Rollback(); return; }
    var record := session.resets[token];
    if record.expiresAt <= now { session.Rollback(); return; }
    if record.user >= |session.users| || !session.users[record.user].status.Active? {
      session.resets := session.resets[token := record.(consumed := true)];
      session.Commit();
      return;
    }
    if !passwordAcceptable { return Err(PasswordRejected); }
    session.resets := session.resets[token := record.(consumed := true)];
    RevokeOpenSessions(session, record.user);
    var _ := RevokeActiveKeys(session, record.user);
    session.Commit();
    out := Ok(Accepted(true));
  }

  /** `enforce_key_limit` and the insertion it guards. */
  method CreateApiKey(session: Session, user: nat, maxActiveKeys: int) returns (out: Outcome)
    requires session.Clean()
    modifies session
    ensures session.Clean()
    ensures Reply(session.committed, out) == CreateKey(old(session.committed), user, maxActiveKeys)
  {
    if maxActiveKeys < 1 { return Err(KeyLimitInvalid); }
    if user >= |session.users| || !session.users[user].status.Active? || !session.users[user].verified {
      return Err(Unverified);
    }
    var count := ActiveKeys(session.keys, user);
    if count >= maxActiveKeys { return Err(KeyLimitReached); }
    out := Ok(Row(|session.keys|));
    session.keys := session.keys + [ApiKey(user, true)];
    session.Commit();
  }
}
