/** Credentials over whole runs: what was revoked, ended or spent stays so; a token
    works once, in time and for its owner; and a frozen account has none, nor gets any
    back by being unfrozen. */
module Credentials {
  import opened Schema
  import opened Identity
  import opened Machine
  import opened Moves
  import opened Classify
  import opened Reachability

  // ---------------------------------------------------------- what is never undone

  predicate TokensNext(a: seq<OneTimeToken>, b: seq<OneTimeToken>) {
    && |a| <= |b|
    && forall i | 0 <= i < |a| :: b[i] == a[i] || b[i] == a[i].(consumed := true)
  }

  /** Credentials keep their owners and times, and do not come back to life. */
  ghost predicate CredentialsNext(a: Tables, b: Tables) {
    && |a.keys| <= |b.keys| && (forall i | 0 <= i < |a.keys| :: b.keys[i] == a.keys[i] || b.keys[i] == a.keys[i].(active := false))
    && |a.sessions| <= |b.sessions|
    && (forall i | 0 <= i < |a.sessions| :: b.sessions[i] == a.sessions[i] || b.sessions[i] == a.sessions[i].(revoked := true))
    && TokensNext(a.resets, b.resets) && TokensNext(a.verifications, b.verifications)
  }

  lemma FreezeNext(db: Tables, user: nat)
    ensures CredentialsNext(db, FreezeUser(db, user))
  {
  }

  lemma MoveNext(db: Tables, m: Move)
    requires Legal(db, m)
    ensures CredentialsNext(db, Make(db, m))
  {
    if m.Reversal? { FreezeNext(db, db.orders[m.o].user); }
  }

  lemma AccountNext(db: Tables, c: AccountCommand)
    ensures CredentialsNext(db, AccountStep(db, c).db)
  {
    if c.DoFreeze? { FreezeNext(db, c.frozenUser); }
  }

  lemma StepNext(db: Tables, c: Command)
    requires Linked(db)
    ensures CredentialsNext(db, Step(db, c).db)
  {
    match c
    case OnAccount(a) => AccountNext(db, a);
    case OnMeter(a) =>
      var m := MeterIs(db, a);
      MoveNext(db, m);
    case OnPayment(a) =>
      var m := PaymentIs(db, a);
      MoveNext(db, m);
  }

  /** Over any run no key is active again, no session open again and no token unspent
      again, and none changes its owner or its time. */
  lemma {:induction false} RunNext(db: Tables, commands: seq<Command>)
    requires Reachable(db)
    ensures CredentialsNext(db, Run(db, commands))
    decreases |commands|
  {
    if |commands| > 0 {
      LinkedNow(db);
      StepNext(db, commands[0]);
      ReachableStep(db, commands[0]);
      RunNext(Step(db, commands[0]).db, commands[1..]);
      NextTransitive(db, Step(db, commands[0]).db, Run(Step(db, commands[0]).db, commands[1..]));
    }
  }

  lemma LinkedNow(db: Tables)
    requires Reachable(db)
    ensures Linked(db)
  {
    ReachableInvariant(db);
  }

  lemma NextTransitive(a: Tables, b: Tables, c: Tables)
    requires CredentialsNext(a, b) && CredentialsNext(b, c)
    ensures CredentialsNext(a, c)
  {
  }

  // ------------------------------------------------------------------- reset tokens

  /** The token exists, is unspent, and its time has not come. */
  predicate Good(tokens: seq<OneTimeToken>, token: nat, now: Time) {
    token < |tokens| && !tokens[token].consumed && now < tokens[token].expiresAt
  }

  /** A reset is accepted exactly for a good token of an active owner and an acceptable
      password; then the token is spent and every key and session of the owner dead. A
      good token of an owner who is not active is spent as well; nothing else changes
      anything. */
  lemma ResetIsAcceptedIff(db: Tables, token: nat, acceptable: bool, now: Time)
    ensures var reply := ResetPassword(db, token, acceptable, now);
            && (reply.out == Ok(Accepted(true))
                <==> Good(db.resets, token, now) && IsActive(db, db.resets[token].user) && acceptable)
            && (reply.out == Ok(Accepted(true)) ==> Ended(reply.db, |db.keys|, |db.sessions|, db.resets[token].user))
            && (Good(db.resets, token, now) && (acceptable || !IsActive(db, db.resets[token].user)) ==>
                  |reply.db.resets| == |db.resets| && reply.db.resets == db.resets[token := db.resets[token].(consumed := true)])
            && (!Good(db.resets, token, now) ==> reply == Reply(db, Ok(Accepted(false))))
            && (Good(db.resets, token, now) && IsActive(db, db.resets[token].user) && !acceptable ==> reply == Refuse(db, PasswordRejected))
  {
  }

  /** None of the first keys and sessions of the user is alive. */
  ghost predicate Ended(db: Tables, keys: nat, sessions: nat, user: nat) {
    && (forall i | 0 <= i < |db.keys| && i < keys :: db.keys[i].user == user ==> !db.keys[i].active)
    && (forall i | 0 <= i < |db.sessions| && i < sessions :: db.sessions[i].user == user ==> db.sessions[i].revoked)
  }

  /** A reset works once: after it, over any run, its token is refused whatever the
      clock says, and what it ended stays ended. */
  lemma ResetWorksOnce(db: Tables, token: nat, now: Time, commands: seq<Command>, acceptable: bool, at: Time)
    requires Reachable(db) && ResetPassword(db, token, true, now).out == Ok(Accepted(true))
    ensures var later := Run(ResetPassword(db, token, true, now).db, commands);
            && ResetPassword(later, token, acceptable, at) == Reply(later, Ok(Accepted(false)))
            && Ended(later, |db.keys|, |db.sessions|, db.resets[token].user)
  {
    var first := ResetPassword(db, token, true, now).db;
    ResetIsAcceptedIff(db, token, true, now);
    ReachableStep(db, OnAccount(DoResetPassword(token, true, now)));
    RunNext(first, commands);
    StaysEnded(first, Run(first, commands), |db.keys|, |db.sessions|, db.resets[token].user);
    SpentIsRefused(first.resets, Run(first, commands), token, acceptable, at);
  }

  lemma StaysEnded(a: Tables, b: Tables, keys: nat, sessions: nat, user: nat)
    requires CredentialsNext(a, b) && keys <= |a.keys| && sessions <= |a.sessions| && Ended(a, keys, sessions, user)
    ensures Ended(b, keys, sessions, user)
  {
  }

  lemma SpentIsRefused(resets: seq<OneTimeToken>, later: Tables, token: nat, acceptable: bool, at: Time)
    requires TokensNext(resets, later.resets) && token < |resets| && resets[token].consumed
    ensures ResetPassword(later, token, acceptable, at) == Reply(later, Ok(Accepted(false)))
  {
  }

  /** A newer reset token takes the place of the older ones for good, and works until
      its own time. */
  lemma NewResetReplacesOld(db: Tables, user: nat, expiresAt: Time, earlier: nat, commands: seq<Command>, acceptable: bool, at: Time)
    requires Reachable(db) && IsActive(db, user) && earlier < |db.resets| && db.resets[earlier].user == user
    ensures var first := RequestReset(db, user, expiresAt).db; var later := Run(first, commands);
            && first.resets[..|db.resets|] == ConsumeTokens(db.resets, user)
            && (Good(first.resets, |db.resets|, at) <==> at < expiresAt)
            && ResetPassword(later, earlier, acceptable, at) == Reply(later, Ok(Accepted(false)))
  {
    var first := RequestReset(db, user, expiresAt).db;
    ReachableStep(db, OnAccount(DoRequestReset(user, expiresAt)));
    RunNext(first, commands);
    SpentIsRefused(first.resets, Run(first, commands), earlier, acceptable, at);
  }

  // ------------------------------------------------------------------ verification

  /** An address is verified exactly by a good token of an account that waits for it;
      the account is then active and the token spent. Anything else changes nothing. */
  lemma AddressIsVerifiedIff(db: Tables, token: nat, now: Time)
    ensures var reply := ConsumeVerification(db, token, now);
            var granted := Good(db.verifications, token, now) && db.verifications[token].user < |db.users|
                           && db.users[db.verifications[token].user].status.PendingEmail?;
            && (granted ==> reply == Reply(db.(users := db.users[db.verifications[token].user := User(Active, true)],
                                               verifications := db.verifications[token := db.verifications[token].(consumed := true)]),
                                           Ok(Accepted(true))))
            && (!granted ==> reply == Reply(db, Ok(Accepted(false))))
  {
  }

  /** A newer verification token takes the place of the older ones for good. */
  lemma NewVerificationReplacesOld(db: Tables, user: nat, expiresAt: Time, earlier: nat, commands: seq<Command>, at: Time)
    requires Reachable(db) && user < |db.users| && earlier < |db.verifications| && db.verifications[earlier].user == user
    ensures var first := IssueVerification(db, user, expiresAt).db; var later := Run(first, commands);
            && first.verifications[..|db.verifications|] == ConsumeTokens(db.verifications, user)
            && (Good(first.verifications, |db.verifications|, at) <==> at < expiresAt)
            && ConsumeVerification(later, earlier, at) == Reply(later, Ok(Accepted(false)))
  {
    var first := IssueVerification(db, user, expiresAt).db;
    ReachableStep(db, OnAccount(DoIssueVerification(user, expiresAt)));
    RunNext(first, commands);
    UsedUpIsRefused(first.verifications, Run(first, commands), earlier, at);
  }

  lemma UsedUpIsRefused(tokens: seq<OneTimeToken>, later: Tables, token: nat, at: Time)
    requires TokensNext(tokens, later.verifications) && token < |tokens| && tokens[token].consumed
    ensures ConsumeVerification(later, token, at) == Reply(later, Ok(Accepted(false)))
  {
  }

  /** A token whose message was not delivered never works, and nothing else changes. */
  lemma CancelledNeverWorks(db: Tables, token: nat, commands: seq<Command>, at: Time, acceptable: bool)
    requires Reachable(db)
    ensures var first := CancelReset(db, token).db;
            && first == db.(resets := first.resets)
            && (token < |db.resets| ==>
                  && first.resets == db.resets[token := db.resets[token].(consumed := true)]
                  && ResetPassword(Run(first, commands), token, acceptable, at) == Reply(Run(first, commands), Ok(Accepted(false))))
    ensures var first := CancelVerification(db, token).db;
            && first == db.(verifications := first.verifications)
            && (token < |db.verifications| ==>
                  && first.verifications == db.verifications[token := db.verifications[token].(consumed := true)]
                  && ConsumeVerification(Run(first, commands), token, at) == Reply(Run(first, commands), Ok(Accepted(false))))
  {
    CancelledResetStays(db, token, commands, at, acceptable);
    CancelledVerificationStays(db, token, commands, at);
  }

  lemma CancelledResetStays(db: Tables, token: nat, commands: seq<Command>, at: Time, acceptable: bool)
    requires Reachable(db)
    ensures var first := CancelReset(db, token).db;
            token < |db.resets| ==>
              ResetPassword(Run(first, commands), token, acceptable, at) == Reply(Run(first, commands), Ok(Accepted(false)))
  {
    var first := CancelReset(db, token).db;
    ReachableStep(db, OnAccount(DoCancelReset(token)));
    RunNext(first, commands);
    if token < |db.resets| { SpentIsRefused(first.resets, Run(first, commands), token, acceptable, at); }
  }

  lemma CancelledVerificationStays(db: Tables, token: nat, commands: seq<Command>, at: Time)
    requires Reachable(db)
    ensures var first := CancelVerification(db, token).db;
            token < |db.verifications| ==>
              ConsumeVerification(Run(first, commands), token, at) == Reply(Run(first, commands), Ok(Accepted(false)))
  {
    var first := CancelVerification(db, token).db;
    ReachableStep(db, OnAccount(DoCancelVerification(token)));
    RunNext(first, commands);
    if token < |db.verifications| { UsedUpIsRefused(first.verifications, Run(first, commands), token, at); }
  }

  // ---------------------------------------------------------------------- sessions

  /** Registration makes an account that is active and verified, or waits for its
      address, with an empty wallet. */
  lemma RegisteredIs(db: Tables, requireVerification: bool)
    ensures Register(db, requireVerification)
            == Reply(db.(users := db.users + [User(if requireVerification then PendingEmail else Active, !requireVerification)],
                         wallets := db.wallets + [Wallet(0, 0)]),
                     Ok(Row(|db.users|)))
  {
  }

  /** A session is opened exactly for the right password of an active account, and a
      verified one where that is required; it lasts until its time. */
  lemma SessionIsOpenedIff(db: Tables, user: nat, passwordValid: bool, requireVerified: bool, expiresAt: Time)
    ensures var reply := Login(db, user, passwordValid, requireVerified, expiresAt);
            && (reply.out.Ok? <==> passwordValid && IsActive(db, user) && (requireVerified ==> db.users[user].verified))
            && (reply.out.Ok? ==> reply == Reply(db.(sessions := db.sessions + [AccessSession(user, false, expiresAt)]), Ok(Row(|db.sessions|))))
            && (reply.out.Err? ==> reply.db == db)
  {
  }

  /** Logging out everywhere ends every session of the user for good, and no other. */
  lemma LogoutEndsAll(db: Tables, user: nat, commands: seq<Command>)
    requires Reachable(db)
    ensures var first := LogoutAll(db, user).db;
            && first == db.(sessions := first.sessions) && |first.sessions| == |db.sessions|
            && (forall i | 0 <= i < |db.sessions| :: db.sessions[i].user != user ==> first.sessions[i] == db.sessions[i])
            && Ended(Run(first, commands), 0, |db.sessions|, user)
  {
    var first := LogoutAll(db, user).db;
    ReachableStep(db, OnAccount(DoLogoutAll(user)));
    RunNext(first, commands);
    StaysEnded(first, Run(first, commands), 0, |db.sessions|, user);
  }

  // -------------------------------------------------------------------------- keys

  /** A key is revoked exactly by its owner while it is active, and never active again. */
  lemma KeyIsRevokedIff(db: Tables, user: nat, key: nat, commands: seq<Command>)
    requires Reachable(db)
    ensures var reply := RevokeKey(db, user, key); var later := Run(reply.db, commands);
            && (reply.out.Ok? <==> key < |db.keys| && db.keys[key] == ApiKey(user, true))
            && (reply.out.Ok? ==> reply.db == db.(keys := db.keys[key := ApiKey(user, false)])
                                  && key < |later.keys| && later.keys[key] == ApiKey(user, false))
            && (reply.out.Err? ==> reply.db == db)
  {
    ReachableStep(db, OnAccount(DoRevokeKey(user, key)));
    RunNext(RevokeKey(db, user, key).db, commands);
  }

  /** A key is created exactly for a verified active account below its limit, which it
      then does not exceed. */
  lemma KeyIsCreatedIff(db: Tables, user: nat, limit: int)
    ensures var reply := CreateKey(db, user, limit); var active := CountRows(db.keys, (k: ApiKey) => k.user == user && k.active);
            && (reply.out.Ok? <==> IsActive(db, user) && db.users[user].verified && active < limit)
            && (reply.out.Ok? ==> reply.db == db.(keys := db.keys + [ApiKey(user, true)]) && ActiveKeys(reply.db.keys, user) == active + 1 <= limit)
            && (reply.out.Err? ==> reply.db == db && (reply.out.error == KeyLimitInvalid <==> limit < 1))
  {
    assert ActiveKeys(db.keys, user) == CountRows(db.keys, (k: ApiKey) => k.user == user && k.active);
    assert (db.keys + [ApiKey(user, true)])[..|db.keys|] == db.keys;
  }

  // ------------------------------------------------------------------------ freezes

  /** In a reachable state a frozen account has no active key, no open session and no
      reset token to use. */
  lemma FrozenHasNothing(db: Tables, user: nat, now: Time)
    requires Reachable(db) && IsFrozen(db, user)
    ensures Ended(db, |db.keys|, |db.sessions|, user)
    ensures forall t | 0 <= t < |db.resets| && db.resets[t].user == user :: !Good(db.resets, t, now)
  {
    ReachableInvariant(db);
  }

  /** A user's tokens, all spent; nobody else's have changed. */
  predicate Spent(before: seq<OneTimeToken>, after: seq<OneTimeToken>, user: nat) {
    && |after| == |before|
    && forall t | 0 <= t < |before| :: after[t] == if before[t].user == user then before[t].(consumed := true) else before[t]
  }

  /** Freezing an account that is not frozen shuts off its keys, sessions and tokens of
      both kinds and answers how many keys were active; nothing else changes, and a
      second time nothing does. */
  lemma FreezeShutsOff(db: Tables, user: nat)
    requires user < |db.users|
    ensures var reply := Freeze(db, user); var after := reply.db;
            && (db.users[user].status.Frozen? ==> reply == Reply(db, Ok(Counted(0))))
            && (!db.users[user].status.Frozen? ==>
                  && reply.out == Ok(Counted(CountRows(db.keys, (k: ApiKey) => k.user == user && k.active)))
                  && after.users == db.users[user := User(Frozen, db.users[user].verified)]
                  && Spent(db.resets, after.resets, user) && Spent(db.verifications, after.verifications, user)
                  && |after.keys| == |db.keys| && |after.sessions| == |db.sessions|
                  && (forall k | 0 <= k < |db.keys| ::
                        after.keys[k] == if db.keys[k].user == user then ApiKey(user, false) else db.keys[k])
                  && (forall s | 0 <= s < |db.sessions| ::
                        after.sessions[s] == if db.sessions[s].user == user then db.sessions[s].(revoked := true) else db.sessions[s])
                  && after == db.(users := after.users, keys := after.keys, sessions := after.sessions,
                                  resets := after.resets, verifications := after.verifications))
  {
    assert ActiveKeys(db.keys, user) == CountRows(db.keys, (k: ApiKey) => k.user == user && k.active);
  }

  /** An account is unfrozen exactly when it is frozen and verified and none of its
      refunds is at risk; it is then active, and still has nothing. */
  lemma UnfrozenIff(db: Tables, user: nat)
    requires Reachable(db)
    ensures var reply := Unfreeze(db, user);
            && (reply.out.Ok? <==> IsFrozen(db, user) && db.users[user].verified
                                   && forall f | 0 <= f < |db.refunds| :: !(db.refunds[f].user == user && db.refunds[f].status.Risk?))
            && (reply.out.Err? ==> reply.db == db)
            && (reply.out.Ok? ==> reply.db == db.(users := db.users[user := User(Active, true)])
                                  && Ended(reply.db, |db.keys|, |db.sessions|, user))
  {
    if IsFrozen(db, user) { FrozenHasNothing(db, user, 0); }
  }
}
