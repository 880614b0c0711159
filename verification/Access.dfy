/** Frozen accounts: no live credential, and frozen while any refund is at risk. */
module Access {
  import opened Schema
  import opened Identity
  import opened Machine
  import opened Moves

  ghost predicate AccessSound(db: Tables) {
    && (forall f | 0 <= f < |db.refunds| :: db.refunds[f].status.Risk? ==> IsFrozen(db, db.refunds[f].user))
    && (forall k | 0 <= k < |db.keys| :: db.keys[k].active ==> !IsFrozen(db, db.keys[k].user))
    && (forall s | 0 <= s < |db.sessions| :: !db.sessions[s].revoked ==> !IsFrozen(db, db.sessions[s].user))
    && (forall t | 0 <= t < |db.resets| :: !db.resets[t].consumed ==> !IsFrozen(db, db.resets[t].user))
  }

  lemma CredentialStepKeepsAccess(db: Tables, c: AccountCommand)
    requires Linked(db) && AccessSound(db) && !c.DoUnfreeze? && !c.DoFreeze? && !c.DoRegister?
    ensures AccessSound(AccountStep(db, c).db)
  {
  }

  lemma RegisterKeepsAccess(db: Tables, v: bool)
    requires Linked(db) && AccessSound(db)
    ensures AccessSound(Register(db, v).db)
  {
  }

  lemma FreezeKeepsAccess(db: Tables, user: nat)
    requires AccessSound(db)
    ensures AccessSound(FreezeUser(db, user))
    ensures user < |db.users| ==> IsFrozen(FreezeUser(db, user), user)
  {
  }

  lemma UnfreezeKeepsAccess(db: Tables, user: nat)
    requires Linked(db) && AccessSound(db)
    ensures AccessSound(Unfreeze(db, user).db)
  {
    if Unfreeze(db, user).out.Ok? {
      assert !HasRisk(db.refunds, user);
    }
  }

  lemma AccountKeepsAccess(db: Tables, c: AccountCommand)
    requires Linked(db) && AccessSound(db)
    ensures AccessSound(AccountStep(db, c).db)
  {
    match c
    case DoRegister(v) => RegisterKeepsAccess(db, v);
    case DoFreeze(u) => FreezeKeepsAccess(db, u);
    case DoUnfreeze(u) => UnfreezeKeepsAccess(db, u);
    case _ => CredentialStepKeepsAccess(db, c);
  }

  lemma ReversalKeepsAccess(db: Tables, m: Move)
    requires Linked(db) && AccessSound(db) && m.Reversal? && Legal(db, m)
    ensures AccessSound(Make(db, m))
  {
    assert OrderLinked(db.orders[m.o], db);
    FreezeKeepsAccess(db, db.orders[m.o].user);
  }

  lemma AccessKept(db: Tables, m: Move)
    requires Linked(db) && AccessSound(db) && Legal(db, m)
    ensures AccessSound(Make(db, m))
  {
    if m.Reversal? { ReversalKeepsAccess(db, m); }
  }
}
