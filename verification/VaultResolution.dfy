/** What each competing writer does to the secret an owner resolves to. */
module VaultResolution {
  import opened Basics
  import opened Tables
  import opened CredentialSpec
  import opened VaultInvariant

  /** The same owners resolve to the same secrets. */
  ghost predicate SameResolution(db: Db, after: Db) {
    && after.owners.Keys == db.owners.Keys
    && forall o :: o in db.owners ==> Resolve(after, o) == Resolve(db, o)
  }

  /** One owner resolves to a new secret, every other one as before. */
  ghost predicate ResolvesAnew(db: Db, after: Db, who: Owner, secret: Material) {
    && after.owners.Keys == db.owners.Keys + {who}
    && Resolve(after, who) == Some(secret)
    && forall o :: o in db.owners && o != who ==> Resolve(after, o) == Resolve(db, o)
  }

  lemma OtherResolves(db: Db, after: Db, o: Owner)
    requires o in db.owners && o in after.owners
    requires after.owners[o].reference == db.owners[o].reference && after.owners[o].auth == db.owners[o].auth
    requires after.owners[o].legacy == db.owners[o].legacy
    requires var r := db.owners[o].reference; r != 0 ==> r in db.versions && r in after.versions && after.versions[r] == db.versions[r]
    ensures Resolve(after, o) == Resolve(db, o)
  {
  }

  lemma PersistResolves(db: Db, owner: Owner, auth: AuthType, secret: Material, previous: nat, newVersion: nat)
    requires 0 !in db.versions && owner in db.owners && OthersActive(db, owner)
    ensures var c := Persist(db, owner, auth, secret, previous, newVersion);
      c.reply.Ok? ==> owner in c.db.owners && ResolvesAnew(db, WithAuth(c.db, owner, auth), owner, secret)
  {
    var c := Persist(db, owner, auth, secret, previous, newVersion);
    if c.reply.Ok? {
      var staged := Stage(db, owner, 0, secret, newVersion);
      PublishIsCompareAndSwap(staged, owner, auth, previous, newVersion);
      var after := WithAuth(c.db, owner, auth);
      forall o | o in db.owners && o != owner ensures Resolve(after, o) == Resolve(db, o) {
        OtherResolves(db, after, o);
      }
    }
  }

  lemma CreateResolves(db: Db, who: Owner, auth: AuthType, secret: Material, newVersion: nat)
    requires CredentialsOk(db)
    ensures var c := CreateOwner(db, who, auth, secret, newVersion);
      c.reply.Ok? ==> who !in db.owners && ResolvesAnew(db, c.db, who, secret)
  {
    var c := CreateOwner(db, who, auth, secret, newVersion);
    if c.reply.Ok? {
      var added := db.(owners := db.owners[who := OwnerRow(auth, None, 0, 0, false, true, 1, false)]);
      AddedKeeps(db, added, who);
      PersistResolves(added, who, auth, secret, 0, newVersion);
      PersistKeepsAuth(added, who, auth, secret, 0, newVersion);
      forall o | o in db.owners ensures Resolve(c.db, o) == Resolve(db, o) {
        OtherResolves(db, added, o);
      }
    }
  }

  lemma {:induction false} UpdateResolves(db: Db, who: Owner, edit: Edit, newVersion: nat)
    requires CredentialsOk(db)
    ensures var c := UpdateCredential(db, who, edit, newVersion);
      c.reply.Ok? ==>
        && who in db.owners
        && if edit.secret.None? then c.db == db else ResolvesAnew(db, c.db, who, edit.secret.value)
  {
    if UpdateCredential(db, who, edit, newVersion).reply.Ok? && edit.secret.Some? {
      PersistResolves(db, who, EditedAuth(db.owners[who], edit), edit.secret.value, db.owners[who].reference, newVersion);
    }
  }

  /** Adoption moves a legacy secret into a version without changing what it resolves to. */
  lemma {:induction false} AdoptResolves(db: Db, account: nat, newVersion: nat)
    requires CredentialsOk(db)
    ensures SameResolution(db, Adopt(db, account, newVersion).db)
  {
    var owner := Account(account);
    var c := Adopt(db, account, newVersion);
    if c.reply.Ok? {
      if db.owners[owner].reference == 0 {
        var secret := Resolve(db, owner).value;
        var auth := db.owners[owner].auth;
        var stored := Persist(db, owner, auth, secret, 0, newVersion).db;
        PersistResolves(db, owner, auth, secret, 0, newVersion);
        PersistKeepsAuth(db, owner, auth, secret, 0, newVersion);
        ManagementResolves(stored, owner);
      } else {
        ManagementResolves(db, owner);
      }
    }
  }

  lemma ManagementResolves(db: Db, owner: Owner)
    requires owner in db.owners
    ensures SameResolution(db, UnderManagement(db, owner))
  {
  }

  lemma RemoveManagementResolves(db: Db, account: nat, revision: nat)
    ensures SameResolution(db, RemoveManagement(db, account, revision).db)
  {
  }

  lemma SetEnabledResolves(db: Db, account: nat, revision: nat, enabled: bool, assetPresent: bool)
    ensures SameResolution(db, SetEnabled(db, account, revision, enabled, assetPresent).db)
  {
  }
}
