/**
 What a reconcile of a User does to stored seeds.
 */
module UserSeeds {
  import opened Texts
  import opened Lifecycles
  import opened Errors
  import opened Secrets
  import opened ClusterState
  import opened SecretStages
  import opened UserController
  import opened UserTheorems
  import opened UserFixpoint

  /******* Where the secrets of a plan come from *******/

  ghost predicate FromJwtStage(c: Cluster, k: Key, x: UserOracle, p: UserPlan)
    requires k in c.users
  {
    exists want: Claims :: p.store == UserJwtOut(c, k, want, x).store && p.writes == UserJwtOut(c, k, want, x).writes
  }

  predicate FromCreds(c: Cluster, k: Key, p: UserPlan)
    requires k in c.users
  {
    var key := UserCredsKey(c, k);
    && p.exit == CredsWritten && p.writes == [SecretWritten(key)]
    && key in p.store && p.store == c.secrets[key := p.store[key]] && SeedKey !in p.store[key].data
    && (key in c.secrets ==> SetController(UserOwner(k, c.users[k]), c.secrets[key].owners).Some?)
  }

  predicate Untouched(c: Cluster, p: UserPlan) {
    p.store == c.secrets && p.exit != CredsWritten && (forall w :: w in p.writes ==> !w.SecretDeleted?)
  }

  // After the seed stage at most one secret changes: the JWT's or the credentials'.
  ghost predicate Traced(c: Cluster, k: Key, x: UserOracle, p: UserPlan)
    requires k in c.users
  {
    || Untouched(c, p)
    || (p.exit != CredsWritten && FromJwtStage(c, k, x, p))
    || FromCreds(c, k, p)
  }

  lemma CredsTraced(c: Cluster, k: Key, s: UserStatus, seed: Seed, jwt: Jwt, x: UserOracle)
    requires k in c.users
    ensures Untouched(c, UserCredsStage(c, k, s, seed, jwt, x)) || FromCreds(c, k, UserCredsStage(c, k, s, seed, jwt, x))
  {
    hide SetController, BuildCreds, UserStatus.Coupled, UserStatus.Ready;
    var o := UserOwner(k, c.users[k]);
    if UserCredsKey(c, k) !in c.secrets {
      if BuildCreds(EmptySecret, o, jwt, seed, x.creds).Some? { BuildCredsMeaning(EmptySecret, o, jwt, seed, x.creds); }
      hide UpdateCreds;
    } else {
      var got := c.secrets[UserCredsKey(c, k)];
      if BuildCreds(got, o, jwt, seed, x.creds).Some? { BuildCredsMeaning(got, o, jwt, seed, x.creds); }
      hide CreateCreds;
    }
  }

  lemma JwtTraced(c: Cluster, k: Key, s: UserStatus, seed: Seed, signer: Seed, acc: Account, x: UserOracle)
    requires k in c.users
    ensures Traced(c, k, x, StoreUserJWT(c, k, s, seed, signer, acc, x))
  {
    hide JwtStage, UserCredsStage, WantedUserClaims, FromCreds, Verdict, MarkUserJWT, UserStatus.Coupled, UserStatus.Ready;
    var want := WantedUserClaims(c, k, s, acc, signer, x);
    var out := UserJwtOut(c, k, want, x);
    if out.result.Ok? && out.writes == [] {
      CredsTraced(c, k, s.MarkJWTSecretReady(), seed, out.result.value, x);
    }
  }

  lemma LabelTraced(c: Cluster, k: Key, s: UserStatus, seed: Seed, issuer: KeyPairable, key: Key, acc: Account, x: UserOracle)
    requires k in c.users
    ensures Traced(c, k, x, UserLabelStage(c, k, s, seed, issuer, key, acc, x))
  {
    hide StoreUserJWT, LoadIssuerSeed, FromCreds, FromJwtStage, Verdict, MarkUserJWT, MarkUserIssuer, UserStatus.Coupled, UserStatus.Ready;
    match LoadIssuerSeed(c, issuer, PrefixAccount, x.issuerSeedOk)
    case Fail(_) =>
    case Ok(signer) => JwtTraced(c, k, s.MarkIssuerResolved(), seed, signer, acc, x);
  }

  lemma AccountTraced(c: Cluster, k: Key, s: UserStatus, seed: Seed, issuer: KeyPairable, x: UserOracle)
    requires Coupled(c) && k in c.users && (issuer.IssuerSigningKey? ==> issuer.signingKey.status.Coupled())
    ensures Traced(c, k, x, UserAccountStage(c, k, s, seed, issuer, x))
  {
    hide UserLabelStage, FindAccount, ValidateSelectors, FromCreds, FromJwtStage, Verdict, MarkAccount, UserStatus.Coupled, UserStatus.Ready;
    var found := FindAccount(c, issuer, x.ownerOk);
    if found.FoundAccount? {
      LabelTraced(c, k, s.MarkAccountResolved(found.key), seed, issuer, found.key, found.account, x);
    }
  }

  lemma IssuerTraced(c: Cluster, k: Key, s: UserStatus, seed: Seed, x: UserOracle)
    requires Coupled(c) && k in c.users
    ensures Traced(c, k, x, UserIssuerStage(c, k, s, seed, x))
  {
    hide UserAccountStage, FromCreds, FromJwtStage, Verdict, MarkUserIssuer, UserStatus.Coupled, UserStatus.Ready;
    var issuer := ResolveIssuer(c, c.users[k].spec.issuer, k.ns, x.issuerOk);
    if issuer.Ok? {
      IssuerOfKeyCoupled(c, c.users[k].spec.issuer, k.ns, x.issuerOk);
      AccountTraced(c, k, s, seed, issuer.value, x);
    }
    hide ResolveIssuer;
  }

  // The whole plan: the seed stage wrote, or nothing is amiss with the seed and the rest is traced.
  ghost predicate PlanTraced(c: Cluster, k: Key, x: UserOracle, p: UserPlan)
    requires k in c.users
  {
    var out := UserSeedStage(c, k, x);
    || Untouched(c, p)
    || (p.exit == UserSeedWritten && out.SeedReady? && p.store == out.store && forall w :: w in p.writes ==> !w.SecretDeleted?)
    || (out.SeedReady? && !out.wrote && Traced(c, k, x, p))
  }

  lemma StagesTraced(c: Cluster, k: Key, s: UserStatus, x: UserOracle)
    requires Coupled(c) && k in c.users
    ensures PlanTraced(c, k, x, UserStages(c, k, s, x))
  {
    hide UserIssuerStage, UserSeedStage, Traced, Verdict, MarkUserSeed, UserStatus.Coupled, UserStatus.Ready;
    var out := UserSeedStage(c, k, x);
    if out.SeedReady? && !out.wrote {
      IssuerTraced(c, k, s.MarkSeedSecretReady(out.keyPair), out.seed, x);
    }
  }

  /******* Guarded seeds *******/

  lemma CredsKeepGuarded(c: Cluster, k: Key, p: UserPlan, q: Key, seed: Seed)
    requires k in c.users && FromCreds(c, k, p) && GuardedSeed(c.secrets, q, seed)
    ensures GuardedSeed(p.store, q, seed)
  {
    if q == UserCredsKey(c, k) {
      // another object controls that secret, so the builder refuses it
      assert false;
    }
  }

  lemma TracedKeepsGuarded(c: Cluster, k: Key, x: UserOracle, p: UserPlan, q: Key, seed: Seed)
    requires k in c.users && PlanTraced(c, k, x, p) && GuardedSeed(c.secrets, q, seed)
    ensures GuardedSeed(p.store, q, seed)
  {
    hide GuardedSeed, JwtStage, SeedStage, FromCreds;
    var o := UserOwner(k, c.users[k]);
    if Untouched(c, p) {
    } else if p.exit == UserSeedWritten && UserSeedStage(c, k, x).SeedReady? && p.store == UserSeedStage(c, k, x).store {
      SeedStageKeepsSeeds(c.secrets, o, c.users[k].spec.seedSecretName, PrefixUser, false, x.seed, q, seed);
    } else if FromCreds(c, k, p) {
      CredsKeepGuarded(c, k, p, q, seed);
    } else {
      var want: Claims :| p.store == UserJwtOut(c, k, want, x).store && p.writes == UserJwtOut(c, k, want, x).writes;
      JwtStageKeepsSeeds(c.secrets, o, c.users[k].spec.jwtSecretName, want, Signed(want), x.jwt, q, seed);
    }
  }

  // No reconcile of a User harms the seed of an Operator or an Account, whatever names it uses.
  lemma UserStepKeepsGuarded(c: Cluster, k: Key, x: UserOracle, q: Key, seed: Seed)
    requires Coupled(c) && GuardedSeed(c.secrets, q, seed)
    ensures GuardedSeed(ReconcileUser(c, k, x).c.secrets, q, seed)
  {
    hide UserStages, GuardedSeed, PlanTraced, UserStatus.Coupled, UserStatus.Ready;
    if x.fetchOk && k in c.users {
      var s := c.users[k].status.InitializeConditions();
      StagesTraced(c, k, s, x);
      TracedKeepsGuarded(c, k, x, UserStages(c, k, s, x), q, seed);
    }
  }

  /******* Owned seeds *******/

  // This User is the holder, with its three names apart, or has another UID.
  predicate HolderOrOther(c: Cluster, k: Key, h: Holder, q: Key)
    requires k in c.users
  {
    if h.kind == KindUser && k == Key(q.ns, h.name) then
      c.users[k].uid == h.uid && q == UserSeedKey(c, k) && q != UserJwtKey(c, k) && q != UserCredsKey(c, k)
    else c.users[k].uid != h.uid
  }

  lemma CredsKeepOwned(c: Cluster, k: Key, p: UserPlan, h: Holder, q: Key, seed: Seed)
    requires k in c.users && FromCreds(c, k, p) && HolderOrOther(c, k, h, q) && OwnedSeed(c.secrets, q, seed, h)
    ensures OwnedSeed(p.store, q, seed, h)
  {
    if q == UserCredsKey(c, k) {
      // the builder admits only the User that controls the secret, whose names are apart
      assert false;
    }
  }

  lemma TracedKeepsOwned(c: Cluster, k: Key, x: UserOracle, p: UserPlan, h: Holder, q: Key, seed: Seed)
    requires k in c.users && PlanTraced(c, k, x, p) && HolderOrOther(c, k, h, q) && OwnedSeed(c.secrets, q, seed, h)
    ensures OwnedSeed(p.store, q, seed, h)
  {
    hide OwnedSeed, JwtStage, SeedStage, FromCreds;
    var o := UserOwner(k, c.users[k]);
    if Untouched(c, p) {
    } else if p.exit == UserSeedWritten && UserSeedStage(c, k, x).SeedReady? && p.store == UserSeedStage(c, k, x).store {
      SeedStageKeepsOwned(c.secrets, o, c.users[k].spec.seedSecretName, PrefixUser, false, x.seed, q, seed, h);
    } else if FromCreds(c, k, p) {
      CredsKeepOwned(c, k, p, h, q, seed);
    } else {
      var want: Claims :| p.store == UserJwtOut(c, k, want, x).store && p.writes == UserJwtOut(c, k, want, x).writes;
      JwtStageKeepsOwned(c.secrets, o, c.users[k].spec.jwtSecretName, want, Signed(want), x.jwt, q, seed, h);
    }
  }

  // A reconcile of the User itself, with its names apart, or of any other keeps an owned seed.
  lemma UserStepKeepsOwned(c: Cluster, k: Key, x: UserOracle, h: Holder, q: Key, seed: Seed)
    requires Coupled(c) && (k in c.users ==> HolderOrOther(c, k, h, q)) && OwnedSeed(c.secrets, q, seed, h)
    ensures OwnedSeed(ReconcileUser(c, k, x).c.secrets, q, seed, h)
  {
    hide UserStages, OwnedSeed, PlanTraced, UserStatus.Coupled, UserStatus.Ready;
    if x.fetchOk && k in c.users {
      var s := c.users[k].status.InitializeConditions();
      StagesTraced(c, k, s, x);
      TracedKeepsOwned(c, k, x, UserStages(c, k, s, x), h, q, seed);
    }
  }

  // Once its seed stage has passed, a User owns its seed, whether it created the secret or found one
  // that no other object owns.
  lemma UserOwnsSeed(c: Cluster, k: Key, x: UserOracle)
    requires Coupled(c) && k in c.users && x.fetchOk && UserSeedStage(c, k, x).SeedReady?
    requires UserSeedKey(c, k) in c.secrets ==> forall r :: r in c.secrets[UserSeedKey(c, k)].owners ==> r.uid == c.users[k].uid
    ensures var out := UserSeedStage(c, k, x);
            && OwnedSeed(out.store, UserSeedKey(c, k), out.seed, Holder(KindUser, k.name, c.users[k].uid))
            && (out.wrote ==> ReconcileUser(c, k, x).c.secrets == out.store)
            && (!out.wrote ==> out.store == c.secrets)
  {
    hide SeedStage, OwnedSeed, UserIssuerStage, Coupled, UserStatus.Coupled, UserStatus.Ready;
    var o, name := UserOwner(k, c.users[k]), c.users[k].spec.seedSecretName;
    SeedStageOwns(c.secrets, o, name, PrefixUser, false, x.seed);
    SeedStageMeaning(c.secrets, o, name, PrefixUser, false, x.seed);
    hide SeedBuilt, HoldsSeed;
  }

  /******* The User's own seed *******/

  // Where the JWT stage is not reached, no secret changes but by the seed stage.
  lemma StagesStopBeforeJwt(c: Cluster, k: Key, s: UserStatus, x: UserOracle)
    requires Coupled(c) && k in c.users && x.fetchOk && !ReachesJwt(c, k, x)
    ensures var p, out := UserStages(c, k, s, x), UserSeedStage(c, k, x);
            p.store == c.secrets || (out.SeedReady? && p.store == out.store)
  {
    hide Coupled, UserSeedStage, Verdict, UserStatus.Coupled, UserStatus.Ready;
    hide MarkUserSeed, MarkUserIssuer, UserAccountStage, AccountSettled, ResolveIssuer;
    var out, issuer := UserSeedStage(c, k, x), UserIssuer(c, k, x);
    if out.SeedReady? && !out.wrote && issuer.Ok? {
      AccountStopsBeforeJwt(c, k, s.MarkSeedSecretReady(out.keyPair), out.seed, issuer.value, x);
    }
  }

  lemma AccountStopsBeforeJwt(c: Cluster, k: Key, s: UserStatus, seed: Seed, issuer: KeyPairable, x: UserOracle)
    requires Coupled(c) && k in c.users && (issuer.IssuerSigningKey? ==> issuer.signingKey.status.Coupled())
    requires !x.encodeOk || !AccountSettled(c, k, issuer, x)
    ensures UserAccountStage(c, k, s, seed, issuer, x).store == c.secrets
  {
    hide Coupled, FindAccount, ValidateSelectors, LoadIssuerSeed, AccountLabel, Verdict, MarkAccount, MarkUserIssuer, MarkUserJWT;
    hide UserJwtOut, UserCredsStage, WantedUserClaims, UserStatus.Coupled, UserStatus.Ready;
  }

  // The settled seed secret: built by this User, which therefore controls and owns it.
  lemma SettledSeedSecret(c: Cluster, k: Key, x: UserOracle)
    requires k in c.users && UserSeedStage(c, k, x).SeedReady? && !UserSeedStage(c, k, x).wrote
    ensures HoldsSeed(c.secrets, UserSeedKey(c, k), UserSeedStage(c, k, x).seed)
    ensures var got := c.secrets[UserSeedKey(c, k)];
            && JWTKey !in got.data && OwnedBy(got, c.users[k].uid)
            && SetController(UserOwner(k, c.users[k]), got.owners).Some?
  {
    hide SeedStage;
    var o, name := UserOwner(k, c.users[k]), c.users[k].spec.seedSecretName;
    SeedStageMeaning(c.secrets, o, name, PrefixUser, false, x.seed);
    var got := c.secrets[UserSeedKey(c, k)];
    var want := BuildSeedSecret(got, o, got.data[SeedKey].seed, false).value;
    assert want.owners == got.owners && want.data == got.data;
    UpsertMeaning(got.owners, RefOf(o));
    var i :| 0 <= i < |got.owners| && got.owners[i] == RefOf(o);
  }

  // The JWT stage on the seed secret itself: it holds no JWT, so it is deleted to make room.
  lemma JwtStageOnSeed(store: Store, o: Owner, name: string, want: Claims, x: JwtOracle, seed: Seed)
    requires var key := Key(o.key.ns, name);
             HoldsSeed(store, key, seed) && JWTKey !in store[key].data && OwnedBy(store[key], o.uid)
    ensures var out := JwtStage(store, o, name, want, Signed(want), x);
            var key := Key(o.key.ns, name);
            && (HoldsSeed(out.store, key, seed) <==> !(x.getOk && x.deleteOk && store[key].finalizers == {}))
            && !(out.result.Ok? && out.writes == [])
  {
  }

  // The seed shares its name with the JWT secret, and a JWT is due.
  predicate LosesToJwt(c: Cluster, k: Key, x: UserOracle)
    requires Coupled(c) && k in c.users && UserSeedKey(c, k) in c.secrets
  {
    && UserSeedKey(c, k) == UserJwtKey(c, k) && ReachesJwt(c, k, x)
    && x.jwt.getOk && x.jwt.deleteOk && c.secrets[UserSeedKey(c, k)].finalizers == {}
  }

  // The seed shares its name with the credentials alone, and the JWT is current.
  predicate LosesToCreds(c: Cluster, k: Key, x: UserOracle)
    requires Coupled(c) && k in c.users
  {
    && UserSeedKey(c, k) == UserCredsKey(c, k) != UserJwtKey(c, k) && ReachesJwt(c, k, x)
    && JwtSettled(c, k, UserSeedStage(c, k, x).keyPair, AccountAtJwt(c, k, x), SignerAtJwt(c, k, x), x)
    && !x.creds.ca.CAFails? && x.creds.getOk && x.creds.formatOk && x.creds.updateOk
  }

  lemma CredsOnSeed(c: Cluster, k: Key, s: UserStatus, seed: Seed, jwt: Jwt, x: UserOracle)
    requires k in c.users && HoldsSeed(c.secrets, UserSeedKey(c, k), seed)
    requires SetController(UserOwner(k, c.users[k]), c.secrets[UserSeedKey(c, k)].owners).Some?
    ensures HoldsSeed(UserCredsStage(c, k, s, seed, jwt, x).store, UserSeedKey(c, k), seed) <==>
              !(UserSeedKey(c, k) == UserCredsKey(c, k)
                && !x.creds.ca.CAFails? && x.creds.getOk && x.creds.formatOk && x.creds.updateOk)
  {
    hide UserStatus.Coupled, UserStatus.Ready, SetController;
    var o := UserOwner(k, c.users[k]);
    if UserCredsKey(c, k) == UserSeedKey(c, k) {
      var got := c.secrets[UserCredsKey(c, k)];
      assert BuildCreds(got, o, jwt, seed, x.creds).Some? <==> x.creds.formatOk;
      if x.creds.formatOk { BuildCredsMeaning(got, o, jwt, seed, x.creds); }
      hide BuildCreds, CreateCreds;
    } else {
      hide BuildCreds;
    }
  }

  // With names apart from the JWT secret only current credentials are in the way.
  lemma JwtPlanOnSeed(c: Cluster, k: Key, s: UserStatus, seed: Seed, signer: Seed, acc: Account, x: UserOracle)
    requires k in c.users && s.keyPair.Some? && x.encodeOk && HoldsSeed(c.secrets, UserSeedKey(c, k), seed)
    requires UserSeedKey(c, k) != UserJwtKey(c, k)
    requires SetController(UserOwner(k, c.users[k]), c.secrets[UserSeedKey(c, k)].owners).Some?
    ensures HoldsSeed(StoreUserJWT(c, k, s, seed, signer, acc, x).store, UserSeedKey(c, k), seed) <==>
              !(UserSeedKey(c, k) == UserCredsKey(c, k) && JwtSettled(c, k, s.keyPair.value, acc, signer, x)
                && !x.creds.ca.CAFails? && x.creds.getOk && x.creds.formatOk && x.creds.updateOk)
  {
    hide UserStatus.Coupled, UserStatus.Ready, JwtStage, UserCredsStage, Verdict, MarkUserJWT, SetController, BuildCredsSecret;
    var want, due := WantedUserClaims(c, k, s, acc, signer, x), DueUserClaims(c, k, s.keyPair.value, acc, signer);
    assert Blanked(want) == Blanked(due);
    hide WantedUserClaims, DueUserClaims, Blanked;
    var o, name := UserOwner(k, c.users[k]), c.users[k].spec.jwtSecretName;
    JwtStageQuietIff(c.secrets, o, name, want, x.jwt);
    JwtStageFrame(c.secrets, o, name, want, Signed(want), x.jwt, UserSeedKey(c, k));
    var out := UserJwtOut(c, k, want, x);
    if out.result.Ok? && out.writes == [] {
      CredsOnSeed(c, k, s.MarkJWTSecretReady(), seed, out.result.value, x);
    }
  }

  lemma SharedPlanOnSeed(c: Cluster, k: Key, s: UserStatus, seed: Seed, signer: Seed, acc: Account, x: UserOracle)
    requires k in c.users && x.encodeOk && HoldsSeed(c.secrets, UserSeedKey(c, k), seed)
    requires UserSeedKey(c, k) == UserJwtKey(c, k)
    requires JWTKey !in c.secrets[UserSeedKey(c, k)].data && OwnedBy(c.secrets[UserSeedKey(c, k)], c.users[k].uid)
    ensures HoldsSeed(StoreUserJWT(c, k, s, seed, signer, acc, x).store, UserSeedKey(c, k), seed) <==>
              !(x.jwt.getOk && x.jwt.deleteOk && c.secrets[UserSeedKey(c, k)].finalizers == {})
  {
    hide UserStatus.Coupled, UserStatus.Ready, JwtStage, UserCredsStage, Verdict, MarkUserJWT, WantedUserClaims;
    var want := WantedUserClaims(c, k, s, acc, signer, x);
    JwtStageOnSeed(c.secrets, UserOwner(k, c.users[k]), c.users[k].spec.jwtSecretName, want, x.jwt, seed);
  }

  // A reconcile of a User loses its seed exactly on these inputs.
  lemma UserSeedLostIff(c: Cluster, k: Key, x: UserOracle, seed: Seed)
    requires Coupled(c) && k in c.users && HoldsSeed(c.secrets, UserSeedKey(c, k), seed)
    ensures HoldsSeed(ReconcileUser(c, k, x).c.secrets, UserSeedKey(c, k), seed) <==>
              !LosesToJwt(c, k, x) && !LosesToCreds(c, k, x)
  {
    hide UserStages, HoldsSeed, JwtSettled, UserSeedStage, UserIssuer, FindAccount, LoadIssuerSeed, UserStatus.Coupled, UserStatus.Ready, Coupled;
    if x.fetchOk {
      PlanLosesSeedIff(c, k, c.users[k].status.InitializeConditions(), x, seed);
    }
  }

  lemma PlanLosesSeedIff(c: Cluster, k: Key, s: UserStatus, x: UserOracle, seed: Seed)
    requires Coupled(c) && k in c.users && x.fetchOk && HoldsSeed(c.secrets, UserSeedKey(c, k), seed)
    ensures HoldsSeed(UserStages(c, k, s, x).store, UserSeedKey(c, k), seed) <==> !LosesToJwt(c, k, x) && !LosesToCreds(c, k, x)
  {
    hide UserStages, JwtSettled, UserIssuer, FindAccount, LoadIssuerSeed, AccountSettled, UserStatus.Coupled, UserStatus.Ready, Coupled;
    hide SeedStage, StoreUserJWT, SetController;
    if !ReachesJwt(c, k, x) {
      StagesStopBeforeJwt(c, k, s, x);
      var out := UserSeedStage(c, k, x);
      if out.SeedReady? {
        SeedStageKeepsSeeds(c.secrets, UserOwner(k, c.users[k]), c.users[k].spec.seedSecretName, PrefixUser, false, x.seed, UserSeedKey(c, k), seed);
      }
    } else {
      StagesReachJwt(c, k, s, x);
      SettledSeedSecret(c, k, x);
      var t, signer, acc := StatusAtJwt(c, k, s, x), SignerAtJwt(c, k, x), AccountAtJwt(c, k, x);
      if UserSeedKey(c, k) == UserJwtKey(c, k) {
        SharedPlanOnSeed(c, k, t, seed, signer, acc, x);
      } else {
        JwtPlanOnSeed(c, k, t, seed, signer, acc, x);
      }
    }
  }

  // With three names apart the seed is never lost.
  lemma UserSeedKept(c: Cluster, k: Key, x: UserOracle, seed: Seed)
    requires Coupled(c) && k in c.users && HoldsSeed(c.secrets, UserSeedKey(c, k), seed)
    requires c.users[k].spec.seedSecretName != c.users[k].spec.jwtSecretName
    requires c.users[k].spec.seedSecretName != c.users[k].spec.credentialsSecretName
    ensures HoldsSeed(ReconcileUser(c, k, x).c.secrets, UserSeedKey(c, k), seed)
  {
    hide ReachesJwt, HoldsSeed, ReconcileUser, Coupled;
    UserSeedLostIff(c, k, x, seed);
  }
}
