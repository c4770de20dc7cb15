/**
 Each way a User's reconcile can end: why, what is recorded, and whether it is retried.
 */
module UserOutcomes {
  import opened Texts
  import opened Conditions
  import opened Lifecycles
  import opened Errors
  import opened Secrets
  import opened ClusterState
  import opened SecretStages
  import opened UserController
  import opened UserTheorems

  /******* No way past the account stage without admission *******/

  predicate PastAccount(e: UserExit) {
    e.UserLabelWritten? || e.UserLabelNotWritten? || e.UserJWTFailed? || e.UserJWTWritten? || PastJwt(e)
  }

  // The issuer that the User names is there and Ready, and so is the Account behind it, which admits the User.
  predicate AdmittedVia(c: Cluster, k: Key, issuer: KeyPairable, key: Key)
    requires k in c.users
  {
    && IssuerIs(c, c.users[k].spec.issuer, k.ns, issuer) && IssuerReady(issuer)
    && AccountBehind(issuer, key) && UserAdmittedBy(c, k, key) && IssuerReady(IssuerAccount(key, c.accounts[key]))
  }

  lemma AccountStageAdmits(c: Cluster, k: Key, s: UserStatus, seed: Seed, issuer: KeyPairable, x: UserOracle)
    requires Coupled(c) && k in c.users && s.Coupled() && s.keyPair.Some?
    requires ResolveIssuer(c, c.users[k].spec.issuer, k.ns, x.issuerOk) == Ok(issuer)
    requires issuer.IssuerSigningKey? ==> issuer.signingKey.status.Coupled()
    ensures PastAccount(UserAccountStage(c, k, s, seed, issuer, x).exit) ==>
              FindAccount(c, issuer, x.ownerOk).FoundAccount? && AdmittedVia(c, k, issuer, FindAccount(c, issuer, x.ownerOk).key)
  {
    hide Coupled, ResolveIssuer, FindAccount, UserAccountStage, AfterAccount, LoadIssuerSeed, SeedOfIssuer, UserStatus.Coupled, UserStatus.Ready;
    hide IssuerIs, IssuerReady, AccountBehind, NamespaceAllowed, LabelsAllowed;
    UserAccountStageMeaning(c, k, s, seed, issuer, x);
    if FindAccount(c, issuer, x.ownerOk).FoundAccount? { GrantedAsFound(c, k, issuer, x); }
  }

  lemma UserAdmissionNeeded(c: Cluster, k: Key, x: UserOracle)
    requires Coupled(c) && PastAccount(ReconcileUser(c, k, x).exit)
    ensures k in c.users && exists issuer, key :: AdmittedVia(c, k, issuer, key)
  {
    hide Coupled, UserSeedStage, UserAccountStage, AdmittedVia, ResolveIssuer, FindAccount, Verdict, MarkUserIssuer, MarkUserSeed, UserStatus.Coupled, UserStatus.Ready;
    var out, issuer := UserSeedStage(c, k, x), ResolveIssuer(c, c.users[k].spec.issuer, k.ns, x.issuerOk);
    if out.SeedReady? && issuer.Ok? {
      IssuerOfKeyCoupled(c, c.users[k].spec.issuer, k.ns, x.issuerOk);
      SeededStatus(c, k, out.keyPair);
      AccountStageAdmits(c, k, c.users[k].status.InitializeConditions().MarkSeedSecretReady(out.keyPair), out.seed, issuer.value, x);
    }
  }

  lemma SeededStatus(c: Cluster, k: Key, kp: KeyPair)
    requires Coupled(c) && k in c.users
    ensures var s := c.users[k].status.InitializeConditions().MarkSeedSecretReady(kp); s.Coupled() && s.keyPair.Some?
  {
  }

  /******* A refused User *******/

  // The calls that the account stage makes succeed, the Account is Ready and its selectors parse.
  predicate Judged(c: Cluster, k: Key, issuer: KeyPairable, key: Key, x: UserOracle) {
    && AccountBehind(issuer, key) && key in c.accounts && IssuerReady(IssuerAccount(key, c.accounts[key]))
    && x.ownerOk && x.namespaceOk && k.ns in c.namespaces
    && c.accounts[key].spec.usersNamespaceSelector != Some(Unparsable) && c.accounts[key].spec.usersSelector != Some(Unparsable)
  }

  // An Account is found exactly when one is behind the issuer and Ready; then its selectors decide.
  lemma RefusedPlan(c: Cluster, k: Key, s: UserStatus, seed: Seed, issuer: KeyPairable, x: UserOracle)
    requires Coupled(c) && k in c.users && IssuerIs(c, c.users[k].spec.issuer, k.ns, issuer) && IssuerReady(issuer)
    requires issuer.IssuerSigningKey? ==> issuer.signingKey.status.Coupled()
    requires forall key :: AccountBehind(issuer, key) ==> !UserAdmittedBy(c, k, key)
    ensures var p := UserAccountStage(c, k, s, seed, issuer, x);
            && (p.exit == UserAccountFailed || p.exit == AccountNotReady) && p.store == c.secrets
            && (p.exit == UserAccountFailed ==> p.status.accountRef == None && !p.status.Ready())
            && forall key :: Judged(c, k, issuer, key, x) ==>
                 && p.exit == UserAccountFailed && p.result == Done && p.error == None
                 && p.status.account.Entry? && p.status.account.status == ConditionFalse && p.status.account.reason == NotAllowed
  {
    var found := FindAccount(c, issuer, x.ownerOk);
    forall key ensures Judged(c, k, issuer, key, x) ==> found.FoundAccount? && found.key == key {
      AccountFoundIff(c, c.users[k].spec.issuer, k.ns, issuer, x.ownerOk, key);
    }
    if found.FoundAccount? {
      AccountFoundIff(c, c.users[k].spec.issuer, k.ns, issuer, x.ownerOk, found.key);
      AdmittedIff(c, found.key.ns, found.account.spec.usersNamespaceSelector, found.account.spec.usersSelector, k.ns, c.users[k].labels, x.namespaceOk);
    }
    hide Coupled, IssuerIs, IssuerReady, AccountBehind, FindAccount, ValidateSelectors, NamespaceAllowed, LabelsAllowed, UserLabelStage, Verdict, MarkedAs;
    hide UserStatus.Coupled, UserStatus.Ready;
  }

  // A User with its seed in place and an issuer that is Ready, but no Account that admits it: the
  // reconcile stops there, whatever else happens. A refusal proper is recorded as one, and is final.
  lemma RefusedUserStops(c: Cluster, k: Key, issuer: KeyPairable, x: UserOracle)
    requires Coupled(c) && KeysDistinct(c) && k in c.users && x.fetchOk
    requires SeedBuilt(c.secrets, UserOwner(k, c.users[k]), c.users[k].spec.seedSecretName, false) && x.seed.getOk
    requires IssuerIs(c, c.users[k].spec.issuer, k.ns, issuer) && IssuerReady(issuer) && x.issuerOk
    requires forall key :: AccountBehind(issuer, key) ==> !UserAdmittedBy(c, k, key)
    ensures var st := ReconcileUser(c, k, x);
            && (st.exit == UserAccountFailed || st.exit == AccountNotReady) && st.c.secrets == c.secrets
            && (st.exit == UserAccountFailed ==> st.status.accountRef == None && !st.status.Ready())
            && forall key :: Judged(c, k, issuer, key, x) ==>
                 && st.exit == UserAccountFailed && (x.status == StatusStored ==> st.result == Done && st.error == None)
                 && st.status.account.Entry? && st.status.account.status == ConditionFalse && st.status.account.reason == NotAllowed
  {
    SeedStageSettled(c.secrets, UserOwner(k, c.users[k]), c.users[k].spec.seedSecretName, PrefixUser, false, x.seed);
    IssuerResolvesIff(c, c.users[k].spec.issuer, k.ns, true);
    IssuerOfKeyCoupled(c, c.users[k].spec.issuer, k.ns, true);
    hide Coupled, SeedBuilt, SeedStage, UserAccountStage, ResolveIssuer, IssuerIs, IssuerReady, AccountBehind, UserAdmittedBy, Judged;
    hide UserStatus.Coupled, UserStatus.Ready;
    var out := UserSeedStage(c, k, x);
    RefusedPlan(c, k, c.users[k].status.InitializeConditions().MarkSeedSecretReady(out.keyPair), out.seed, issuer, x);
  }

  /******* What is returned *******/

  // Writes after which the reconcile comes again.
  predicate ComesAgain(e: UserExit) { e.UserSeedWritten? || e.UserLabelWritten? || e.UserJWTWritten? || e.CredsWritten? || e.AccountNotReady? }

  // Failures whose error goes to the runtime, which retries.
  predicate Raises(e: UserExit) { e.UserLabelNotWritten? || e.CAUnavailable? || e.CredsFailed? }

  // An issuer without Account and a refusal are final,
  predicate AccountReturns(c: Cluster, k: Key, issuer: KeyPairable, x: UserOracle, result: CtrlResult, error: Option<Err>) {
    var unread := !x.namespaceOk || k.ns !in c.namespaces;
    match issuer
    case IssuerOperator(_, _) => result == Done && error == None
    case IssuerAccount(_, _) => result == CtrlResult(unread) && error == None
    case IssuerSigningKey(_, sk) =>
      && sk.status.ownerRef.Some?
      && var ref := sk.status.ownerRef.value;
         var key := Key(ref.ns, ref.name);
      && (error.Some? <==> ref.kind != KindUnregistered && !x.ownerOk)
      && (result == Requeue <==>
            || ref.kind == KindUnregistered
            || (x.ownerOk && ref.kind == KindOperator && key !in c.operators)
            || (x.ownerOk && ref.kind == KindAccount && (key !in c.accounts || unread)))
  }

  // and so are an issuer's seed secret that cannot be used, a JWT that does not encode and a JWT secret
  // that is not the User's. A missing issuer's seed is retried.
  predicate JWTReturns(c: Cluster, k: Key, issuer: KeyPairable, x: UserOracle, result: CtrlResult, error: Option<Err>)
    requires k in c.users
  {
    && issuer.GetKeyPair().Some?
    && var q := Key(issuer.key.ns, issuer.GetKeyPair().value.seedSecretName);
       if !x.issuerSeedOk then error.Some?
       else if q !in c.secrets then result == Requeue && error == None
       else
         && error == None
         && (result == Done <==>
               || !(SeedKey in c.secrets[q].data && c.secrets[q].data[SeedKey].SeedBlob?
                    && SeedOfIssuer(c, issuer, PrefixAccount, c.secrets[q].data[SeedKey].seed))
               || !x.encodeOk || JwtFinal(c.secrets, UserOwner(k, c.users[k]), c.users[k].spec.jwtSecretName, x.jwt))
  }

  ghost predicate Returns(c: Cluster, k: Key, x: UserOracle, exit: UserExit, result: CtrlResult, error: Option<Err>)
    requires k in c.users
  {
    && (ComesAgain(exit) ==> result == Requeue && error == None)
    && (Raises(exit) ==> error.Some?)
    && (exit == UserCompleted ==> result == Done && error == None)
    && (exit == UserSeedFailed ==> SeedReturns(c.secrets, UserOwner(k, c.users[k]), c.users[k].spec.seedSecretName, x.seed, result, error))
    && (exit == UserIssuerFailed ==> IssuerReturns(c, c.users[k].spec.issuer, k.ns, x.issuerOk, result, error))
    && (exit == UserAccountFailed ==>
          exists issuer :: IssuerIs(c, c.users[k].spec.issuer, k.ns, issuer) && AccountReturns(c, k, issuer, x, result, error))
    && (exit == UserJWTFailed ==>
          exists issuer :: IssuerIs(c, c.users[k].spec.issuer, k.ns, issuer) && JWTReturns(c, k, issuer, x, result, error))
  }

  // The ends of a stage, for an issuer that is given.
  predicate PlanReturns(c: Cluster, k: Key, issuer: KeyPairable, x: UserOracle, p: UserPlan)
    requires k in c.users
  {
    && (PastAccount(p.exit) || p.exit == UserAccountFailed || p.exit == AccountNotReady)
    && (ComesAgain(p.exit) ==> p.result == Requeue && p.error == None)
    && (Raises(p.exit) ==> p.error.Some?)
    && (p.exit == UserCompleted ==> p.result == Done && p.error == None)
    && (p.exit == UserAccountFailed ==> AccountReturns(c, k, issuer, x, p.result, p.error))
    && (p.exit == UserJWTFailed ==> JWTReturns(c, k, issuer, x, p.result, p.error))
  }

  lemma CredsReturn(c: Cluster, k: Key, s: UserStatus, seed: Seed, jwt: Jwt, issuer: KeyPairable, x: UserOracle)
    requires k in c.users
    ensures PlanReturns(c, k, issuer, x, UserCredsStage(c, k, s, seed, jwt, x))
  {
    hide BuildCreds, JWTReturns, AccountReturns, UserStatus.Coupled, UserStatus.Ready;
  }

  lemma StoreReturns(c: Cluster, k: Key, s: UserStatus, seed: Seed, issuer: KeyPairable, signer: Seed, acc: Account, x: UserOracle)
    requires k in c.users && x.issuerSeedOk && SeedOfIssuer(c, issuer, PrefixAccount, signer)
    ensures PlanReturns(c, k, issuer, x, StoreUserJWT(c, k, s, seed, signer, acc, x))
  {
    hide JwtFinal, JwtCallsOk, WantedUserClaims, Verdict, MarkUserJWT, UserCredsStage, AccountReturns, IntoResult, UserStatus.Coupled, UserStatus.Ready;
    var want := WantedUserClaims(c, k, s, acc, signer, x);
    var out := UserJwtOut(c, k, want, x);
    JwtStageOkIff(c.secrets, UserOwner(k, c.users[k]), c.users[k].spec.jwtSecretName, want, Signed(want), x.jwt);
    hide JwtStage;
    if out.result.Ok? { CredsReturn(c, k, s.MarkJWTSecretReady(), seed, out.result.value, issuer, x); }
    EncodingFails();
  }

  lemma EncodingFails()
    ensures AsResult(TerminalError(ConditionFailed(UnknownError, Wrap(Plain(EncodeFailed))))) == (Done, None)
  {
  }

  lemma LoadReturns(c: Cluster, k: Key, issuer: KeyPairable, x: UserOracle)
    requires k in c.users && issuer.GetKeyPair().Some? && LoadIssuerSeed(c, issuer, PrefixAccount, x.issuerSeedOk).Fail?
    ensures var r := AsResult(LoadIssuerSeed(c, issuer, PrefixAccount, x.issuerSeedOk).error);
            JWTReturns(c, k, issuer, x, r.0, r.1)
  {
    hide JwtFinal, UserOwner;
  }

  lemma JWTStageReturns(c: Cluster, k: Key, s: UserStatus, seed: Seed, issuer: KeyPairable, acc: Account, x: UserOracle)
    requires k in c.users && issuer.GetKeyPair().Some?
    ensures PlanReturns(c, k, issuer, x, UserJWTStage(c, k, s, seed, issuer, acc, x))
  {
    hide LoadIssuerSeed, SeedOfIssuer, StoreUserJWT, JWTReturns, AccountReturns, Verdict, MarkUserIssuer, MarkUserJWT, IntoResult, UserStatus.Coupled, UserStatus.Ready;
    match LoadIssuerSeed(c, issuer, PrefixAccount, x.issuerSeedOk)
    case Fail(_) => LoadReturns(c, k, issuer, x);
    case Ok(signer) =>
      IssuerSeedLoadsIff(c, issuer, PrefixAccount, x.issuerSeedOk, signer);
      StoreReturns(c, k, s.MarkIssuerResolved(), seed, issuer, signer, acc, x);
  }

  lemma AccountFailureReturns(c: Cluster, k: Key, issuer: KeyPairable, x: UserOracle)
    requires k in c.users && IssuerReady(issuer)
    requires issuer.IssuerSigningKey? ==> issuer.signingKey.status.Coupled()
    ensures var found := FindAccount(c, issuer, x.ownerOk);
            match found
            case Marked(e) => AccountReturns(c, k, issuer, x, AsResult(e).0, AsResult(e).1)
            case NotMarked(e) => AsResult(e) == (Requeue, None)
            case FoundAccount(key, acc) =>
              var r := ValidateSelectors(c, key.ns, acc.spec.usersNamespaceSelector, acc.spec.usersSelector, k.ns, c.users[k].labels, x.namespaceOk);
              r.Fail? ==> AccountReturns(c, k, issuer, x, AsResult(r.error).0, AsResult(r.error).1)
  {
    var found := FindAccount(c, issuer, x.ownerOk);
    if found.FoundAccount? {
      var spec := found.account.spec;
      AdmittedIff(c, found.key.ns, spec.usersNamespaceSelector, spec.usersSelector, k.ns, c.users[k].labels, x.namespaceOk);
    }
    hide ValidateSelectors, Matches;
  }

  lemma AccountStageReturns(c: Cluster, k: Key, s: UserStatus, seed: Seed, issuer: KeyPairable, x: UserOracle)
    requires Coupled(c) && k in c.users && IssuerReady(issuer) && issuer.GetKeyPair().Some?
    requires issuer.IssuerSigningKey? ==> issuer.signingKey.status.Coupled()
    ensures PlanReturns(c, k, issuer, x, UserAccountStage(c, k, s, seed, issuer, x))
  {
    hide Coupled, FindAccount, ValidateSelectors, UserJWTStage, AccountLabel, JWTReturns, AccountReturns, Verdict, MarkAccount, IntoResult;
    hide IssuerReady, KeyPairable.GetKeyPair, UserStatus.Coupled, UserStatus.Ready;
    AccountFailureReturns(c, k, issuer, x);
    var found := FindAccount(c, issuer, x.ownerOk);
    if found.FoundAccount? { JWTStageReturns(c, k, s.MarkAccountResolved(found.key), seed, issuer, found.account, x); }
  }

  lemma StagesReturn(c: Cluster, k: Key, s: UserStatus, x: UserOracle)
    requires Coupled(c) && k in c.users
    ensures var p := UserStages(c, k, s, x); Returns(c, k, x, p.exit, p.result, p.error)
  {
    hide Coupled, SeedStage, UserIssuerStage, SeedUsable, IssuerReturns, AccountReturns, JWTReturns, Verdict, MarkUserSeed, IntoResult;
    hide UserStatus.Coupled, UserStatus.Ready, IssuerIs;
    match UserSeedStage(c, k, x)
    case SeedFailed(_) =>
      SeedFailureMeaning(c.secrets, UserOwner(k, c.users[k]), c.users[k].spec.seedSecretName, PrefixUser, false, x.seed);
    case SeedReady(_, kp, seed, _) => IssuerStageReturns(c, k, s.MarkSeedSecretReady(kp), seed, x);
  }

  lemma IssuerStageReturns(c: Cluster, k: Key, s: UserStatus, seed: Seed, x: UserOracle)
    requires Coupled(c) && k in c.users
    ensures var p := UserIssuerStage(c, k, s, seed, x); Returns(c, k, x, p.exit, p.result, p.error)
  {
    hide Coupled, ResolveIssuer, UserAccountStage, IssuerReturns, AccountReturns, JWTReturns, Verdict, MarkUserIssuer, IntoResult;
    hide IssuerIs, IssuerReady, KeyPairable.GetKeyPair, UserStatus.Coupled, UserStatus.Ready, SeedReturns;
    match ResolveIssuer(c, c.users[k].spec.issuer, k.ns, x.issuerOk)
    case Fail(_) => IssuerFailureReturns(c, c.users[k].spec.issuer, k.ns, x.issuerOk);
    case Ok(issuer) =>
      ResolvedIssuer(c, c.users[k].spec.issuer, k.ns, x.issuerOk);
      AccountStageReturns(c, k, s, seed, issuer, x);
  }

  // What is returned from each exit when the status is stored. A status that did not reach the server is
  // written again.
  lemma UserReturns(c: Cluster, k: Key, x: UserOracle)
    requires Coupled(c) && k in c.users && x.fetchOk
    ensures var st, s := ReconcileUser(c, k, x), c.users[k].status;
            && (x.status == StatusStored ==> Returns(c, k, x, st.exit, st.result, st.error))
            && (Raises(st.exit) ==> st.error.Some?)
            && k in st.c.users && st.c.users[k].status == (if x.status == StatusStored then st.status else s)
            && (st.c.users[k].status != st.status ==> st.error.Some? || st.result == Requeue)
  {
    StagesReturn(c, k, c.users[k].status.InitializeConditions(), x);
    hide Coupled, UserStages, SeedReturns, IssuerReturns, AccountReturns, JWTReturns, IssuerIs, UserStatus.Coupled, UserStatus.Ready;
  }

  /******* The seed *******/

  // A seed secret that is written belongs to the User and is not guarded; a new one holds a new user seed.
  lemma WrittenUserSeed(c: Cluster, k: Key, x: UserOracle)
    requires Coupled(c) && ReconcileUser(c, k, x).exit == UserSeedWritten
    ensures k in c.users
    ensures var st, q := ReconcileUser(c, k, x), Key(k.ns, c.users[k].spec.seedSecretName);
            exists seed :: && SeedWrittenFor(st.c.secrets, q, seed, Owner(KindUser, k, c.users[k].uid), false)
                           && st.status.keyPair == Some(KeyPair(PublicKey(seed), c.users[k].spec.seedSecretName))
                           && (if q in c.secrets then HoldsSeed(c.secrets, q, seed) else seed.prefix == PrefixUser && x.seed.newKey == Some(seed.key))
  {
    var s := c.users[k].status.InitializeConditions();
    SeedWrittenPlan(c, k, s, x);
    hide UserStages, Coupled, UserStatus.Coupled, UserStatus.Ready, SeedStage, SeedWrittenFor, SeedBuilt;
    var o, name := UserOwner(k, c.users[k]), c.users[k].spec.seedSecretName;
    SeedStageMeaning(c.secrets, o, name, PrefixUser, false, x.seed);
    WrittenSeed(c.secrets, o, name, PrefixUser, false, x.seed);
  }

  lemma SeedWrittenPlan(c: Cluster, k: Key, s: UserStatus, x: UserOracle)
    requires Coupled(c) && k in c.users && UserStages(c, k, s, x).exit == UserSeedWritten
    ensures var out, p := UserSeedStage(c, k, x), UserStages(c, k, s, x);
            out.SeedReady? && out.wrote && p.store == out.store && p.status.keyPair == Some(out.keyPair)
  {
    var out := UserSeedStage(c, k, x);
    if out.SeedReady? && !out.wrote { LaterExits(c, k, s.MarkSeedSecretReady(out.keyPair), out.seed, x); }
    hide Coupled, UserSeedStage, UserIssuerStage, MarkedAs, Verdict, UserStatus.Coupled, UserStatus.Ready;
  }

  lemma LaterExits(c: Cluster, k: Key, s: UserStatus, seed: Seed, x: UserOracle)
    requires Coupled(c) && k in c.users
    ensures UserIssuerStage(c, k, s, seed, x).exit != UserSeedWritten
  {
    hide Coupled, ResolveIssuer, UserAccountStage, Verdict, MarkUserIssuer, UserStatus.Coupled, UserStatus.Ready, IssuerIs, IssuerReady, AccountReturns, JWTReturns;
    var issuer := ResolveIssuer(c, c.users[k].spec.issuer, k.ns, x.issuerOk);
    if issuer.Ok? {
      ResolvedIssuer(c, c.users[k].spec.issuer, k.ns, x.issuerOk);
      AccountStageReturns(c, k, s, seed, issuer.value, x);
    }
  }

  /******* Nothing to reconcile *******/

  lemma NothingFetched(c: Cluster, k: Key, x: UserOracle)
    requires Coupled(c) && (!x.fetchOk || k !in c.users)
    ensures var st := ReconcileUser(c, k, x);
            st.c == c && st.writes == [] && st.result == Done && (st.error == None <==> x.fetchOk)
  {
  }
}
