/**
 An Account whose surroundings are in place becomes Ready after finitely many reconciles, and
 then nothing is written any more.
 */
module AccountConvergence {
  import opened Texts
  import opened Lifecycles
  import opened Errors
  import opened Secrets
  import opened SigningKeys
  import opened ClusterState
  import opened SecretStages
  import opened AccountController
  import opened AccountTheorems

  /******* The surroundings *******/

  // A selector that does not look at the label the controller itself writes.
  predicate Blind(s: Selector) { BlindTo(s, LabelOperatorName) }

  // The issuer, its Operator and its seed are there, and the Operator admits the Account.
  predicate Surrounded(c: Cluster, k: Key)
    requires Coupled(c) && k in c.accounts
  {
    var issuer := ResolveIssuer(c, c.accounts[k].spec.issuer, k.ns, true);
    && issuer.Ok?
    && FindOperator(c, k, issuer.value, true, true).Ok?
    && LoadAccountIssuerSeed(c, issuer.value, true).Ok?
    && (var op := ResolveOperator(c, issuer.value, true).value.1;
        op.spec.accountsSelector.Some? ==> Blind(op.spec.accountsSelector.value))
    && c.accounts[k].spec.signingKeysSelector != Some(Unparsable)
  }

  // In the cluster's own terms.
  predicate Backed(c: Cluster, k: Key, issuer: KeyPairable, key: Key, seed: Seed)
    requires k in c.accounts
  {
    && IssuerIs(c, c.accounts[k].spec.issuer, k.ns, issuer) && IssuerReady(issuer)
    && OperatorBehind(issuer, key) && AdmittedBy(c, k, key) && SeedOfIssuer(c, issuer, PrefixOperator, seed)
    && (c.operators[key].spec.accountsSelector.Some? ==> Blind(c.operators[key].spec.accountsSelector.value))
    && c.accounts[k].spec.signingKeysSelector != Some(Unparsable)
  }

  lemma SurroundedIff(c: Cluster, k: Key)
    requires Coupled(c) && KeysDistinct(c) && k in c.accounts
    ensures Surrounded(c, k) <==> exists issuer, key, seed :: Backed(c, k, issuer, key, seed)
  {
    hide IssuerIs, IssuerReady, OperatorBehind, AdmittedBy, SeedOfIssuer, Blind;
    IssuerResolvesIff(c, c.accounts[k].spec.issuer, k.ns, true);
    if Surrounded(c, k) {
      var issuer := ResolveIssuer(c, c.accounts[k].spec.issuer, k.ns, true).value;
      BackedBy(c, k, issuer, FindOperator(c, k, issuer, true, true).value, LoadAccountIssuerSeed(c, issuer, true).value);
    }
    forall issuer, key, seed | Backed(c, k, issuer, key, seed) ensures Surrounded(c, k) {
      BackedBy(c, k, issuer, key, seed);
    }
  }

  lemma BackedBy(c: Cluster, k: Key, issuer: KeyPairable, key: Key, seed: Seed)
    requires Coupled(c) && k in c.accounts && ResolveIssuer(c, c.accounts[k].spec.issuer, k.ns, true) == Ok(issuer)
    requires issuer.IssuerSigningKey? ==> issuer.signingKey.status.Coupled()
    ensures Backed(c, k, issuer, key, seed) <==>
              && Surrounded(c, k) && FindOperator(c, k, issuer, true, true) == Ok(key)
              && LoadAccountIssuerSeed(c, issuer, true) == Ok(seed)
  {
    IssuerResolvesIff(c, c.accounts[k].spec.issuer, k.ns, true);
    OperatorFoundIff(c, k, issuer, true, true, key);
    IssuerSeedLoadsIff(c, issuer, PrefixOperator, true, seed);
    OperatorIsStored(c, k, issuer);
    hide ResolveIssuer, IssuerReady, OperatorBehind, AdmittedBy, SeedOfIssuer, LoadAccountIssuerSeed, Blind, ValidateSelectors, ResolveOperator;
  }

  lemma OperatorIsStored(c: Cluster, k: Key, issuer: KeyPairable)
    requires k in c.accounts && IssuerIs(c, c.accounts[k].spec.issuer, k.ns, issuer)
    requires issuer.IssuerSigningKey? ==> issuer.signingKey.status.Coupled()
    ensures var r := ResolveOperator(c, issuer, true); r.Ok? ==> r.value.0 in c.operators && c.operators[r.value.0] == r.value.1
  {
  }

  function IssuerOf(c: Cluster, k: Key): (r: KeyPairable)
    requires Coupled(c) && k in c.accounts && Surrounded(c, k)
    ensures r.IssuerSigningKey? ==> r.signingKey.status.Coupled()
  {
    ResolveIssuer(c, c.accounts[k].spec.issuer, k.ns, true).value
  }

  function OperatorOf(c: Cluster, k: Key): Key
    requires Coupled(c) && k in c.accounts && Surrounded(c, k)
  {
    FindOperator(c, k, IssuerOf(c, k), true, true).value
  }

  function SignerOf(c: Cluster, k: Key): Seed
    requires Coupled(c) && k in c.accounts && Surrounded(c, k)
  {
    LoadAccountIssuerSeed(c, IssuerOf(c, k), true).value
  }

  function IssuerSeedKey(c: Cluster, k: Key): Key
    requires Coupled(c) && k in c.accounts && Surrounded(c, k)
  {
    ResolvedIssuerHasKeyPair(c, c.accounts[k].spec.issuer, k.ns, true);
    Key(IssuerOf(c, k).key.ns, IssuerOf(c, k).GetKeyPair().value.seedSecretName)
  }

  // Nobody else holds the names of the Account's secrets: a seed secret is missing or usable,
  predicate SeedNameFree(c: Cluster, k: Key)
    requires k in c.accounts
  {
    var q := SeedSecretKey(c, k);
    q in c.secrets ==>
      && SeedKey in c.secrets[q].data && c.secrets[q].data[SeedKey].SeedBlob?
      && SetController(OwnerOf(k, c.accounts[k]), c.secrets[q].owners).Some?
  }

  // and a JWT secret is missing, controlled by nobody else, or a leftover without the field.
  predicate JwtNameFree(c: Cluster, k: Key)
    requires k in c.accounts
  {
    var q := JwtKey(c, k);
    q in c.secrets ==>
      if JWTKey in c.secrets[q].data then SetController(OwnerOf(k, c.accounts[k]), c.secrets[q].owners).Some?
      else OwnedBy(c.secrets[q], c.accounts[k].uid) && c.secrets[q].finalizers == {}
  }

  predicate NamesApart(c: Cluster, k: Key)
    requires Coupled(c) && k in c.accounts && Surrounded(c, k)
  {
    && SeedSecretKey(c, k) != JwtKey(c, k)
    && IssuerSeedKey(c, k) != SeedSecretKey(c, k) && IssuerSeedKey(c, k) != JwtKey(c, k)
  }

  ghost predicate Setting(c: Cluster, k: Key) {
    && Coupled(c) && k in c.accounts && !c.accounts[k].deleting
    && Surrounded(c, k) && SeedNameFree(c, k) && JwtNameFree(c, k) && NamesApart(c, k)
  }

  // Every call up to the push succeeds, and the key list is an outcome of NextSigningKeys.
  ghost predicate Supplied(c: Cluster, k: Key, x: AccountOracle)
    requires k in c.accounts
  {
    && x.fetchOk && x.updateOk && x.issuerOk && x.ownerOk && x.namespaceOk && x.listOk && x.issuerSeedOk && x.encodeOk
    && x.seed.getOk && x.seed.newKey.Some? && x.seed.createOk && x.seed.updateOk
    && x.jwt.getOk && x.jwt.deleteOk && x.jwt.createOk && x.jwt.update == Updated
    && AllCoupled(Candidates(c, k))
    && IsNext(x.keys, c.accounts[k].uid, c.accounts[k].status.signingKeys, Candidates(c, k))
  }

  // So does the push, and the status is stored.
  ghost predicate Succeeds(c: Cluster, k: Key, x: AccountOracle)
    requires k in c.accounts
  {
    Supplied(c, k, x) && x.push == PushSucceeds && x.status == StatusStored
  }

  /******* The measure *******/

  predicate SeedDone(c: Cluster, k: Key)
    requires k in c.accounts
  {
    SeedBuilt(c.secrets, OwnerOf(k, c.accounts[k]), c.accounts[k].spec.seedSecretName, true)
  }

  // The public keys of the eligible SigningKeys, whatever order a merge puts them in.
  function KeySet(c: Cluster, k: Key): set<string>
    requires k in c.accounts && AllCoupled(Candidates(c, k))
  {
    var keys := FreshKeys(c.accounts[k].uid, Candidates(c, k));
    set n | n in keys :: keys[n].keyPair.publicKey
  }

  // The claims that the cluster calls for, without stamps.
  function DueClaims(c: Cluster, k: Key): Claims
    requires Coupled(c) && k in c.accounts && Surrounded(c, k) && SeedDone(c, k) && AllCoupled(Candidates(c, k))
  {
    AccountClaims(
      ClaimsData("", 0, PublicKey(SignerOf(c, k)), PublicKey(c.secrets[SeedSecretKey(c, k)].data[SeedKey].seed), k.name),
      KeySet(c, k), c.accounts[k].spec.config)
  }

  predicate JwtDone(c: Cluster, k: Key)
    requires Coupled(c) && k in c.accounts && Surrounded(c, k) && SeedDone(c, k)
  {
    CandidatesCoupled(c, k);
    JwtKey(c, k) in c.secrets && Stores(c.secrets[JwtKey(c, k)], DueClaims(c, k))
  }

  lemma CandidatesCoupled(c: Cluster, k: Key)
    requires Coupled(c) && k in c.accounts
    ensures AllCoupled(Candidates(c, k))
  {
  }

  // How many of finalizer, seed secret, label and JWT secret may still have to be written.
  function Rank(c: Cluster, k: Key): nat
    requires Coupled(c) && k in c.accounts && Surrounded(c, k)
  {
    if AccountFinalizer !in c.accounts[k].finalizers then 4
    else if !SeedDone(c, k) then 3
    else if LabelOf(c.accounts[k].labels) != OperatorOf(c, k).name then 2
    else if !JwtDone(c, k) then 1
    else 0
  }

  /******* Steps stay in the setting *******/

  predicate SameButLabel(a: Labels, b: Labels) { SameBut(a, b, LabelOperatorName) }

  // Only this Account's labels, finalizers and status and its own secrets differ.
  predicate Beside(c: Cluster, k: Key, c': Cluster) {
    && k in c.accounts && k in c'.accounts
    && c' == c.(accounts := c'.accounts, secrets := c'.secrets)
    && var acc, acc' := c.accounts[k], c'.accounts[k];
    && acc'.uid == acc.uid && acc'.spec == acc.spec && acc'.deleting == acc.deleting && SameButLabel(acc.labels, acc'.labels)
  }

  lemma IssuerKept(c: Cluster, k: Key, c': Cluster)
    requires Coupled(c) && Coupled(c') && Beside(c, k, c') && Surrounded(c, k)
    ensures ResolveIssuer(c', c.accounts[k].spec.issuer, k.ns, true) == Ok(IssuerOf(c, k))
  {
    hide LoadAccountIssuerSeed, ValidateSelectors, SameButLabel, KeyPairable.Ready, ResolveSigningKeyOwner, Blind, Coupled;
  }

  lemma OwnerKept(c: Cluster, k: Key, c': Cluster)
    requires Coupled(c) && Coupled(c') && Beside(c, k, c') && Surrounded(c, k)
    ensures ResolveOperator(c', IssuerOf(c, k), true) == ResolveOperator(c, IssuerOf(c, k), true)
  {
    hide LoadAccountIssuerSeed, ValidateSelectors, SameButLabel, Blind, Coupled, ResolveIssuer;
  }

  lemma OperatorKept(c: Cluster, k: Key, c': Cluster)
    requires Coupled(c) && Coupled(c') && Beside(c, k, c') && Surrounded(c, k)
    requires ResolveOperator(c', IssuerOf(c, k), true) == ResolveOperator(c, IssuerOf(c, k), true)
    ensures FindOperator(c', k, IssuerOf(c, k), true, true) == Ok(OperatorOf(c, k))
  {
    hide LoadAccountIssuerSeed, ResolveOperator, ResolveIssuer, SameBut, BlindTo, Matches;
    var op := ResolveOperator(c, IssuerOf(c, k), true).value.1;
    if op.spec.accountsSelector.Some? {
      BlindMatches(op.spec.accountsSelector.value, c.accounts[k].labels, c'.accounts[k].labels, LabelOperatorName);
    }
  }

  lemma SurroundedKept(c: Cluster, k: Key, c': Cluster)
    requires Coupled(c) && Coupled(c') && Beside(c, k, c') && Surrounded(c, k)
    requires IssuerSeedKey(c, k) in c.secrets && IssuerSeedKey(c, k) in c'.secrets
    requires c'.secrets[IssuerSeedKey(c, k)] == c.secrets[IssuerSeedKey(c, k)]
    ensures Surrounded(c', k)
    ensures IssuerOf(c', k) == IssuerOf(c, k) && OperatorOf(c', k) == OperatorOf(c, k) && SignerOf(c', k) == SignerOf(c, k)
    ensures IssuerSeedKey(c', k) == IssuerSeedKey(c, k)
  {
    hide ResolveIssuer, ResolveOperator, ValidateSelectors, SameButLabel, CheckIssuerSeed, Blind;
    IssuerKept(c, k, c');
    OwnerKept(c, k, c');
    OperatorKept(c, k, c');
    hide FindOperator;
  }

  lemma IssuerSeedThere(c: Cluster, k: Key)
    requires Coupled(c) && k in c.accounts && Surrounded(c, k)
    ensures IssuerSeedKey(c, k) in c.secrets
  {
    hide ResolveIssuer, FindOperator, CheckIssuerSeed, Blind, ResolveOperator;
  }

  /******* The secret stages succeed *******/

  lemma SeedStageSucceeds(c: Cluster, k: Key, x: AccountOracle)
    requires k in c.accounts && SeedNameFree(c, k)
    requires x.seed.getOk && x.seed.newKey.Some? && x.seed.createOk && x.seed.updateOk
    ensures AccountSeedStage(c, k, x).SeedReady?
    ensures AccountSeedStage(c, k, x).wrote <==> !SeedDone(c, k)
  {
    if AccountSeedStage(c, k, x).SeedReady? {
      SeedStageMeaning(c.secrets, OwnerOf(k, c.accounts[k]), c.accounts[k].spec.seedSecretName, PrefixAccount, true, x.seed);
    }
  }

  lemma JwtStageSucceeds(c: Cluster, k: Key, want: Claims, x: AccountOracle)
    requires k in c.accounts && JwtNameFree(c, k)
    requires x.jwt.getOk && x.jwt.deleteOk && x.jwt.createOk && x.jwt.update == Updated
    ensures AccountJwtStage(c, k, want, x).result.Ok?
    ensures var store := AccountJwtStage(c, k, want, x).store;
            && JwtKey(c, k) in store && JWTKey in store[JwtKey(c, k)].data
            && SetController(OwnerOf(k, c.accounts[k]), store[JwtKey(c, k)].owners).Some?
  {
    var o := OwnerOf(k, c.accounts[k]);
    UpsertMeaning([], RefOf(o));
    if JwtKey(c, k) in c.secrets {
      UpsertMeaning(c.secrets[JwtKey(c, k)].owners, RefOf(o));
    }
  }

  /******* One successful step *******/

  // The status when preparation goes through.
  function PreparedStatus(c: Cluster, k: Key, s: AccountStatus, x: AccountOracle): AccountStatus
    requires Coupled(c) && k in c.accounts && Surrounded(c, k) && SeedDone(c, k)
  {
    s.MarkSeedSecretReady(KeyPair(PublicKey(c.secrets[SeedSecretKey(c, k)].data[SeedKey].seed), c.accounts[k].spec.seedSecretName))
     .MarkOperatorResolved(OperatorOf(c, k)).MarkSigningKeysUpdated(x.keys).MarkIssuerResolved()
  }

  // What is left of preparation once the seed is there: the label.
  lemma PrepareSucceeds(c: Cluster, k: Key, s: AccountStatus, x: AccountOracle)
    requires Setting(c, k) && Supplied(c, k, x) && SeedDone(c, k)
    ensures var p := PrepareSeed(c, k, s, x);
            if LabelOf(c.accounts[k].labels) == OperatorOf(c, k).name
            then p == Go(PreparedStatus(c, k, s, x), SignerOf(c, k))
            else
              && p.Halt? && p.plan.exit == LabelWritten && p.plan.result == Requeue && p.plan.error == None
              && p.plan.store == c.secrets && p.plan.finalizers == c.accounts[k].finalizers
              && p.plan.labels == c.accounts[k].labels[LabelOperatorName := OperatorOf(c, k).name]
  {
    hide ResolveIssuer, FindOperator, LoadAccountIssuerSeed, Blind, ResolveOperator, JwtNameFree, NamesApart, IsNext, AllCoupled;
    hide AccountStatus.Coupled, AccountStatus.Ready, LabelOf, BuildSeedSecret;
    SeedStageSettled(c.secrets, OwnerOf(k, c.accounts[k]), c.accounts[k].spec.seedSecretName, PrefixAccount, true, x.seed);
    hide SeedStage;
  }

  lemma KeysAreDue(c: Cluster, k: Key, x: AccountOracle)
    requires k in c.accounts && Supplied(c, k, x)
    ensures PublicKeysOf(x.keys) == KeySet(c, k)
  {
    hide Candidates, InOrderOf, DistinctNames;
    var keys := FreshKeys(c.accounts[k].uid, Candidates(c, k));
    forall p | p in PublicKeysOf(x.keys) ensures p in KeySet(c, k) {
      var e :| e in x.keys && e.keyPair.publicKey == p;
      assert e.name in keys;
    }
    forall p | p in KeySet(c, k) ensures p in PublicKeysOf(x.keys) {
      var n :| n in keys && keys[n].keyPair.publicKey == p;
      assert keys[n] in x.keys;
    }
  }

  function Wanted(c: Cluster, k: Key, s: AccountStatus, x: AccountOracle): Claims
    requires Coupled(c) && k in c.accounts && Surrounded(c, k) && SeedDone(c, k)
  {
    WantedClaims(c, k, PreparedStatus(c, k, s, x), SignerOf(c, k), x)
  }

  // The claims wanted by any run of the stage are the due claims, up to their stamps.
  lemma WantedIsDue(c: Cluster, k: Key, s: AccountStatus, x: AccountOracle)
    requires Coupled(c) && k in c.accounts && Surrounded(c, k) && SeedDone(c, k) && Supplied(c, k, x)
    ensures Blanked(Wanted(c, k, s, x)) == DueClaims(c, k)
  {
    hide Surrounded, SignerOf, OperatorOf, SeedBuilt, KeySet, PublicKeysOf, IsNext, Candidates;
    KeysAreDue(c, k, x);
  }

  lemma StoresDue(secret: Secret, a: Claims, b: Claims)
    requires Blanked(a) == Blanked(b)
    ensures Stores(secret, a) <==> Stores(secret, b)
  {
  }

  lemma IssueWritesSeed(c: Cluster, k: Key, s: AccountStatus, x: AccountOracle)
    requires Setting(c, k) && Succeeds(c, k, x) && !SeedDone(c, k)
    ensures AccountSeedStage(c, k, x).SeedReady?
    ensures var p := Issue(c, k, s, x);
            && p.exit == SeedWritten && p.result == Requeue && p.error == None
            && p.store == AccountSeedStage(c, k, x).store
            && p.labels == c.accounts[k].labels && p.finalizers == c.accounts[k].finalizers
  {
    hide Surrounded, NamesApart, JwtNameFree, IsNext, AllCoupled, PrepareIssuer, SeedDone;
    SeedStageSucceeds(c, k, x);
    hide AccountSeedStage, SeedNameFree;
  }

  lemma IssueWritesLabel(c: Cluster, k: Key, s: AccountStatus, x: AccountOracle)
    requires Setting(c, k) && Succeeds(c, k, x) && SeedDone(c, k)
    requires LabelOf(c.accounts[k].labels) != OperatorOf(c, k).name
    ensures var p := Issue(c, k, s, x);
            && p.exit == LabelWritten && p.result == Requeue && p.error == None
            && p.store == c.secrets && p.finalizers == c.accounts[k].finalizers
            && p.labels == c.accounts[k].labels[LabelOperatorName := OperatorOf(c, k).name]
  {
    hide Setting, Supplied, SeedDone, LabelOf, PrepareSeed, OperatorOf;
    PrepareSucceeds(c, k, s, x);
  }

  lemma IssueWritesJwt(c: Cluster, k: Key, s: AccountStatus, x: AccountOracle)
    requires Setting(c, k) && Succeeds(c, k, x) && SeedDone(c, k) && !JwtDone(c, k)
    requires LabelOf(c.accounts[k].labels) == OperatorOf(c, k).name
    ensures var p := Issue(c, k, s, x);
            && p.exit == JWTWritten && p.result == Requeue && p.error == None
            && p.store == AccountJwtStage(c, k, Wanted(c, k, s, x), x).store
            && p.labels == c.accounts[k].labels && p.finalizers == c.accounts[k].finalizers
  {
    hide PrepareSeed, PreparedStatus, Push, JwtStage, Surrounded, NamesApart, SeedNameFree, IsNext, AllCoupled, SeedDone, WantedClaims;
    hide DueClaims;
    PrepareSucceeds(c, k, s, x);
    WantedIsDue(c, k, s, x);
    var want := Wanted(c, k, s, x);
    JwtStageSucceeds(c, k, want, x);
    JwtStageMeaning(c.secrets, OwnerOf(k, c.accounts[k]), c.accounts[k].spec.jwtSecretName, want, x.jwt);
    hide JwtNameFree;
  }

  // At measure zero the stored JWT is sent, however the push then ends.
  lemma IssueSends(c: Cluster, k: Key, s: AccountStatus, x: AccountOracle)
    requires Setting(c, k) && Supplied(c, k, x) && SeedDone(c, k) && JwtDone(c, k)
    requires LabelOf(c.accounts[k].labels) == OperatorOf(c, k).name
    ensures Issue(c, k, s, x) ==
              Push(c, k, PreparedStatus(c, k, s, x).MarkJWTSecretReady(), c.secrets[JwtKey(c, k)].data[JWTKey].jwt, x)
  {
    hide PrepareSeed, PreparedStatus, JwtStage, Surrounded, NamesApart, SeedNameFree, IsNext, AllCoupled, SeedDone, WantedClaims;
    hide DueClaims, Push, AccountStatus.Coupled, AccountStatus.Ready;
    PrepareSucceeds(c, k, s, x);
    WantedIsDue(c, k, s, x);
    var want := Wanted(c, k, s, x);
    JwtStageSucceeds(c, k, want, x);
    JwtStageMeaning(c.secrets, OwnerOf(k, c.accounts[k]), c.accounts[k].spec.jwtSecretName, want, x.jwt);
    hide JwtNameFree;
  }

  lemma IssuePushes(c: Cluster, k: Key, s: AccountStatus, x: AccountOracle)
    requires Setting(c, k) && Succeeds(c, k, x) && SeedDone(c, k) && JwtDone(c, k)
    requires LabelOf(c.accounts[k].labels) == OperatorOf(c, k).name
    ensures var p := Issue(c, k, s, x);
            && p.exit == Pushed && p.result == Done && p.error == None
            && p.store == c.secrets && p.writes == []
            && p.labels == c.accounts[k].labels && p.finalizers == c.accounts[k].finalizers
            && p.status == PreparedStatus(c, k, s, x).MarkJWTSecretReady().MarkJWTPushed()
  {
    hide Setting, Supplied, SeedDone, JwtDone, LabelOf, OperatorOf, Issue, PreparedStatus, AccountStatus.Coupled, AccountStatus.Ready;
    IssueSends(c, k, s, x);
  }

  // So a reconcile at measure zero sends the stored JWT.
  lemma ReconcileSends(c: Cluster, k: Key, x: AccountOracle)
    requires Setting(c, k) && Supplied(c, k, x) && Rank(c, k) == 0
    ensures JwtKey(c, k) in c.secrets && StoredJwt(c, k, c.secrets, c.secrets[JwtKey(c, k)].data[JWTKey].jwt)
    ensures x.push == PushSucceeds || x.push == PushFails ==>
              && Reconcile(c, k, x).nats == PushSent(c.secrets[JwtKey(c, k)].data[JWTKey].jwt)
              && Reconcile(c, k, x).exit == if x.push == PushSucceeds then Pushed else PushFailure
  {
    hide Coupled, IsNext, AllCoupled, Issue, Finalize, Surrounded, NamesApart, SeedNameFree, JwtNameFree, SeedDone, DueClaims, OperatorOf, LabelOf;
    hide PreparedStatus, AccountStatus.Coupled, AccountStatus.Ready;
    IssueSends(c, k, c.accounts[k].status.InitializeConditions(), x);
  }

  // When its status is stored, a live Account ends as its stages planned.
  lemma ReconcileShape(c: Cluster, k: Key, x: AccountOracle)
    requires Coupled(c) && k in c.accounts && !c.accounts[k].deleting && x.fetchOk && x.status == StatusStored
    ensures var p := Stages(c, k, c.accounts[k].status.InitializeConditions(), x);
            var st := Reconcile(c, k, x);
            && st.exit == p.exit && st.result == p.result && st.error == p.error
            && st.status == p.status && Coupled(st.c)
            && k in st.c.accounts && st.c.accounts[k] == c.accounts[k].(labels := p.labels, finalizers := p.finalizers, status := p.status)
            && st.c.secrets == p.store
            && (p.status == c.accounts[k].status && p.writes == [] ==> st.writes == [])
            && (SameButLabel(c.accounts[k].labels, p.labels) ==> Beside(c, k, st.c))
  {
    StepFrames(c, k, x);
    hide Stages, Coupled, AccountStatus.Coupled, AccountStatus.Ready;
  }

  // The setting survives when the issuer's seed and the names do.
  lemma SettingKept(c: Cluster, k: Key, c': Cluster)
    requires Setting(c, k) && Coupled(c') && Beside(c, k, c')
    requires IssuerSeedKey(c, k) in c.secrets ==>
               IssuerSeedKey(c, k) in c'.secrets && c'.secrets[IssuerSeedKey(c, k)] == c.secrets[IssuerSeedKey(c, k)]
    requires SeedNameFree(c', k) && JwtNameFree(c', k)
    ensures Setting(c', k)
    ensures IssuerOf(c', k) == IssuerOf(c, k) && OperatorOf(c', k) == OperatorOf(c, k) && SignerOf(c', k) == SignerOf(c, k)
  {
    IssuerSeedThere(c, k);
    SurroundedKept(c, k, c');
    hide Surrounded, IssuerOf, OperatorOf, SignerOf, SeedNameFree, JwtNameFree, IssuerSeedKey, Coupled;
  }

  // The four writes, each followed by a requeue, each lowering the measure.
  ghost predicate Lowers(c: Cluster, k: Key, st: Step) {
    && Setting(c, k) && Setting(st.c, k) && Rank(st.c, k) < Rank(c, k)
    && st.result == Requeue && st.error == None
  }

  // No secret is touched.
  lemma ObjectWriteKeepsSetting(c: Cluster, k: Key, c': Cluster)
    requires Setting(c, k) && Coupled(c') && Beside(c, k, c') && c'.secrets == c.secrets
    ensures Setting(c', k) && OperatorOf(c', k) == OperatorOf(c, k)
    ensures SeedDone(c', k) <==> SeedDone(c, k)
    ensures SeedDone(c, k) && SeedDone(c', k) ==> (JwtDone(c', k) <==> JwtDone(c, k))
  {
    assert SeedNameFree(c', k) && JwtNameFree(c', k);
    SettingKept(c, k, c');
    if SeedDone(c, k) {
      hide Coupled, Setting, Surrounded, IssuerOf, OperatorOf, SignerOf, SeedNameFree, JwtNameFree, SeedBuilt, NamesApart, FreshKeys, Stores;
      assert DueClaims(c', k) == DueClaims(c, k);
    }
  }

  lemma FinalizerStep(c: Cluster, k: Key, x: AccountOracle)
    requires Setting(c, k) && Succeeds(c, k, x) && AccountFinalizer !in c.accounts[k].finalizers
    ensures Lowers(c, k, Reconcile(c, k, x))
  {
    hide Surrounded, Coupled, IsNext, AllCoupled, NamesApart, SeedNameFree, JwtNameFree, Issue, Finalize, Reconcile;
    ReconcileShape(c, k, x);
    ObjectWriteKeepsSetting(c, k, Reconcile(c, k, x).c);
    hide Setting, SeedDone, JwtDone, OperatorOf;
  }

  lemma SeedStep(c: Cluster, k: Key, x: AccountOracle)
    requires Setting(c, k) && Succeeds(c, k, x) && AccountFinalizer in c.accounts[k].finalizers && !SeedDone(c, k)
    ensures Lowers(c, k, Reconcile(c, k, x))
  {
    hide Surrounded, Coupled, IsNext, AllCoupled, NamesApart, SeedNameFree, JwtNameFree, Issue, Finalize, Reconcile;
    hide SeedDone, AccountSeedStage;
    ReconcileShape(c, k, x);
    IssueWritesSeed(c, k, c.accounts[k].status.InitializeConditions(), x);
    SeedStageKeepsSetting(c, k, x, Reconcile(c, k, x).c);
    hide Setting, JwtDone, OperatorOf;
  }

  lemma SeedStageKeepsSetting(c: Cluster, k: Key, x: AccountOracle, c': Cluster)
    requires Setting(c, k) && Coupled(c') && Beside(c, k, c')
    requires AccountSeedStage(c, k, x).SeedReady? && c'.secrets == AccountSeedStage(c, k, x).store
    ensures Setting(c', k) && SeedDone(c', k)
  {
    hide Surrounded, Coupled, SeedStage, SameButLabel;
    SeedStageMeaning(c.secrets, OwnerOf(k, c.accounts[k]), c.accounts[k].spec.seedSecretName, PrefixAccount, true, x.seed);
    assert SeedDone(c', k) && JwtNameFree(c', k);
    SeedDoneIsFree(c', k);
    SettingKept(c, k, c');
    hide Setting, SeedDone, SeedNameFree, JwtNameFree, SeedBuilt;
  }

  lemma SeedDoneIsFree(c: Cluster, k: Key)
    requires k in c.accounts && SeedDone(c, k)
    ensures SeedNameFree(c, k)
  {
  }

  lemma LabelStep(c: Cluster, k: Key, x: AccountOracle)
    requires Setting(c, k) && Succeeds(c, k, x) && AccountFinalizer in c.accounts[k].finalizers && SeedDone(c, k)
    requires LabelOf(c.accounts[k].labels) != OperatorOf(c, k).name
    ensures Lowers(c, k, Reconcile(c, k, x))
  {
    hide Surrounded, Coupled, IsNext, AllCoupled, NamesApart, SeedNameFree, JwtNameFree, Issue, Finalize, Reconcile;
    hide SeedDone, OperatorOf;
    ReconcileShape(c, k, x);
    IssueWritesLabel(c, k, c.accounts[k].status.InitializeConditions(), x);
    ObjectWriteKeepsSetting(c, k, Reconcile(c, k, x).c);
    hide Setting, JwtDone;
  }

  lemma JwtStep(c: Cluster, k: Key, x: AccountOracle)
    requires Setting(c, k) && Succeeds(c, k, x) && AccountFinalizer in c.accounts[k].finalizers && SeedDone(c, k)
    requires LabelOf(c.accounts[k].labels) == OperatorOf(c, k).name && !JwtDone(c, k)
    ensures Lowers(c, k, Reconcile(c, k, x))
  {
    hide Surrounded, Coupled, IsNext, AllCoupled, NamesApart, SeedNameFree, JwtNameFree, Issue, Finalize, Reconcile;
    hide SeedDone, JwtDone, OperatorOf, AccountJwtStage;
    var s := c.accounts[k].status.InitializeConditions();
    ReconcileShape(c, k, x);
    IssueWritesJwt(c, k, s, x);
    JwtStageKeepsSetting(c, k, s, x, Reconcile(c, k, x).c);
    hide Setting;
  }

  lemma JwtStageKeepsSetting(c: Cluster, k: Key, s: AccountStatus, x: AccountOracle, c': Cluster)
    requires Setting(c, k) && Succeeds(c, k, x) && SeedDone(c, k) && Coupled(c') && Beside(c, k, c')
    requires c'.secrets == AccountJwtStage(c, k, Wanted(c, k, s, x), x).store
    ensures Setting(c', k) && OperatorOf(c', k) == OperatorOf(c, k)
    ensures SeedDone(c', k) && JwtDone(c', k)
  {
    var want := Wanted(c, k, s, x);
    WantedIsDue(c, k, s, x);
    hide Wanted, Surrounded, Coupled, IsNext, AllCoupled, JwtStage;
    var o, name := OwnerOf(k, c.accounts[k]), c.accounts[k].spec.jwtSecretName;
    JwtStageSucceeds(c, k, want, x);
    JwtStageMeaning(c.secrets, o, name, want, x.jwt);
    JwtStageFrame(c.secrets, o, name, want, Signed(want), x.jwt, SeedSecretKey(c, k));
    IssuerSeedThere(c, k);
    JwtStageFrame(c.secrets, o, name, want, Signed(want), x.jwt, IssuerSeedKey(c, k));
    assert SeedDone(c', k) && JwtNameFree(c', k);
    SeedDoneIsFree(c', k);
    SettingKept(c, k, c');
    hide Setting, SeedNameFree, JwtNameFree;
    assert DueClaims(c', k) == DueClaims(c, k);
    StoresDue(c'.secrets[JwtKey(c, k)], want, DueClaims(c, k));
  }

  /******* The end *******/

  // All conditions True, the fields as the cluster calls for, the key list its own merge.
  ghost predicate Settled(c: Cluster, k: Key) {
    && Setting(c, k) && Rank(c, k) == 0
    && var s := c.accounts[k].status;
    && s == SettledStatus(c, k, s.signingKeys)
    && AllCoupled(Candidates(c, k))
    && IsNext(s.signingKeys, c.accounts[k].uid, s.signingKeys, Candidates(c, k))
  }

  function SettledStatus(c: Cluster, k: Key, keys: seq<SigningKeyEntry>): (s: AccountStatus)
    requires Coupled(c) && k in c.accounts && Surrounded(c, k) && SeedDone(c, k)
    ensures s.Ready()
  {
    var pair := KeyPair(PublicKey(c.secrets[SeedSecretKey(c, k)].data[SeedKey].seed), c.accounts[k].spec.seedSecretName);
    AccountStatus(Up, Up, Up, Counted(|keys|), Up, Up, Some(pair), keys, Some(OperatorOf(c, k)))
  }

  // At measure zero a reconcile pushes and settles; on a settled Account it writes nothing at all.
  lemma PushStep(c: Cluster, k: Key, x: AccountOracle)
    requires Setting(c, k) && Succeeds(c, k, x) && Rank(c, k) == 0
    ensures var st := Reconcile(c, k, x);
            && st.exit == Pushed && st.result == Done && st.error == None && Settled(st.c, k)
            && (Settled(c, k) ==> st.writes == [] && st.c == c)
  {
    hide Surrounded, Coupled, IsNext, AllCoupled, NamesApart, SeedNameFree, JwtNameFree, Issue, Finalize, Reconcile, SeedDone, JwtDone, OperatorOf;
    hide AccountStatus.Coupled, AccountStatus.Ready;
    ReconcileShape(c, k, x);
    var s := c.accounts[k].status.InitializeConditions();
    IssuePushes(c, k, s, x);
    var c' := Reconcile(c, k, x).c;
    ObjectWriteKeepsSetting(c, k, c');
    SettledByMerge(c, k, x);
    hide Setting;
    assert Reconcile(c, k, x).status == SettledStatus(c, k, x.keys);
    if Settled(c, k) {
      StepFrames(c, k, x);
      Unchanged(c, k, c');
    }
  }

  lemma Unchanged(c: Cluster, k: Key, c': Cluster)
    requires Frames(c, k, c') && k in c.accounts && k in c'.accounts
    requires c'.accounts[k] == c.accounts[k] && c'.secrets == c.secrets
    ensures c' == c
  {
    forall q | q != k ensures q in c.accounts <==> q in c'.accounts
                      ensures q in c.accounts && q in c'.accounts ==> c.accounts[q] == c'.accounts[q] {
      assert q in c.accounts <==> q in c.accounts - {k};
      assert q in c'.accounts <==> q in c'.accounts - {k};
    }
    assert c'.accounts == c.accounts;
  }

  lemma SettledByMerge(c: Cluster, k: Key, x: AccountOracle)
    requires k in c.accounts && Succeeds(c, k, x)
    ensures var uid, items := c.accounts[k].uid, Candidates(c, k);
            && IsNext(x.keys, uid, x.keys, items)
            && (IsNext(c.accounts[k].status.signingKeys, uid, c.accounts[k].status.signingKeys, items) ==>
                  x.keys == c.accounts[k].status.signingKeys)
  {
    hide Candidates, IsMerge;
    var current, eligible := c.accounts[k].status.signingKeys, FreshKeys(c.accounts[k].uid, Candidates(c, k));
    MergeReachesFixpoint(current, eligible, x.keys);
    if IsMerge(current, current, eligible) {
      MergeFixpoint(current, eligible, x.keys);
    }
  }

  lemma Progress(c: Cluster, k: Key, x: AccountOracle)
    requires Setting(c, k) && Succeeds(c, k, x) && Rank(c, k) > 0
    ensures Lowers(c, k, Reconcile(c, k, x))
  {
    if AccountFinalizer !in c.accounts[k].finalizers {
      FinalizerStep(c, k, x);
    } else if !SeedDone(c, k) {
      SeedStep(c, k, x);
    } else if LabelOf(c.accounts[k].labels) != OperatorOf(c, k).name {
      LabelStep(c, k, x);
    } else {
      JwtStep(c, k, x);
    }
  }

  /******* Runs *******/

  // Every reconcile in turn meets with success.
  ghost predicate AllSucceed(c: Cluster, k: Key, xs: seq<AccountOracle>)
    requires Coupled(c)
    decreases |xs|
  {
    xs == [] ||
    (&& k in c.accounts && Succeeds(c, k, xs[0])
     && (StepFrames(c, k, xs[0]);
         AllSucceed(Reconcile(c, k, xs[0]).c, k, xs[1..])))
  }

  function Reconciled(c: Cluster, k: Key, xs: seq<AccountOracle>): Cluster
    requires Coupled(c) && AllSucceed(c, k, xs)
    decreases |xs|
  {
    if xs == [] then c
    else
      StepFrames(c, k, xs[0]);
      Reconciled(Reconcile(c, k, xs[0]).c, k, xs[1..])
  }

  // After as many reconciles as the measure says, and one more, the Account is Ready for good:
  // at most five from any start.
  lemma {:induction false} Converges(c: Cluster, k: Key, xs: seq<AccountOracle>)
    requires Setting(c, k) && AllSucceed(c, k, xs)
    requires |xs| > Rank(c, k) || Settled(c, k)
    ensures var end := Reconciled(c, k, xs);
            Settled(end, k) && end.accounts[k].status.Ready()
    decreases |xs|
  {
    hide Rank, Surrounded, Succeeds, Reconcile, SeedNameFree, JwtNameFree, NamesApart;
    if xs != [] {
      if Rank(c, k) > 0 { Progress(c, k, xs[0]); } else { PushStep(c, k, xs[0]); }
      Converges(Reconcile(c, k, xs[0]).c, k, xs[1..]);
    }
  }

  // From then on no reconcile writes anything to the API server.
  lemma SettledIsQuiet(c: Cluster, k: Key, x: AccountOracle)
    requires Settled(c, k) && Succeeds(c, k, x)
    ensures var st := Reconcile(c, k, x);
            st.writes == [] && st.c == c && st.exit == Pushed && st.result == Done && st.error == None
  {
    hide Rank, Surrounded, SeedNameFree, JwtNameFree, NamesApart, Reconcile;
    PushStep(c, k, x);
  }
}
