/**
 Runs of all four controllers and of everything else that happens to a cluster.
 */
module ControllerRuns {
  import opened Texts
  import opened Lifecycles
  import opened Errors
  import opened Secrets
  import opened SigningKeys
  import opened ClusterState
  import opened SecretStages
  import opened AccountController
  import opened OperatorController
  import opened UserController
  import opened SigningKeyController
  import Accounts = AccountTheorems
  import Operators = OperatorTheorems
  import Users = UserTheorems
  import Seeds = UserSeeds

  // A reconcile of some object, or any change by others.
  datatype Move =
    | MoveOperator(k: Key, y: OperatorOracle)
    | MoveAccount(k: Key, x: AccountOracle)
    | MoveUser(k: Key, u: UserOracle)
    | MoveKey(k: Key, z: KeyOracle)
    | Elsewhere(next: Cluster)

  function Moved(c: Cluster, m: Move): Cluster
    requires Coupled(c)
  {
    match m
    case MoveOperator(k, y) => ReconcileOperator(c, k, y).c
    case MoveAccount(k, x) => Reconcile(c, k, x).c
    case MoveUser(k, u) => ReconcileUser(c, k, u).c
    case MoveKey(k, z) => ReconcileKey(c, k, z).c
    case Elsewhere(next) => next
  }

  // Others may do as they like, as long as they write statuses whole.
  ghost predicate Orderly(m: Move) { m.Elsewhere? ==> Coupled(m.next) }

  ghost predicate AllOrderly(moves: seq<Move>) {
    forall m :: m in moves ==> Orderly(m)
  }

  // Every status of the cluster stays coupled, whichever controller runs and whatever the calls return.
  lemma MoveKeepsCoupled(c: Cluster, m: Move)
    requires Coupled(c) && Orderly(m)
    ensures Coupled(Moved(c, m))
  {
    hide Coupled, Reconcile, ReconcileOperator, ReconcileUser, ReconcileKey;
    match m
    case MoveOperator(k, y) => Operators.OperatorStepMeaning(c, k, y);
    case MoveAccount(k, x) => Accounts.StepFrames(c, k, x);
    case MoveUser(k, u) => Users.UserStepMeaning(c, k, u);
    case MoveKey(k, z) => KeyStepMeaning(c, k, z);
    case Elsewhere(_) =>
  }

  lemma OrderlySplits(moves: seq<Move>)
    requires AllOrderly(moves) && moves != []
    ensures Orderly(moves[0]) && AllOrderly(moves[1..])
  {
    hide Orderly;
  }

  function Ran(c: Cluster, moves: seq<Move>): Cluster
    requires Coupled(c) && AllOrderly(moves)
    decreases |moves|
  {
    if moves == [] then c
    else
      OrderlySplits(moves);
      MoveKeepsCoupled(c, moves[0]);
      Ran(Moved(c, moves[0]), moves[1..])
  }

  // In every reachable state every status pairs its conditions with its fields.
  lemma {:induction false} StatusesStayCoupled(c: Cluster, moves: seq<Move>)
    requires Coupled(c) && AllOrderly(moves)
    ensures Coupled(Ran(c, moves))
    decreases |moves|
  {
    hide Coupled, Moved, AllOrderly;
    if moves != [] {
      OrderlySplits(moves);
      MoveKeepsCoupled(c, moves[0]);
      StatusesStayCoupled(Moved(c, moves[0]), moves[1..]);
    }
  }

  /******* Seeds *******/

  // Others leave this secret alone.
  predicate Spares(c: Cluster, m: Move, q: Key) {
    m.Elsewhere? ==> (q in c.secrets ==> q in m.next.secrets && m.next.secrets[q] == c.secrets[q])
  }

  ghost predicate SparesAll(c: Cluster, moves: seq<Move>, q: Key)
    requires Coupled(c) && AllOrderly(moves)
    decreases |moves|
  {
    moves == [] ||
    (&& Spares(c, moves[0], q)
     && (OrderlySplits(moves);
         MoveKeepsCoupled(c, moves[0]);
         SparesAll(Moved(c, moves[0]), moves[1..], q)))
  }

  lemma MoveKeepsSeed(c: Cluster, m: Move, q: Key, seed: Seed)
    requires Coupled(c) && Spares(c, m, q) && GuardedSeed(c.secrets, q, seed)
    ensures GuardedSeed(Moved(c, m).secrets, q, seed)
  {
    hide Coupled, Reconcile, ReconcileOperator, ReconcileUser, ReconcileKey;
    match m
    case MoveOperator(k, y) => Operators.OperatorStepKeepsSeeds(c, k, y, q, seed);
    case MoveAccount(k, x) => Accounts.StepKeepsSeeds(c, k, x, q, seed);
    case MoveUser(k, u) => Seeds.UserStepKeepsGuarded(c, k, u, q, seed);
    case MoveKey(k, z) => KeyStepMeaning(c, k, z);
    case Elsewhere(_) =>
  }

  // Over every run of every controller the seed of an Operator or Account stays what it was.
  lemma {:induction false} SeedsSurvive(c: Cluster, moves: seq<Move>, q: Key, seed: Seed)
    requires Coupled(c) && AllOrderly(moves) && SparesAll(c, moves, q) && GuardedSeed(c.secrets, q, seed)
    ensures GuardedSeed(Ran(c, moves).secrets, q, seed)
    decreases |moves|
  {
    hide GuardedSeed, Moved, AllOrderly, Coupled;
    if moves != [] {
      OrderlySplits(moves);
      MoveKeepsCoupled(c, moves[0]);
      MoveKeepsSeed(c, moves[0], q, seed);
      SeedsSurvive(Moved(c, moves[0]), moves[1..], q, seed);
    }
  }

  /******* Seeds of Users and SigningKeys *******/

  // The holder, if it is a User and while it is there, has this UID, this seed secret and its three names
  // apart; no other object that stores JWTs has the holder's UID.
  ghost predicate InPlace(c: Cluster, h: Holder, q: Key) {
    && (forall k :: k in c.users ==> Seeds.HolderOrOther(c, k, h, q))
    && (forall k :: k in c.accounts ==> c.accounts[k].uid != h.uid)
    && (forall k :: k in c.operators ==> c.operators[k].uid != h.uid)
  }

  // No controller changes a UID or a spec.
  predicate SameObjects(c: Cluster, c': Cluster) {
    && (forall k :: k in c'.users ==> k in c.users && c'.users[k].uid == c.users[k].uid && c'.users[k].spec == c.users[k].spec)
    && (forall k :: k in c'.accounts ==> k in c.accounts && c'.accounts[k].uid == c.accounts[k].uid)
    && (forall k :: k in c'.operators ==> k in c.operators && c'.operators[k].uid == c.operators[k].uid)
  }

  lemma MoveKeepsObjects(c: Cluster, m: Move)
    requires Coupled(c) && !m.Elsewhere?
    ensures SameObjects(c, Moved(c, m))
  {
    hide Coupled, Reconcile, ReconcileOperator, ReconcileUser, ReconcileKey, SameObjects;
    match m
    case MoveOperator(k, y) => OperatorKeepsObjects(c, k, y);
    case MoveAccount(k, x) =>
      Accounts.StepFrames(c, k, x);
      SameAccounts(c, k, Reconcile(c, k, x).c);
    case MoveUser(k, u) => UserKeepsObjects(c, k, u);
    case MoveKey(k, z) => KeyKeepsObjects(c, k, z);
  }

  lemma OperatorKeepsObjects(c: Cluster, k: Key, y: OperatorOracle)
    requires Coupled(c)
    ensures SameObjects(c, ReconcileOperator(c, k, y).c)
  {
    hide OperatorStages, Coupled, OperatorStatus.Coupled, OperatorStatus.Ready;
  }

  lemma UserKeepsObjects(c: Cluster, k: Key, u: UserOracle)
    requires Coupled(c)
    ensures SameObjects(c, ReconcileUser(c, k, u).c)
  {
    hide UserStages, Coupled, UserStatus.Coupled, UserStatus.Ready;
  }

  lemma KeyKeepsObjects(c: Cluster, k: Key, z: KeyOracle)
    requires Coupled(c)
    ensures SameObjects(c, ReconcileKey(c, k, z).c)
  {
    KeyStepMeaning(c, k, z);
    hide ReconcileKey, Coupled;
  }

  lemma SameAccounts(c: Cluster, k: Key, c': Cluster)
    requires Accounts.Frames(c, k, c')
    ensures SameObjects(c, c')
  {
    forall q | q in c'.accounts ensures q in c.accounts && c'.accounts[q].uid == c.accounts[q].uid {
      if q != k { assert q in c'.accounts - {k}; }
    }
  }

  lemma ObjectsKeepInPlace(c: Cluster, c': Cluster, h: Holder, q: Key)
    requires SameObjects(c, c') && InPlace(c, h, q)
    ensures InPlace(c', h, q)
  {
    forall k | k in c'.users ensures Seeds.HolderOrOther(c', k, h, q) { assert Seeds.HolderOrOther(c, k, h, q); }
  }

  lemma OperatorKeepsOwned(c: Cluster, k: Key, y: OperatorOracle, h: Holder, q: Key, seed: Seed)
    requires Coupled(c) && (k in c.operators ==> c.operators[k].uid != h.uid) && OwnedSeed(c.secrets, q, seed, h)
    requires h.kind == KindUser || h.kind == KindSigningKey
    ensures OwnedSeed(ReconcileOperator(c, k, y).c.secrets, q, seed, h)
  {
    if k in c.operators {
      hide OperatorStages, OwnedSeed, SeedStage, JwtStage, Coupled;
      Operators.OperatorStepTraced(c, k, y);
      var store, o, spec := ReconcileOperator(c, k, y).c.secrets, OperatorOwner(k, c.operators[k]), c.operators[k].spec;
      if OperatorSeedStage(c, k, y).SeedReady? && store == OperatorSeedStage(c, k, y).store {
        SeedStageKeepsOwned(c.secrets, o, spec.seedSecretName, PrefixOperator, true, y.seed, q, seed, h);
      } else if store != c.secrets {
        var want: Claims :| store == Operators.OperatorJwtOut(c, k, want, y).store;
        JwtStageKeepsOwned(c.secrets, o, spec.jwtSecretName, want, Signed(want), y.jwt, q, seed, h);
      }
    }
  }

  lemma AccountKeepsOwned(c: Cluster, k: Key, x: AccountOracle, h: Holder, q: Key, seed: Seed)
    requires Coupled(c) && (k in c.accounts ==> c.accounts[k].uid != h.uid) && OwnedSeed(c.secrets, q, seed, h)
    requires h.kind == KindUser || h.kind == KindSigningKey
    ensures OwnedSeed(Reconcile(c, k, x).c.secrets, q, seed, h)
  {
    if k in c.accounts {
      hide Stages, OwnedSeed, SeedStage, JwtStage, Coupled;
      Accounts.StepTraced(c, k, x);
      var store, o, spec := Reconcile(c, k, x).c.secrets, OwnerOf(k, c.accounts[k]), c.accounts[k].spec;
      if AccountSeedStage(c, k, x).SeedReady? && store == AccountSeedStage(c, k, x).store {
        SeedStageKeepsOwned(c.secrets, o, spec.seedSecretName, PrefixAccount, true, x.seed, q, seed, h);
      } else if store != c.secrets {
        var want: Claims :| store == AccountJwtStage(c, k, want, x).store;
        JwtStageKeepsOwned(c.secrets, o, spec.jwtSecretName, want, Signed(want), x.jwt, q, seed, h);
      }
    }
  }

  lemma MoveKeepsOwned(c: Cluster, m: Move, h: Holder, q: Key, seed: Seed)
    requires Coupled(c) && Spares(c, m, q) && InPlace(c, h, q) && OwnedSeed(c.secrets, q, seed, h)
    requires h.kind == KindUser || h.kind == KindSigningKey
    ensures OwnedSeed(Moved(c, m).secrets, q, seed, h)
  {
    hide Coupled, Reconcile, ReconcileOperator, ReconcileUser, ReconcileKey, Seeds.HolderOrOther;
    match m
    case MoveOperator(k, y) => OperatorKeepsOwned(c, k, y, h, q, seed);
    case MoveAccount(k, x) => AccountKeepsOwned(c, k, x, h, q, seed);
    case MoveUser(k, x) => Seeds.UserStepKeepsOwned(c, k, x, h, q, seed);
    case MoveKey(k, z) => KeyStepMeaning(c, k, z);
    case Elsewhere(_) =>
  }

  // Along the run others neither touch the secret nor reuse the UID or the names.
  ghost predicate SparesHolder(c: Cluster, moves: seq<Move>, h: Holder, q: Key)
    requires Coupled(c) && AllOrderly(moves)
    decreases |moves|
  {
    moves == [] ||
    (&& Spares(c, moves[0], q) && (moves[0].Elsewhere? ==> InPlace(moves[0].next, h, q))
     && (OrderlySplits(moves);
         MoveKeepsCoupled(c, moves[0]);
         SparesHolder(Moved(c, moves[0]), moves[1..], h, q)))
  }

  // Over every run of every controller the seed of a User or a SigningKey stays what it was, whatever
  // names the other objects give their secrets.
  lemma {:induction false} OwnedSeedsSurvive(c: Cluster, moves: seq<Move>, h: Holder, q: Key, seed: Seed)
    requires Coupled(c) && AllOrderly(moves) && SparesHolder(c, moves, h, q)
    requires InPlace(c, h, q) && OwnedSeed(c.secrets, q, seed, h) && (h.kind == KindUser || h.kind == KindSigningKey)
    ensures OwnedSeed(Ran(c, moves).secrets, q, seed, h)
    decreases |moves|
  {
    hide OwnedSeed, Moved, InPlace, AllOrderly, Coupled;
    if moves != [] {
      OrderlySplits(moves);
      MoveKeepsCoupled(c, moves[0]);
      MoveKeepsOwned(c, moves[0], h, q, seed);
      if moves[0].Elsewhere? {
        assert Moved(c, moves[0]) == moves[0].next by { NextIsMoved(c, moves[0]); }
      } else {
        MoveKeepsObjects(c, moves[0]);
        ObjectsKeepInPlace(c, Moved(c, moves[0]), h, q);
      }
      OwnedSeedsSurvive(Moved(c, moves[0]), moves[1..], h, q, seed);
    }
  }

  lemma NextIsMoved(c: Cluster, m: Move)
    requires Coupled(c) && m.Elsewhere?
    ensures Moved(c, m) == m.next
  {
  }

  /******* Published keys are keys *******/

  // A key pair in the status of an Account is one that some seed has.
  predicate RealPair(pair: Option<KeyPair>) {
    pair.Some? ==> pair.value.publicKey != ""
  }

  ghost predicate RealKeys(c: Cluster) {
    forall k :: k in c.accounts ==> RealPair(c.accounts[k].status.keyPair)
  }

  lemma PrepareKeepsReal(c: Cluster, k: Key, s: AccountStatus, issuer: KeyPairable, x: AccountOracle)
    requires Coupled(c) && k in c.accounts && RealPair(s.keyPair) && RealPair(c.accounts[k].status.keyPair)
    requires issuer.IssuerSigningKey? ==> issuer.signingKey.status.Coupled()
    ensures match PrepareOperator(c, k, s, issuer, x)
            case Halt(p) => RealPair(p.status.keyPair)
            case Go(s', _) => RealPair(s'.keyPair)
  {
    hide FindOperator, LoadAccountIssuerSeed, Verdict, AccountStatus.Coupled, AccountStatus.Ready, Coupled, LabelOf;
  }

  lemma StoreKeepsReal(c: Cluster, k: Key, s: AccountStatus, seed: Seed, x: AccountOracle)
    requires k in c.accounts && RealPair(s.keyPair)
    ensures RealPair(StoreJWT(c, k, s, seed, x).status.keyPair)
  {
    hide Verdict, AccountJwtStage, WantedClaims, AccountStatus.Coupled, AccountStatus.Ready;
  }

  lemma PrepareSeedKeepsReal(c: Cluster, k: Key, s: AccountStatus, x: AccountOracle)
    requires Coupled(c) && k in c.accounts && RealPair(s.keyPair) && RealPair(c.accounts[k].status.keyPair)
    ensures match PrepareSeed(c, k, s, x)
            case Halt(p) => RealPair(p.status.keyPair)
            case Go(s', _) => RealPair(s'.keyPair)
  {
    hide SeedStage, PrepareOperator, Verdict, AccountStatus.Coupled, AccountStatus.Ready;
    var out := AccountSeedStage(c, k, x);
    if out.SeedReady? {
      SeedStageMeaning(c.secrets, OwnerOf(k, c.accounts[k]), c.accounts[k].spec.seedSecretName, PrefixAccount, true, x.seed);
      assert PublicKey(out.seed) != "";
      var issuer := ResolveIssuer(c, c.accounts[k].spec.issuer, k.ns, x.issuerOk);
      if issuer.Ok? {
        IssuerOfKeyCoupled(c, c.accounts[k].spec.issuer, k.ns, x.issuerOk);
        PrepareKeepsReal(c, k, s.MarkSeedSecretReady(out.keyPair), issuer.value, x);
      }
    }
    hide ResolveIssuer, Coupled, SeedBuilt, HoldsSeed;
  }

  lemma IssueKeepsReal(c: Cluster, k: Key, s: AccountStatus, x: AccountOracle)
    requires Coupled(c) && k in c.accounts && RealPair(s.keyPair) && RealPair(c.accounts[k].status.keyPair)
    ensures RealPair(Issue(c, k, s, x).status.keyPair)
  {
    hide PrepareSeed, StoreJWT, Coupled;
    PrepareSeedKeepsReal(c, k, s, x);
    match PrepareSeed(c, k, s, x)
    case Halt(_) =>
    case Go(s', seed) => StoreKeepsReal(c, k, s', seed, x);
  }

  lemma StagesKeepReal(c: Cluster, k: Key, s: AccountStatus, x: AccountOracle)
    requires Coupled(c) && k in c.accounts && RealPair(s.keyPair) && RealPair(c.accounts[k].status.keyPair)
    ensures RealPair(Stages(c, k, s, x).status.keyPair)
  {
    hide Issue, Coupled, FinalizeAccount, AccountStatus.Coupled, AccountStatus.Ready;
    FinalizeKeepsPair(c, s, x);
    IssueKeepsReal(c, k, s, x);
  }

  lemma AccountStepKeepsReal(c: Cluster, k: Key, x: AccountOracle)
    requires Coupled(c) && RealKeys(c)
    ensures RealKeys(Reconcile(c, k, x).c)
  {
    hide Stages, Coupled, AccountStatus.Coupled, AccountStatus.Ready;
    if x.fetchOk && k in c.accounts {
      StagesKeepReal(c, k, c.accounts[k].status.InitializeConditions(), x);
    }
  }

  lemma MoveKeepsReal(c: Cluster, m: Move)
    requires Coupled(c) && RealKeys(c) && (m.Elsewhere? ==> RealKeys(m.next))
    ensures RealKeys(Moved(c, m))
  {
    hide Coupled, Reconcile, ReconcileOperator, ReconcileUser, ReconcileKey;
    match m
    case MoveOperator(k, y) => Operators.OperatorStepMeaning(c, k, y);
    case MoveAccount(k, x) => AccountStepKeepsReal(c, k, x);
    case MoveUser(k, u) => Users.UserStepMeaning(c, k, u);
    case MoveKey(k, z) => KeyStepMeaning(c, k, z);
    case Elsewhere(_) =>
  }

  lemma FinalizeKeepsPair(c: Cluster, s: AccountStatus, x: AccountOracle)
    ensures FinalizeAccount(c, s, x).FinalizeError? ==> FinalizeAccount(c, s, x).status.keyPair == s.keyPair
  {
  }

  // Others do not write key pairs into the statuses of Accounts.
  ghost predicate AllReal(moves: seq<Move>) {
    forall m :: m in moves && m.Elsewhere? ==> RealKeys(m.next)
  }

  lemma {:induction false} RunKeepsReal(c: Cluster, moves: seq<Move>)
    requires Coupled(c) && AllOrderly(moves) && AllReal(moves) && RealKeys(c)
    ensures RealKeys(Ran(c, moves))
    decreases |moves|
  {
    hide Coupled, Moved, AllOrderly, RealKeys;
    if moves != [] {
      OrderlySplits(moves);
      MoveKeepsCoupled(c, moves[0]);
      assert moves[0] in moves;
      MoveKeepsReal(c, moves[0]);
      assert AllReal(moves[1..]);
      RunKeepsReal(Moved(c, moves[0]), moves[1..]);
    }
  }

  /******* User JWTs *******/

  // The account that a reconcile of a User resolves.
  function ResolvedAccount(c: Cluster, k: Key, u: UserOracle): Option<Account>
    requires Coupled(c) && k in c.users
  {
    var issuer := ResolveIssuer(c, c.users[k].spec.issuer, k.ns, u.issuerOk);
    if issuer.Fail? then None
    else
      IssuerOfKeyCoupled(c, c.users[k].spec.issuer, k.ns, u.issuerOk);
      var found := FindAccount(c, issuer.value, u.ownerOk);
      if found.FoundAccount? then Some(found.account) else None
  }

  // The JWT that the reconcile stores names the User's key as subject, and as its effective account
  // the public key of the resolved Account.
  predicate Issues(c: Cluster, k: Key, u: UserOracle)
    requires Coupled(c)
  {
    && k in c.users && ResolvedAccount(c, k, u).Some? && ResolvedAccount(c, k, u).value.status.keyPair.Some?
    && var st, q := ReconcileUser(c, k, u), Users.UserJwtKey(c, k);
    && Users.JwtPresent(st.c.secrets, q) && st.c.secrets[q].data[JWTKey].jwt.Signed?
    && var claims := st.c.secrets[q].data[JWTKey].jwt.claims;
    && claims.UserClaims?
    && Users.EffectiveAccount(claims) == ResolvedAccount(c, k, u).value.status.keyPair.value.publicKey
    && st.status.keyPair.Some? && claims.data.subject == st.status.keyPair.value.publicKey
  }

  // Whether an Account or a SigningKey issues it, every user JWT that is written belongs to the
  // resolved Account: the effective account is that one's public key.
  lemma UserIssuance(c: Cluster, k: Key, u: UserOracle)
    requires Coupled(c) && RealKeys(c) && ReconcileUser(c, k, u).exit == UserJWTWritten
    ensures Issues(c, k, u)
  {
    hide ReconcileUser, LoadIssuerSeed;
    Users.UserStepMeaning(c, k, u);
    ResolvedIsReal(c, k, u);
    hide ResolveIssuer, FindAccount, Coupled, RealKeys;
  }

  lemma ResolvedIsReal(c: Cluster, k: Key, u: UserOracle)
    requires Coupled(c) && RealKeys(c) && k in c.users && ResolvedAccount(c, k, u).Some?
    ensures RealPair(ResolvedAccount(c, k, u).value.status.keyPair)
  {
    hide AccountStatus.Coupled, AccountStatus.Ready, KeyPairable.Ready;
  }

  // Every user JWT written along any run from a cluster without statuses belongs to the Account
  // resolved when it was written.
  lemma IssuanceOverRuns(c: Cluster, moves: seq<Move>, k: Key, u: UserOracle)
    requires Coupled(c) && AllOrderly(moves) && AllReal(moves)
    requires forall a :: a in c.accounts ==> c.accounts[a].status == NewAccountStatus
    ensures Coupled(Ran(c, moves))
    ensures ReconcileUser(Ran(c, moves), k, u).exit == UserJWTWritten ==> Issues(Ran(c, moves), k, u)
  {
    hide Coupled, ReconcileUser, Issues;
    StatusesStayCoupled(c, moves);
    RunKeepsReal(c, moves);
    if ReconcileUser(Ran(c, moves), k, u).exit == UserJWTWritten {
      UserIssuance(Ran(c, moves), k, u);
    }
  }

  /******* From a SigningKey to the Account's list *******/

  // A SigningKey of an Account that has been reconciled to the end, and whose status is stored, counts
  // for that Account: it records the Account's own UID.
  lemma ReconciledKeyServes(c: Cluster, k: Key, z: KeyOracle)
    requires Coupled(c) && z.fetchOk && GetSigningKey(c.signingKeys, k).Some? && z.status == StatusStored
    requires GetSigningKey(c.signingKeys, k).value.spec.ownerKind == KindAccount
    requires ReconcileKey(c, k, z).exit == KeyPairCreated || ReconcileKey(c, k, z).exit == KeyPairFound
    ensures var c', a := ReconcileKey(c, k, z).c, Key(k.ns, GetSigningKey(c.signingKeys, k).value.spec.ownerName);
            && a in c'.accounts && GetSigningKey(c'.signingKeys, k).Some?
            && Accounts.KeyServes(c', a, GetSigningKey(c'.signingKeys, k).value)
  {
    KeyStepMeaning(c, k, z);
    KeyStatusNotLost(c, k, z);
    KeyKeepsItself(c, k, z);
    hide ReconcileKey, Coupled, GetSigningKey, LabelsAllowed;
  }

  lemma KeyKeepsItself(c: Cluster, k: Key, z: KeyOracle)
    requires Coupled(c) && GetSigningKey(c.signingKeys, k).Some?
    requires ReconcileKey(c, k, z).exit == KeyPairCreated || ReconcileKey(c, k, z).exit == KeyPairFound
    ensures var sk, after := GetSigningKey(c.signingKeys, k), GetSigningKey(ReconcileKey(c, k, z).c.signingKeys, k);
            after.Some? && after.value == sk.value.(status := after.value.status)
  {
    var sk := GetSigningKey(c.signingKeys, k).value;
    var p := KeyStages(c, sk, sk.status.InitializeConditions(), z);
    PairKeepsLabels(c, sk, sk.status.InitializeConditions(), z);
    hide Coupled, KeyStages, SigningKeyStatus.Coupled, SigningKeyStatus.Ready;
    ReplacedMeaning(c.signingKeys, k, sk.(status := p.status));
    ReplacedMeaning(c.signingKeys, k, sk);
  }

  lemma PairKeepsLabels(c: Cluster, sk: SigningKey, s: SigningKeyStatus, z: KeyOracle)
    ensures var p := KeyStages(c, sk, s, z); p.exit == KeyPairCreated || p.exit == KeyPairFound ==> p.labels == sk.labels
  {
    hide FindKeyOwner, KeyPrefix, NewKeySecret, PublicKeyField, SigningKeyStatus.Coupled, SigningKeyStatus.Ready;
  }

  // So the next update of the Account's signing keys lists it, with its pair.
  lemma ReconciledKeyIsListed(c: Cluster, k: Key, z: KeyOracle, current: seq<SigningKeyEntry>, keys: seq<SigningKeyEntry>)
    requires Coupled(c) && z.fetchOk && GetSigningKey(c.signingKeys, k).Some? && z.status == StatusStored
    requires GetSigningKey(c.signingKeys, k).value.spec.ownerKind == KindAccount
    requires ReconcileKey(c, k, z).exit == KeyPairCreated || ReconcileKey(c, k, z).exit == KeyPairFound
    requires var c', a := ReconcileKey(c, k, z).c, Key(k.ns, GetSigningKey(c.signingKeys, k).value.spec.ownerName);
             && KeysDistinct(c') && a in c'.accounts && AllCoupled(Candidates(c', a))
             && IsNext(keys, c'.accounts[a].uid, current, Candidates(c', a))
    ensures var pair := ReconcileKey(c, k, z).status.keyPair; pair.Some? && SigningKeyEntry(k.name, pair.value) in keys
  {
    ReconciledKeyServes(c, k, z);
    KeyStepMeaning(c, k, z);
    KeyStatusNotLost(c, k, z);
    hide ReconcileKey, Coupled, KeysDistinct, Candidates, IsNext, GetSigningKey;
    var c', a := ReconcileKey(c, k, z).c, Key(k.ns, GetSigningKey(c.signingKeys, k).value.spec.ownerName);
    var sk := GetSigningKey(c'.signingKeys, k).value;
    Accounts.AccountKeysIff(c', a, current, keys, SigningKeyEntry(k.name, sk.status.keyPair.value));
  }
}
