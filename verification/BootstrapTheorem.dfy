/**
 Bootstrap without deadlock, in any interleaving of the two reconcilers and whatever becomes of
 the pushes.
 */
module BootstrapTheorem {
  import opened Texts
  import opened Lifecycles
  import opened Errors
  import opened Secrets
  import opened SigningKeys
  import opened ClusterState
  import opened SecretStages
  import opened OperatorController
  import opened AccountController
  import opened AccountConvergence
  import opened Bootstrap
  import opened BootstrapOperator
  import opened BootstrapAccount
  import Operators = OperatorTheorems
  import Accounts = AccountTheorems

  /******* Quiescence *******/

  // An Account that knows its key pair unblocks the Operator, which is then Ready.
  lemma IdleOperatorIsReady(c: Cluster, o: Key, a: Key)
    requires Boot(c, o, a) && OpIdle(c, o) && AccPairRight(c, a)
    ensures FindSystemAccount(c, o, true).Ok? && c.operators[o].status.Ready()
    ensures c.operators[o].status.keyPair == Some(OpPair(c, o)) && !Misread(c, o, a)
  {
    NamesOwnSeed(c, o, a);
    hide Misread, Coupled, Admits, FourNames, OpSeedFree, OpJwtFree, SeedNameFree, JwtNameFree, OpJwtRight, SeedDone, OpSeedDone;
    hide AccPair, OpPair, ListedKeys;
    assert c.accounts[a].status.seed == Up;
  }

  // A settled pair names the Operator's own secret.
  lemma NamesOwnSeed(c: Cluster, o: Key, a: Key)
    requires Boot(c, o, a) && OpPairRight(c, o)
    ensures NamedSeed(c, o) == Some(OpSeedKey(c, o)) && !Misread(c, o, a)
  {
    hide Coupled, Mutual, Admits, OpSeedFree, OpJwtFree, SeedNameFree, JwtNameFree, OpSeedDone;
  }

  // A Ready Operator with its own key pair unblocks the Account.
  lemma ReadyOperatorLoads(c: Cluster, o: Key, a: Key)
    requires Boot(c, o, a) && OpSeedDone(c, o) && c.operators[o].status.Ready()
    requires c.operators[o].status.keyPair == Some(OpPair(c, o))
    ensures Loads(c, a)
  {
    hide Coupled, Admits, FourNames, OpJwtFree, SeedNameFree, JwtNameFree, SetController, BuildSeedSecret, OperatorStatus.Ready;
    assert Issuing(c, a) == Ok(IssuerOperator(o, c.operators[o]));
  }

  lemma {:induction false} NothingOpen(bits: seq<bool>)
    ensures Value(bits) == 0 <==> forall i :: 0 <= i < |bits| ==> !bits[i]
  {
    if bits != [] {
      PowerPositive(|bits| - 1);
      NothingOpen(bits[1..]);
      if Value(bits[1..]) == 0 {
        forall i | 0 < i < |bits| ensures !bits[i] { assert !bits[1..][i - 1]; }
      }
      if forall i :: 0 <= i < |bits| ==> !bits[i] {
        forall i | 0 <= i < |bits| - 1 ensures !bits[1..][i] { assert !bits[i + 1]; }
      }
    }
  }

  lemma {:induction false} PowerPositive(n: nat)
    ensures Power(n) > 0
  {
    if n > 0 { PowerPositive(n - 1); }
  }

  // Both idle means everything is settled: the rank is zero and the Operator Ready.
  lemma BothIdle(c: Cluster, o: Key, a: Key)
    requires Boot(c, o, a) && OpIdle(c, o) && AccIdle(c, o, a)
    ensures BootRank(c, o, a) == 0 && c.operators[o].status.Ready() && Loads(c, a)
  {
    hide Coupled, Admits, FourNames, OpSeedFree, OpJwtFree, SeedNameFree, JwtNameFree;
    hide OperatorMissing, AccountMissing, OpSeedDone, SeedDone, OpPairRight, AccPairRight, SystemRight, OpKeysRight;
    hide OpJwtRight, OpJwtUp, Misread, IssuerRight, OperatorRight, LabelRight, KeysRight, AccJwtRight, AccJwtUp, Value, Issuing, LoadAccountIssuerSeed;
    IdleOperatorIsReady(c, o, a);
    ReadyOperatorLoads(c, o, a);
    hide Boot;
    NothingOpen(Open(c, o, a));
  }

  // and the other way round.
  lemma ZeroIsIdle(c: Cluster, o: Key, a: Key)
    requires Boot(c, o, a) && BootRank(c, o, a) == 0
    ensures OpIdle(c, o) && AccIdle(c, o, a)
  {
    hide Coupled, Admits, FourNames, OpSeedFree, OpJwtFree, SeedNameFree, JwtNameFree;
    hide OperatorMissing, AccountMissing, OpSeedDone, SeedDone, OpPairRight, AccPairRight, SystemRight, OpKeysRight;
    hide OpJwtRight, OpJwtUp, Misread, IssuerRight, OperatorRight, LabelRight, KeysRight, AccJwtRight, AccJwtUp, Value, Issuing, LoadAccountIssuerSeed;
    NothingOpen(Open(c, o, a));
    hide Boot;
    var b := Open(c, o, a);
    assert !b[0] && !b[1] && !b[2] && !b[3] && !b[4] && !b[5] && !b[6] && !b[7] && !b[8];
    assert !b[9] && !b[10] && !b[11] && !b[12] && !b[13] && !b[14] && !b[15] && !b[16] && !b[17];
  }

  // In a settled state the Account lacks nothing but a push.
  lemma SettledAccount(c: Cluster, o: Key, a: Key)
    requires Boot(c, o, a) && BootRank(c, o, a) == 0
    ensures c.operators[o].status.Ready()
    ensures var s := c.accounts[a].status;
            IsTrue(s.seed) && IsTrue(s.operator) && IsTrue(s.issuer) && IsTrue(s.keys) && IsTrue(s.jwt)
    ensures c.accounts[a].status.Ready() <==> IsTrue(c.accounts[a].status.pushed)
  {
    ZeroIsIdle(c, o, a);
    BothIdle(c, o, a);
    hide Boot, Coupled, SeedDone, AccPair, AccJwtRight, LabelRight, IsNext, AllCoupled, OpIdle, BootRank, OperatorStatus.Ready;
    hide ResolveIssuer, LoadAccountIssuerSeed;
  }

  // The JWT that a secret holds.
  predicate Shows(store: Store, q: Key, claims: Claims) {
    q in store && JWTKey in store[q].data && store[q].data[JWTKey] == JwtBlob(Signed(claims))
  }

  // There the two agree, down to the seeds in their secrets: the Operator's JWT is signed by its own seed
  // and names the Account by the public key of the Account's seed, in the status as in the JWT,
  ghost predicate OperatorAgrees(c: Cluster, o: Key, a: Key, opSeed: Seed, accSeed: Seed, claims: Claims)
    requires o in c.operators && a in c.accounts
  {
    && HoldsSeed(c.secrets, Key(o.ns, c.operators[o].spec.seedSecretName), opSeed)
    && HoldsSeed(c.secrets, Key(a.ns, c.accounts[a].spec.seedSecretName), accSeed)
    && Shows(c.secrets, Key(o.ns, c.operators[o].spec.jwtSecretName), claims)
    && claims.OperatorClaims? && claims.data.issuer == claims.data.subject == PublicKey(opSeed)
    && claims.systemAccount == PublicKey(accSeed)
    && c.operators[o].status.systemAccount == Some(KeyPairRef(a, PublicKey(accSeed)))
  }

  // and the Account's JWT is signed by the Operator's seed for the Account's.
  ghost predicate AccountAgrees(c: Cluster, o: Key, a: Key, opSeed: Seed, accSeed: Seed, claims: Claims)
    requires o in c.operators && a in c.accounts
  {
    && Shows(c.secrets, Key(a.ns, c.accounts[a].spec.jwtSecretName), claims)
    && claims.AccountClaims? && claims.data.issuer == PublicKey(opSeed) && claims.data.subject == PublicKey(accSeed)
  }

  lemma SettledAgree(c: Cluster, o: Key, a: Key) returns (opSeed: Seed, accSeed: Seed, opClaims: Claims, accClaims: Claims)
    requires Boot(c, o, a) && BootRank(c, o, a) == 0
    ensures OperatorAgrees(c, o, a, opSeed, accSeed, opClaims)
    ensures AccountAgrees(c, o, a, opSeed, accSeed, accClaims)
  {
    assert o in c.operators && a in c.accounts;
    hide Boot, BootRank, Coupled, OperatorAgrees, AccountAgrees, OpIdle, AccIdle, SeedBuilt, OperatorStatus.Ready, Misread;
    ZeroIsIdle(c, o, a);
    BothIdle(c, o, a);
    PairsOfIdle(c, o, a);
    opSeed, accSeed := SeedAt(c.secrets, OpSeedKey(c, o)), SeedAt(c.secrets, Accounts.SeedSecretKey(c, a));
    opClaims := IdleOperatorAgrees(c, o, a);
    accClaims := IdleAccountAgrees(c, o, a);
  }

  lemma PairsOfIdle(c: Cluster, o: Key, a: Key)
    requires Boot(c, o, a) && OpIdle(c, o) && AccIdle(c, o, a) && Loads(c, a)
    ensures AccPairRight(c, a) && AccJwtRight(c, o, a)
    ensures HoldsSeed(c.secrets, OpSeedKey(c, o), SeedAt(c.secrets, OpSeedKey(c, o)))
    ensures HoldsSeed(c.secrets, Accounts.SeedSecretKey(c, a), SeedAt(c.secrets, Accounts.SeedSecretKey(c, a)))
  {
    hide Boot, Coupled, AccPair, OpPair, AccJwtRight, IssuerRight, OpJwtRight, SystemRight, KeysRight, Issuing, LoadAccountIssuerSeed;
  }

  lemma IdleOperatorAgrees(c: Cluster, o: Key, a: Key) returns (claims: Claims)
    requires Boot(c, o, a) && OpIdle(c, o) && AccPairRight(c, a)
    requires OpSeedKey(c, o) in c.secrets && HoldsSeed(c.secrets, OpSeedKey(c, o), SeedAt(c.secrets, OpSeedKey(c, o)))
    ensures OperatorAgrees(c, o, a, SeedAt(c.secrets, OpSeedKey(c, o)), SeedAt(c.secrets, Accounts.SeedSecretKey(c, a)), claims)
  {
    IdleOperatorIsReady(c, o, a);
    SystemAccountOf(c, o, a);
    hide Boot, Coupled, OpKeysRight, OperatorMissing, ListedKeys, BuildSeedSecret, FindSystemAccount, OperatorStatus.Coupled, OperatorStatus.Ready, Misread;
    var opSeed := SeedAt(c.secrets, OpSeedKey(c, o));
    claims := c.secrets[OpJwtKey(c, o)].data[JWTKey].jwt.claims;
    EquivalentSaysTheSame(claims, OperatorClaimsOf(o.name, c.operators[o].spec, c.operators[o].status, opSeed, 0, "").value);
  }

  lemma SystemAccountOf(c: Cluster, o: Key, a: Key)
    requires Boot(c, o, a) && SystemRight(c, o) && FindSystemAccount(c, o, true).Ok? && AccPairRight(c, a)
    ensures c.operators[o].status.systemAccount == Some(KeyPairRef(a, PublicKey(SeedAt(c.secrets, Accounts.SeedSecretKey(c, a)))))
  {
    Operators.SystemAccountFoundIff(c, o, true);
    hide Coupled, Admits, FourNames, OpSeedFree, OpJwtFree, SeedNameFree, JwtNameFree, BuildSeedSecret, FindSystemAccount;
  }

  lemma IdleAccountAgrees(c: Cluster, o: Key, a: Key) returns (claims: Claims)
    requires Boot(c, o, a) && OpIdle(c, o) && AccPairRight(c, a) && AccJwtRight(c, o, a) && Loads(c, a)
    ensures OpSeedKey(c, o) in c.secrets
    ensures AccountAgrees(c, o, a, SeedAt(c.secrets, OpSeedKey(c, o)), SeedAt(c.secrets, Accounts.SeedSecretKey(c, a)), claims)
  {
    IdleOperatorIsReady(c, o, a);
    hide Boot, Coupled, OpKeysRight, SystemRight, OpJwtRight, OperatorMissing, KeySet, BuildSeedSecret, OperatorStatus.Ready, Misread, Issuing, LoadAccountIssuerSeed;
    claims := c.secrets[Accounts.JwtKey(c, a)].data[JWTKey].jwt.claims;
    EquivalentSaysTheSame(claims, BootClaims(c, o, a));
  }

  // No deadlock: unless everything is settled, a reconcile of one of the two lowers the rank,
  // however its push ends.
  lemma NoDeadlock(c: Cluster, o: Key, a: Key)
    requires Boot(c, o, a) && BootRank(c, o, a) > 0
    ensures (forall x :: OperatorSucceeds(x) ==> Lower(c, ReconcileOperator(c, o, x).c, o, a))
            || (forall x :: AccountSucceeds(c, a, x) ==> Lower(c, Reconcile(c, a, x).c, o, a))
  {
    hide OpIdle, AccIdle, BootRank, AccountSucceeds, OperatorSucceeds, ReconcileOperator, Reconcile, Coupled;
    if OpIdle(c, o) && AccIdle(c, o, a) {
      BothIdle(c, o, a);
    } else if !OpIdle(c, o) {
      forall x | OperatorSucceeds(x) ensures Lower(c, ReconcileOperator(c, o, x).c, o, a) {
        OperatorStepLowers(c, o, a, x);
      }
    } else {
      forall x | AccountSucceeds(c, a, x) ensures Lower(c, Reconcile(c, a, x).c, o, a) {
        AccountStepLowers(c, o, a, x);
      }
    }
  }

  ghost predicate Lower(c: Cluster, c': Cluster, o: Key, a: Key) {
    Boot(c, o, a) && Boot(c', o, a) && BootRank(c', o, a) < BootRank(c, o, a)
  }

  /******* What is said of the push does not matter *******/

  lemma PushIrrelevant(c: Cluster, c': Cluster, o: Key, a: Key)
    requires Boot(c, o, a) && Boot(c', o, a) && SameButPush(c, c', a) && !c.accounts[a].status.pushed.Missing?
    ensures OpIdle(c', o) <==> OpIdle(c, o)
    ensures AccIdle(c', o, a) <==> AccIdle(c, o, a)
    ensures BootRank(c', o, a) == BootRank(c, o, a)
  {
    hide OpIdle, AccIdle, BootRank;
    OperatorIdleKept(c, c', o, a);
    AccountIdleKept(c, c', o, a);
    RankKept(c, c', o, a);
  }

  lemma OperatorIdleKept(c: Cluster, c': Cluster, o: Key, a: Key)
    requires Boot(c, o, a) && Boot(c', o, a) && SameButPush(c, c', a)
    ensures OpIdle(c', o) <==> OpIdle(c, o)
  {
    hide Coupled, Mutual, Admits, FourNames, OpSeedFree, OpJwtFree, SeedNameFree, JwtNameFree;
    hide OperatorMissing, AccountMissing, OpSeedDone, SeedDone, OpPairRight, AccPairRight, SystemRight, OpKeysRight, OpJwtRight, OpJwtUp, Misread;
    hide IssuerRight, OperatorRight, LabelRight, KeysRight, AccJwtRight, AccJwtUp, Value, Issuing, LoadAccountIssuerSeed, FindSystemAccount;
    PushIrrelevantToOperator(c, c', o, a);
  }

  lemma AccountIdleKept(c: Cluster, c': Cluster, o: Key, a: Key)
    requires Boot(c, o, a) && Boot(c', o, a) && SameButPush(c, c', a) && !c.accounts[a].status.pushed.Missing?
    ensures AccIdle(c', o, a) <==> AccIdle(c, o, a)
  {
    hide Coupled, Mutual, Admits, FourNames, OpSeedFree, OpJwtFree, SeedNameFree, JwtNameFree;
    hide OperatorMissing, AccountMissing, OpSeedDone, SeedDone, OpPairRight, AccPairRight, SystemRight, OpKeysRight, OpJwtRight, OpJwtUp, Misread;
    hide IssuerRight, OperatorRight, LabelRight, KeysRight, AccJwtRight, AccJwtUp, Value, Issuing, LoadAccountIssuerSeed, FindSystemAccount;
    PushIrrelevantToAccount(c, c', o, a);
  }

  lemma RankKept(c: Cluster, c': Cluster, o: Key, a: Key)
    requires Boot(c, o, a) && Boot(c', o, a) && SameButPush(c, c', a) && !c.accounts[a].status.pushed.Missing?
    ensures BootRank(c', o, a) == BootRank(c, o, a)
  {
    hide Coupled, Mutual, Admits, FourNames, OpSeedFree, OpJwtFree, SeedNameFree, JwtNameFree;
    hide OperatorMissing, AccountMissing, OpSeedDone, SeedDone, OpPairRight, AccPairRight, SystemRight, OpKeysRight, OpJwtRight, OpJwtUp, Misread;
    hide IssuerRight, OperatorRight, LabelRight, KeysRight, AccJwtRight, AccJwtUp, Value, Issuing, LoadAccountIssuerSeed, FindSystemAccount;
    PushIrrelevantToOperator(c, c', o, a);
    PushIrrelevantToAccount(c, c', o, a);
    hide Boot, SameIssuing;
    assert Open(c', o, a) == Open(c, o, a);
  }

  lemma PushIrrelevantToOperator(c: Cluster, c': Cluster, o: Key, a: Key)
    requires Boot(c, o, a) && Boot(c', o, a) && SameButPush(c, c', a)
    ensures FindSystemAccount(c', o, true) == FindSystemAccount(c, o, true)
    ensures OpSeedDone(c', o) <==> OpSeedDone(c, o)
    ensures OpPairRight(c', o) <==> OpPairRight(c, o)
    ensures SystemRight(c', o) <==> SystemRight(c, o)
    ensures OpKeysRight(c', o) <==> OpKeysRight(c, o)
    ensures OpJwtRight(c', o) <==> OpJwtRight(c, o)
    ensures OpJwtUp(c', o) <==> OpJwtUp(c, o)
    ensures Misread(c', o, a) <==> Misread(c, o, a)
  {
    hide Coupled, Admits, FourNames, OpSeedFree, OpJwtFree, SeedNameFree, JwtNameFree, BuildSeedSecret, SystemMark;
  }

  lemma PushIrrelevantToAccount(c: Cluster, c': Cluster, o: Key, a: Key)
    requires Boot(c, o, a) && Boot(c', o, a) && SameButPush(c, c', a) && !c.accounts[a].status.pushed.Missing?
    ensures AccountMissing(c'.accounts[a].status) <==> AccountMissing(c.accounts[a].status)
    ensures SeedDone(c', a) <==> SeedDone(c, a)
    ensures AccPairRight(c', a) <==> AccPairRight(c, a)
    ensures SameIssuing(c, c', a) && (IssuerRight(c', a) <==> IssuerRight(c, a))
    ensures OperatorRight(c', o, a) <==> OperatorRight(c, o, a)
    ensures LabelRight(c', o, a) <==> LabelRight(c, o, a)
    ensures KeysRight(c', a) <==> KeysRight(c, a)
    ensures AccJwtRight(c', o, a) <==> AccJwtRight(c, o, a)
    ensures AccJwtUp(c', a) <==> AccJwtUp(c, a)
  {
    hide Coupled, Admits, FourNames, OpSeedFree, OpJwtFree, SeedNameFree, JwtNameFree, BuildSeedSecret;
    PushIrrelevantToJwt(c, c', o, a);
    PushIrrelevantToIssuer(c, c', o, a);
    hide AccJwtRight, IssuerRight, SameIssuing;
  }

  lemma PushIrrelevantToJwt(c: Cluster, c': Cluster, o: Key, a: Key)
    requires Boot(c, o, a) && Boot(c', o, a) && SameButPush(c, c', a)
    ensures AccJwtRight(c', o, a) <==> AccJwtRight(c, o, a)
  {
    hide Admits, FourNames, OpSeedFree, OpJwtFree, SeedNameFree, JwtNameFree, BuildSeedSecret, FreshKeys;
  }

  lemma PushIrrelevantToIssuer(c: Cluster, c': Cluster, o: Key, a: Key)
    requires Boot(c, o, a) && Boot(c', o, a) && SameButPush(c, c', a)
    ensures SameIssuing(c, c', a) && (IssuerRight(c', a) <==> IssuerRight(c, a))
  {
    assert Issuing(c', a) == Issuing(c, a);
    hide ResolveIssuer, Boot, CheckIssuerSeed, Verdict;
    IssuerRightByEntry(c, c', a);
  }

  /******* Runs *******/

  datatype Turn = OperatorTurn(y: OperatorOracle) | AccountTurn(x: AccountOracle)

  function After(c: Cluster, o: Key, a: Key, t: Turn): Cluster
    requires Coupled(c)
  {
    match t
    case OperatorTurn(y) => ReconcileOperator(c, o, y).c
    case AccountTurn(x) => Reconcile(c, a, x).c
  }

  ghost predicate TurnSucceeds(c: Cluster, a: Key, t: Turn) {
    match t
    case OperatorTurn(y) => OperatorSucceeds(y)
    case AccountTurn(x) => a in c.accounts && AccountSucceeds(c, a, x)
  }

  lemma AfterCoupled(c: Cluster, o: Key, a: Key, t: Turn)
    requires Coupled(c)
    ensures Coupled(After(c, o, a, t))
  {
    hide Coupled, Reconcile, ReconcileOperator;
    match t
    case OperatorTurn(y) => Operators.OperatorStepMeaning(c, o, y);
    case AccountTurn(x) => Accounts.StepFrames(c, a, x);
  }

  ghost predicate TurnsSucceed(c: Cluster, o: Key, a: Key, turns: seq<Turn>)
    requires Coupled(c)
    decreases |turns|
  {
    turns == [] ||
    (&& TurnSucceeds(c, a, turns[0])
     && (AfterCoupled(c, o, a, turns[0]);
         TurnsSucceed(After(c, o, a, turns[0]), o, a, turns[1..])))
  }

  ghost function End(c: Cluster, o: Key, a: Key, turns: seq<Turn>): Cluster
    requires Coupled(c) && TurnsSucceed(c, o, a, turns)
    decreases |turns|
  {
    if turns == [] then c
    else
      AfterCoupled(c, o, a, turns[0]);
      End(After(c, o, a, turns[0]), o, a, turns[1..])
  }

  // A turn of an object with nothing to do keeps the rank; any other lowers it.
  ghost predicate IdleTurn(c: Cluster, o: Key, a: Key, t: Turn)
    requires Coupled(c) && o in c.operators && a in c.accounts
  {
    if t.OperatorTurn? then OpIdle(c, o) else AccIdle(c, o, a)
  }

  lemma TurnMeaning(c: Cluster, o: Key, a: Key, t: Turn)
    requires Boot(c, o, a) && TurnSucceeds(c, a, t)
    ensures var c' := After(c, o, a, t);
            && Boot(c', o, a)
            && (if IdleTurn(c, o, a, t)
                then BootRank(c', o, a) == BootRank(c, o, a) && (OpIdle(c', o) <==> OpIdle(c, o)) && (AccIdle(c', o, a) <==> AccIdle(c, o, a))
                else BootRank(c', o, a) < BootRank(c, o, a))
  {
    hide Coupled, Mutual, Admits, FourNames, OpSeedFree, OpJwtFree, SeedNameFree, JwtNameFree;
    hide BootRank, OperatorSucceeds, AccountSucceeds, ReconcileOperator, Reconcile, OpIdle;
    match t
    case OperatorTurn(y) => OperatorStepLowers(c, o, a, y);
    case AccountTurn(x) =>
      AccountStepLowers(c, o, a, x);
      if AccIdle(c, o, a) { PushIrrelevant(c, Reconcile(c, a, x).c, o, a); }
  }

  // Over any run the rank never rises, and every turn that finds work lowers it: at most as many
  // turns change the state (the push aside) as the rank was at the start.
  lemma {:induction false} RankNeverRises(c: Cluster, o: Key, a: Key, turns: seq<Turn>)
    requires Boot(c, o, a) && TurnsSucceed(c, o, a, turns)
    ensures Boot(End(c, o, a, turns), o, a)
    ensures BootRank(End(c, o, a, turns), o, a) + Busy(c, o, a, turns) <= BootRank(c, o, a)
    decreases |turns|
  {
    hide BootRank, OpIdle, AccIdle, After, TurnSucceeds;
    hide Mutual, Admits, FourNames, OpSeedFree, OpJwtFree, SeedNameFree, JwtNameFree;
    if turns != [] {
      TurnMeaning(c, o, a, turns[0]);
      RankNeverRises(After(c, o, a, turns[0]), o, a, turns[1..]);
    }
  }

  // The turns that found work to do.
  ghost function Busy(c: Cluster, o: Key, a: Key, turns: seq<Turn>): nat
    requires Coupled(c) && TurnsSucceed(c, o, a, turns)
    decreases |turns|
  {
    if turns == [] then 0
    else
      AfterCoupled(c, o, a, turns[0]);
      (if o in c.operators && a in c.accounts && !IdleTurn(c, o, a, turns[0]) then 1 else 0)
      + Busy(After(c, o, a, turns[0]), o, a, turns[1..])
  }

  // A run in which an object with work to do gets a turn lowers the rank.
  lemma {:induction false} TurnWithWorkLowers(c: Cluster, o: Key, a: Key, turns: seq<Turn>, i: nat)
    requires Boot(c, o, a) && TurnsSucceed(c, o, a, turns)
    requires i < |turns| && !IdleTurn(c, o, a, turns[i])
    ensures Lower(c, End(c, o, a, turns), o, a)
    decreases |turns|
  {
    hide BootRank, OpIdle, AccIdle, After, TurnSucceeds;
    hide Mutual, Admits, FourNames, OpSeedFree, OpJwtFree, SeedNameFree, JwtNameFree;
    TurnMeaning(c, o, a, turns[0]);
    RankNeverRises(After(c, o, a, turns[0]), o, a, turns[1..]);
    if IdleTurn(c, o, a, turns[0]) {
      TurnWithWorkLowers(After(c, o, a, turns[0]), o, a, turns[1..], i - 1);
    }
  }

  // Both objects get a turn.
  predicate Fair(turns: seq<Turn>) {
    (exists i :: 0 <= i < |turns| && turns[i].OperatorTurn?) && (exists i :: 0 <= i < |turns| && turns[i].AccountTurn?)
  }

  // A fair run lowers the rank unless everything is settled.
  lemma FairRunLowers(c: Cluster, o: Key, a: Key, turns: seq<Turn>)
    requires Boot(c, o, a) && TurnsSucceed(c, o, a, turns) && Fair(turns) && BootRank(c, o, a) > 0
    ensures Lower(c, End(c, o, a, turns), o, a)
  {
    hide BootRank, OpIdle, AccIdle, TurnsSucceed, End;
    hide Mutual, Admits, FourNames, OpSeedFree, OpJwtFree, SeedNameFree, JwtNameFree;
    if OpIdle(c, o) && AccIdle(c, o, a) {
      BothIdle(c, o, a);
    } else if !OpIdle(c, o) {
      var i :| 0 <= i < |turns| && turns[i].OperatorTurn?;
      TurnWithWorkLowers(c, o, a, turns, i);
    } else {
      var i :| 0 <= i < |turns| && turns[i].AccountTurn?;
      TurnWithWorkLowers(c, o, a, turns, i);
    }
  }

  lemma {:induction false} EndCoupled(c: Cluster, o: Key, a: Key, turns: seq<Turn>)
    requires Coupled(c) && TurnsSucceed(c, o, a, turns)
    ensures Coupled(End(c, o, a, turns))
    decreases |turns|
  {
    hide Coupled, After, TurnSucceeds;
    if turns != [] {
      AfterCoupled(c, o, a, turns[0]);
      EndCoupled(After(c, o, a, turns[0]), o, a, turns[1..]);
    }
  }

  ghost predicate BlocksSucceed(c: Cluster, o: Key, a: Key, blocks: seq<seq<Turn>>)
    requires Coupled(c)
    decreases |blocks|
  {
    blocks == [] ||
    (&& Fair(blocks[0]) && TurnsSucceed(c, o, a, blocks[0])
     && (EndCoupled(c, o, a, blocks[0]);
         BlocksSucceed(End(c, o, a, blocks[0]), o, a, blocks[1..])))
  }

  ghost function BlocksEnd(c: Cluster, o: Key, a: Key, blocks: seq<seq<Turn>>): Cluster
    requires Coupled(c) && BlocksSucceed(c, o, a, blocks)
    decreases |blocks|
  {
    if blocks == [] then c
    else
      EndCoupled(c, o, a, blocks[0]);
      BlocksEnd(End(c, o, a, blocks[0]), o, a, blocks[1..])
  }

  // From any start, after as many fair stretches as the rank says the Operator is Ready, the
  // Account lacks at most its push, and this stays so.
  lemma {:induction false} BootstrapCompletes(c: Cluster, o: Key, a: Key, blocks: seq<seq<Turn>>)
    requires Boot(c, o, a) && BlocksSucceed(c, o, a, blocks) && |blocks| >= BootRank(c, o, a)
    ensures var end := BlocksEnd(c, o, a, blocks);
            Boot(end, o, a) && BootRank(end, o, a) == 0 && end.operators[o].status.Ready()
    decreases |blocks|
  {
    hide BootRank, TurnsSucceed, End, Fair;
    hide Mutual, Admits, FourNames, OpSeedFree, OpJwtFree, SeedNameFree, JwtNameFree;
    if blocks == [] {
      SettledAccount(c, o, a);
    } else {
      RankNeverRises(c, o, a, blocks[0]);
      if BootRank(c, o, a) > 0 { FairRunLowers(c, o, a, blocks[0]); }
      BootstrapCompletes(End(c, o, a, blocks[0]), o, a, blocks[1..]);
    }
  }

  /******* Levels *******/

  // Eight things that hold for good once they hold with all before them.
  ghost function Level(c: Cluster, o: Key, a: Key): (n: nat)
    requires Coupled(c) && o in c.operators && a in c.accounts
    ensures n <= 8
  {
    if !OpSeedDone(c, o) || OperatorMissing(c.operators[o].status) then 0
    else if AccountFinalizer !in c.accounts[a].finalizers then 1
    else if !SeedDone(c, a) then 2
    else if !LabelRight(c, o, a) && !Known(c, a) then 3
    else if !Known(c, a) then 4
    else if !OpIdle(c, o) then 5
    else if !LabelRight(c, o, a) then 6
    else if !AccIdle(c, o, a) then 7
    else 8
  }

  // Whose turn it takes to get to the next.
  predicate Raises(n: nat, t: Turn) { if n == 0 || n == 5 then t.OperatorTurn? else t.AccountTurn? }

  lemma OperatorRaises(c: Cluster, c': Cluster, o: Key, a: Key)
    requires Boot(c, o, a) && Boot(c', o, a) && OpAdvances(c, c', o, a) && (OpIdle(c, o) ==> c' == c)
    ensures Level(c', o, a) >= Level(c, o, a)
    ensures Level(c, o, a) == 0 || Level(c, o, a) == 5 ==> Level(c', o, a) > Level(c, o, a)
  {
    hide Coupled, Mutual, Admits, FourNames, OpSeedFree, OpJwtFree, SeedNameFree, JwtNameFree;
    hide OpIdle, AccIdle, SeedDone, OpSeedDone, OperatorMissing, AccountMissing, AccPairRight, LabelOf;
  }

  lemma AccountRaises(c: Cluster, c': Cluster, o: Key, a: Key)
    requires Boot(c, o, a) && Boot(c', o, a) && Advances(c, c', o, a)
    ensures Level(c', o, a) >= Level(c, o, a)
    ensures Level(c, o, a) != 0 && Level(c, o, a) != 5 && Level(c, o, a) != 8 ==> Level(c', o, a) > Level(c, o, a)
  {
    hide Coupled, Mutual, Admits, FourNames, OpSeedFree, OpJwtFree, SeedNameFree, JwtNameFree, Misread, Issuing, LoadAccountIssuerSeed;
    hide OpIdle, AccIdle, SeedDone, OpSeedDone, OperatorMissing, Known, LabelRight, OpPairRight, OpKeysRight, OpJwtRight, SamePair;
    if Known(c, a) && OpIdle(c, o) {
      OpIdleKept(c, c', o, a);
      IdleOperatorIssues(c, o, a);
    }
  }

  lemma IdleOperatorIssues(c: Cluster, o: Key, a: Key)
    requires Boot(c, o, a) && OpIdle(c, o) && Known(c, a)
    ensures Issuing(c, a).Ok? && !Misread(c, o, a)
  {
    hide Boot, Coupled, Misread, Issuing, LoadAccountIssuerSeed, OpPairRight, SystemRight, OpKeysRight, OpJwtRight, AccPairRight, OpSeedDone;
    IdleOperatorIsReady(c, o, a);
    ReadyOperatorLoads(c, o, a);
  }

  // A known key pair that stays the same leaves an idle Operator idle.
  lemma OpIdleKept(c: Cluster, c': Cluster, o: Key, a: Key)
    requires Boot(c, o, a) && Boot(c', o, a) && OperatorSide(c, c', o) && SamePair(c, c', a) && OpIdle(c, o)
    ensures OpIdle(c', o)
  {
    SystemKept(c, c', o, a);
    OpJwtUpKept(c, c', o);
    assert FindSystemAccount(c', o, true) == FindSystemAccount(c, o, true);
    hide Boot, Coupled, FindSystemAccount, SystemRight, OpPairRight, OpKeysRight, OpJwtRight, OpJwtUp, OpSeedDone;
  }

  lemma TurnRaises(c: Cluster, o: Key, a: Key, t: Turn)
    requires Boot(c, o, a) && TurnSucceeds(c, a, t)
    ensures var c' := After(c, o, a, t);
            && Boot(c', o, a) && Level(c', o, a) >= Level(c, o, a)
            && (Raises(Level(c, o, a), t) && Level(c, o, a) < 8 ==> Level(c', o, a) > Level(c, o, a))
  {
    hide Mutual, Admits, FourNames, OpSeedFree, OpJwtFree, SeedNameFree, JwtNameFree, Coupled;
    hide Level, BootRank, OperatorSucceeds, AccountSucceeds, ReconcileOperator, Reconcile, OpIdle, AccIdle, Advances, OpAdvances;
    match t
    case OperatorTurn(y) =>
      OperatorStepLowers(c, o, a, y);
      OperatorRaises(c, ReconcileOperator(c, o, y).c, o, a);
    case AccountTurn(x) =>
      AccountStepLowers(c, o, a, x);
      AccountRaises(c, Reconcile(c, a, x).c, o, a);
  }

  // At least this level, within the setting.
  ghost predicate Reached(c: Cluster, o: Key, a: Key, n: nat) {
    Boot(c, o, a) && Level(c, o, a) >= n
  }

  lemma {:induction false} LevelNeverFalls(c: Cluster, o: Key, a: Key, turns: seq<Turn>)
    requires Boot(c, o, a) && TurnsSucceed(c, o, a, turns)
    ensures Reached(End(c, o, a, turns), o, a, Level(c, o, a))
    decreases |turns|
  {
    hide Level, After, TurnSucceeds;
    hide Mutual, Admits, FourNames, OpSeedFree, OpJwtFree, SeedNameFree, JwtNameFree;
    if turns != [] {
      TurnRaises(c, o, a, turns[0]);
      LevelNeverFalls(After(c, o, a, turns[0]), o, a, turns[1..]);
    }
  }

  lemma {:induction false} RunRaises(c: Cluster, o: Key, a: Key, turns: seq<Turn>, i: nat)
    requires Boot(c, o, a) && TurnsSucceed(c, o, a, turns) && Level(c, o, a) < 8
    requires i < |turns| && Raises(Level(c, o, a), turns[i])
    ensures Reached(End(c, o, a, turns), o, a, Level(c, o, a) + 1)
    decreases |turns|
  {
    hide Level, After, TurnSucceeds;
    hide Mutual, Admits, FourNames, OpSeedFree, OpJwtFree, SeedNameFree, JwtNameFree;
    TurnRaises(c, o, a, turns[0]);
    var c' := After(c, o, a, turns[0]);
    LevelNeverFalls(c', o, a, turns[1..]);
    if Level(c', o, a) == Level(c, o, a) {
      RunRaises(c', o, a, turns[1..], i - 1);
    }
  }

  // A fair stretch gets at least one level further.
  lemma FairRunRaises(c: Cluster, o: Key, a: Key, turns: seq<Turn>)
    requires Boot(c, o, a) && TurnsSucceed(c, o, a, turns) && Fair(turns)
    ensures Reached(End(c, o, a, turns), o, a, if Level(c, o, a) < 8 then Level(c, o, a) + 1 else 8)
  {
    hide Level, TurnsSucceed, End;
    hide Mutual, Admits, FourNames, OpSeedFree, OpJwtFree, SeedNameFree, JwtNameFree;
    LevelNeverFalls(c, o, a, turns);
    if Level(c, o, a) < 8 {
      var i :| 0 <= i < |turns| && turns[i].OperatorTurn?;
      var j :| 0 <= j < |turns| && turns[j].AccountTurn?;
      RunRaises(c, o, a, turns, if Raises(Level(c, o, a), turns[i]) then i else j);
    }
  }

  // Eight fair stretches are enough from any start, one per level that is still to come.
  lemma {:induction false} BootstrapCompletesInTime(c: Cluster, o: Key, a: Key, blocks: seq<seq<Turn>>)
    requires Boot(c, o, a) && BlocksSucceed(c, o, a, blocks) && |blocks| + Level(c, o, a) >= 8
    ensures var end := BlocksEnd(c, o, a, blocks);
            Boot(end, o, a) && BootRank(end, o, a) == 0 && end.operators[o].status.Ready()
    decreases |blocks|
  {
    hide TurnsSucceed, End, Fair, BootRank;
    hide Mutual, Admits, FourNames, OpSeedFree, OpJwtFree, SeedNameFree, JwtNameFree;
    if blocks == [] {
      TopIsSettled(c, o, a);
    } else {
      hide Level;
      FairRunRaises(c, o, a, blocks[0]);
      BootstrapCompletesInTime(End(c, o, a, blocks[0]), o, a, blocks[1..]);
    }
  }

  lemma TopIsSettled(c: Cluster, o: Key, a: Key)
    requires Boot(c, o, a) && Level(c, o, a) == 8
    ensures BootRank(c, o, a) == 0 && c.operators[o].status.Ready()
  {
    hide OpIdle, AccIdle, BootRank, SeedDone, OpSeedDone, Known, LabelRight, OperatorMissing;
    BothIdle(c, o, a);
  }

  /******* From bootstrap to convergence *******/

  // Two new objects that name each other, and nothing else.
  function FreshCluster(): Cluster {
    Cluster(
      map["ns" := map[]],
      map[Key("ns", "op") := Operator("1", OperatorSpec("a", "bb", "sys", None, None, None, ""), NewOperatorStatus)],
      map[Key("ns", "sys") := Account("2", map[], {}, false,
                                      AccountSpec(IssuerRef(KindOperator, "", "op"), "ccc", "dddd", None, None, None, ""), NewAccountStatus)],
      map[], [], map[])
  }

  lemma FreshClusterBoots()
    ensures Boot(FreshCluster(), Key("ns", "op"), Key("ns", "sys"))
  {
    var c, o, a := FreshCluster(), Key("ns", "op"), Key("ns", "sys");
    assert |"a"| == 1 && |"bb"| == 2 && |"ccc"| == 3 && |"dddd"| == 4;
    assert FourNames(c, o, a);
    assert ValidateSelectors(c, o.ns, None, None, a.ns, map[], true).Ok?;
    assert Admits(c, o, a) && Mutual(c, o, a);
  }

  // A bootstrapped system Account meets every assumption of convergence, at measure zero: one push
  // that succeeds makes it Ready for good.
  lemma BootedConverges(c: Cluster, o: Key, a: Key)
    requires Boot(c, o, a) && BootRank(c, o, a) == 0
    ensures Setting(c, a) && Rank(c, a) == 0
  {
    ZeroIsIdle(c, o, a);
    BothIdle(c, o, a);
    hide BootRank;
    IssuerIsOperator(c, o, a);
    SignerIsPublished(c, o, a);
    NamesOwnSeed(c, o, a);
    BootedIsSurrounded(c, o, a);
    hide Coupled, Admits, OpSeedFree, OpJwtFree, ResolveIssuer, FindOperator, LoadAccountIssuerSeed, Mutual, Surrounded;
    BootedClaims(c, o, a);
  }

  lemma BootedIsSurrounded(c: Cluster, o: Key, a: Key)
    requires Boot(c, o, a) && Loads(c, a) && Issuing(c, a).value == IssuerOperator(o, c.operators[o])
    requires FindOperator(c, a, Issuing(c, a).value, true, true) == Ok(o) && NamedSeed(c, o) == Some(OpSeedKey(c, o))
    ensures Surrounded(c, a) && IssuerOf(c, a) == IssuerOperator(o, c.operators[o]) && OperatorOf(c, a) == o
    ensures SignerOf(c, a) == LoadAccountIssuerSeed(c, Issuing(c, a).value, true).value
    ensures IssuerSeedKey(c, a) == OpSeedKey(c, o) && NamesApart(c, a)
  {
    hide Coupled, OpSeedFree, OpJwtFree, SeedNameFree, JwtNameFree, CheckIssuerSeed, ValidateSelectors, Blind;
    assert ResolveOperator(c, Issuing(c, a).value, true) == Ok((o, c.operators[o]));
    hide FindOperator, ResolveIssuer, ResolveOperator;
  }

  lemma BootedClaims(c: Cluster, o: Key, a: Key)
    requires Boot(c, o, a) && Surrounded(c, a) && SeedDone(c, a) && AccJwtRight(c, o, a)
    requires c.operators[o].status.keyPair.Some? && PublicKey(SignerOf(c, a)) == c.operators[o].status.keyPair.value.publicKey
    ensures JwtDone(c, a)
  {
    hide Coupled, Mutual, Admits, FourNames, OpSeedFree, OpJwtFree, SeedNameFree, JwtNameFree, Surrounded, SignerOf, SeedBuilt, KeySet;
    CandidatesCoupled(c, a);
    assert DueClaims(c, a) == BootClaims(c, o, a);
  }
}
