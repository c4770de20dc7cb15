/**
 The Operator's side of the bootstrap: a reconcile with succeeding calls settles the earliest
 open part of the Operator, or finds none and changes nothing.
 */
module BootstrapOperator {
  import opened Texts
  import opened Conditions
  import opened ConditionRuns
  import opened Lifecycles
  import opened Errors
  import opened Secrets
  import opened SigningKeys
  import opened ClusterState
  import opened SecretStages
  import opened OperatorController
  import opened AccountController
  import opened AccountConvergence
  import opened Bootstrap
  import Operators = OperatorTheorems
  import Accounts = AccountTheorems

  // Nothing for the Operator to do: it is blocked on its system account, or done.
  predicate OpIdle(c: Cluster, o: Key)
    requires Coupled(c) && o in c.operators
  {
    && !OperatorMissing(c.operators[o].status)
    && OpSeedDone(c, o) && OpPairRight(c, o) && SystemRight(c, o)
    && (FindSystemAccount(c, o, true).Ok? ==> OpKeysRight(c, o) && OpJwtRight(c, o) && OpJwtUp(c, o))
  }

  // The status that a reconcile aims at.
  function OpGoal(s: OperatorStatus, pair: KeyPair, found: Res<KeyPairRef>, keys: seq<SigningKeyEntry>): OperatorStatus {
    var s1 := SystemMark(s.MarkSeedSecretReady(pair), found);
    if found.Ok? then s1.MarkSigningKeysUpdated(keys).MarkJWTSecretReady() else s1
  }

  lemma OpGoalParts(s: OperatorStatus, pair: KeyPair, found: Res<KeyPairRef>, keys: seq<SigningKeyEntry>)
    ensures var g := OpGoal(s, pair, found, keys);
            && (!OperatorMissing(s) ==> !OperatorMissing(g))
            && g.keyPair == Some(pair)
            && g == g.MarkSeedSecretReady(pair)
            && g == SystemMark(g, found)
            && (found.Ok? ==> g == g.MarkSigningKeysUpdated(keys) && g == g.MarkJWTSecretReady())
            && (s == s.MarkSeedSecretReady(pair) && s == SystemMark(s, found) && found.Fail? ==> g == s)
            && (s == s.MarkSeedSecretReady(pair) && s == SystemMark(s, found) && found.Ok? ==>
                  s == s.MarkSigningKeysUpdated(keys) && s == s.MarkJWTSecretReady() ==> g == s)
  {
    hide Verdict;
  }

  // The cluster after a step of the Operator.
  function OpAfter(c: Cluster, o: Key, s: OperatorStatus, store: Store): Cluster
    requires o in c.operators
  {
    c.(operators := c.operators[o := c.operators[o].(status := s)], secrets := store)
  }

  lemma OpShape(c: Cluster, o: Key, x: OperatorOracle)
    requires Coupled(c) && o in c.operators && OperatorSucceeds(x)
    ensures var p := OperatorStages(c, o, c.operators[o].status.InitializeConditions(), x);
            ReconcileOperator(c, o, x).c == OpAfter(c, o, p.status, p.store) && Coupled(OpAfter(c, o, p.status, p.store))
  {
    Operators.OperatorStepMeaning(c, o, x);
    hide OperatorStages, Coupled;
  }

  /******* What the stages plan *******/

  lemma OpSeedPlan(c: Cluster, o: Key, s: OperatorStatus, x: OperatorOracle)
    requires Coupled(c) && o in c.operators && OpSeedFree(c, o) && OperatorSucceeds(x) && !OpSeedDone(c, o)
    ensures OperatorSeedStage(c, o, x).SeedReady?
    ensures var p := OperatorStages(c, o, s, x);
            && p.store == OperatorSeedStage(c, o, x).store
            && p.status == s.MarkSeedSecretReady(OperatorSeedStage(c, o, x).keyPair)
  {
    OpSeedStageSucceeds(c, o, x);
    hide OperatorSeedStage, SystemAccountStage, OpSeedFree, OpSeedDone;
  }

  lemma OpSeedStageSucceeds(c: Cluster, o: Key, x: OperatorOracle)
    requires o in c.operators && OpSeedFree(c, o) && OperatorSucceeds(x)
    ensures OperatorSeedStage(c, o, x).SeedReady?
    ensures OperatorSeedStage(c, o, x).wrote <==> !OpSeedDone(c, o)
  {
    if OperatorSeedStage(c, o, x).SeedReady? {
      SeedStageMeaning(c.secrets, OperatorOwner(o, c.operators[o]), c.operators[o].spec.seedSecretName, PrefixOperator, true, x.seed);
    }
  }

  function OpWant(c: Cluster, o: Key, s: OperatorStatus, x: OperatorOracle): Option<Claims>
    requires o in c.operators && OpSeedDone(c, o)
  {
    OperatorClaimsOf(o.name, c.operators[o].spec, s, SeedAt(c.secrets, OpSeedKey(c, o)), x.iat, x.jti)
  }

  lemma OpJwtSucceeds(c: Cluster, o: Key, want: Claims, x: OperatorOracle)
    requires o in c.operators && OpJwtFree(c, o) && OperatorSucceeds(x)
    ensures Operators.OperatorJwtOut(c, o, want, x).result.Ok?
    ensures var store := Operators.OperatorJwtOut(c, o, want, x).store;
            && OpJwtKey(c, o) in store && JWTKey in store[OpJwtKey(c, o)].data
            && SetController(OperatorOwner(o, c.operators[o]), store[OpJwtKey(c, o)].owners).Some?
  {
    var owner := OperatorOwner(o, c.operators[o]);
    UpsertMeaning([], RefOf(owner));
    if OpJwtKey(c, o) in c.secrets {
      UpsertMeaning(c.secrets[OpJwtKey(c, o)].owners, RefOf(owner));
    }
  }

  lemma OpSettledPlan(c: Cluster, o: Key, s: OperatorStatus, x: OperatorOracle)
    requires Coupled(c) && o in c.operators && OpJwtFree(c, o) && OperatorSucceeds(x) && OpSeedDone(c, o)
    ensures var p, found, g := OperatorStages(c, o, s, x), FindSystemAccount(c, o, true),
                               OpGoal(s, OpPair(c, o), FindSystemAccount(c, o, true), ListedKeys(c, o));
            && p.status == g
            && (found.Fail? ==> p.store == c.secrets)
            && (found.Ok? ==> OpWant(c, o, g, x).Some? && p.store == Operators.OperatorJwtOut(c, o, OpWant(c, o, g, x).value, x).store)
  {
    hide OpJwtFree, FindSystemAccount, ListedKeys, Verdict, BuildSeedSecret;
    hide OperatorStatus.Coupled, OperatorStatus.Ready;
    SeedStageSettled(c.secrets, OperatorOwner(o, c.operators[o]), c.operators[o].spec.seedSecretName, PrefixOperator, true, x.seed);
    hide SeedStage, JwtStage, Stamped;
    match FindSystemAccount(c, o, true)
    case Fail(_) =>
    case Ok(ref) =>
      var g := OpGoal(s, OpPair(c, o), FindSystemAccount(c, o, true), ListedKeys(c, o));
      OpJwtSucceeds(c, o, OpWant(c, o, g, x).value, x);
  }

  /******* What the step leaves to the Account *******/

  lemma AccountSideKept(c: Cluster, o: Key, a: Key, s: OperatorStatus, store: Store)
    requires o in c.operators && a in c.accounts
    requires SameAt(c.secrets, store, Accounts.SeedSecretKey(c, a)) && SameAt(c.secrets, store, Accounts.JwtKey(c, a))
    ensures var c' := OpAfter(c, o, s, store);
            && (SeedDone(c', a) <==> SeedDone(c, a))
            && (AccPairRight(c', a) <==> AccPairRight(c, a))
            && (SeedNameFree(c', a) <==> SeedNameFree(c, a))
            && (JwtNameFree(c', a) <==> JwtNameFree(c, a))
  {
    hide BuildSeedSecret, SetController;
  }

  lemma FoundKept(c: Cluster, o: Key, s: OperatorStatus, store: Store)
    requires Coupled(c) && o in c.operators && Coupled(OpAfter(c, o, s, store))
    ensures FindSystemAccount(OpAfter(c, o, s, store), o, true) == FindSystemAccount(c, o, true)
    ensures ListedKeys(OpAfter(c, o, s, store), o) == ListedKeys(c, o)
  {
  }

  lemma BootKept(c: Cluster, o: Key, a: Key, s: OperatorStatus, store: Store)
    requires Boot(c, o, a) && Coupled(OpAfter(c, o, s, store))
    requires SameAt(c.secrets, store, Accounts.SeedSecretKey(c, a)) && SameAt(c.secrets, store, Accounts.JwtKey(c, a))
    requires OpSeedFree(OpAfter(c, o, s, store), o) && OpJwtFree(OpAfter(c, o, s, store), o)
    ensures Boot(OpAfter(c, o, s, store), o, a)
  {
    hide Coupled, SetController, OpSeedFree, OpJwtFree, SeedNameFree, JwtNameFree, Matches, Blind;
    AccountSideKept(c, o, a, s, store);
  }

  lemma OpDoneIsFree(c: Cluster, o: Key)
    requires o in c.operators && OpSeedDone(c, o) && SeedAt(c.secrets, OpSeedKey(c, o)).prefix == PrefixOperator
    ensures OpSeedFree(c, o)
  {
  }

  /******* Lowering the rank *******/

  // The Operator's seed secret is written.
  lemma OpSeedStoreKeepsBoot(c: Cluster, o: Key, a: Key, s: OperatorStatus, x: OperatorOracle)
    requires Boot(c, o, a) && OperatorSeedStage(c, o, x).SeedReady?
    requires var out := OperatorSeedStage(c, o, x);
             s.keyPair == Some(out.keyPair) && Coupled(OpAfter(c, o, s, out.store))
    ensures var c' := OpAfter(c, o, s, OperatorSeedStage(c, o, x).store);
            && Boot(c', o, a) && OpSeedDone(c', o)
            && (SeedDone(c', a) <==> SeedDone(c, a)) && (AccPairRight(c', a) <==> AccPairRight(c, a))
  {
    hide Coupled, SeedStage, Mutual, Admits, SetController, SeedNameFree, JwtNameFree;
    var out := OperatorSeedStage(c, o, x);
    SeedStageMeaning(c.secrets, OperatorOwner(o, c.operators[o]), c.operators[o].spec.seedSecretName, PrefixOperator, true, x.seed);
    var c' := OpAfter(c, o, s, out.store);
    assert OpSeedDone(c', o);
    OpDoneIsFree(c', o);
    assert OpJwtFree(c', o);
    hide OpSeedFree, OpJwtFree, OpSeedDone;
    BootKept(c, o, a, s, out.store);
    AccountSideKept(c, o, a, s, out.store);
  }

  // The Operator's JWT secret is brought up to date.
  lemma OpJwtStoreKeepsBoot(c: Cluster, o: Key, a: Key, g: OperatorStatus, x: OperatorOracle)
    requires Boot(c, o, a) && OpSeedDone(c, o) && OperatorSucceeds(x) && g.keyPair == Some(OpPair(c, o))
    requires OpWant(c, o, g, x).Some?
    requires Coupled(OpAfter(c, o, g, Operators.OperatorJwtOut(c, o, OpWant(c, o, g, x).value, x).store))
    ensures var store := Operators.OperatorJwtOut(c, o, OpWant(c, o, g, x).value, x).store;
            var c' := OpAfter(c, o, g, store);
            && Boot(c', o, a) && OpSeedDone(c', o) && OpPair(c', o) == OpPair(c, o) && OpJwtRight(c', o)
            && (SeedDone(c', a) <==> SeedDone(c, a))
            && (AccPairRight(c', a) <==> AccPairRight(c, a))
            && (OpJwtRight(c, o) && c.operators[o].status == g ==> store == c.secrets)
  {
    hide Coupled, JwtStage, Mutual, Admits, SeedNameFree, JwtNameFree, BuildSeedSecret, SetController;
    var want := OpWant(c, o, g, x).value;
    var store := Operators.OperatorJwtOut(c, o, want, x).store;
    var owner, name := OperatorOwner(o, c.operators[o]), c.operators[o].spec.jwtSecretName;
    OpJwtSucceeds(c, o, want, x);
    JwtStageMeaning(c.secrets, owner, name, want, x.jwt);
    OthersKept(c.secrets, owner, name, want, x.jwt, Accounts.SeedSecretKey(c, a));
    OthersKept(c.secrets, owner, name, want, x.jwt, Accounts.JwtKey(c, a));
    OthersKept(c.secrets, owner, name, want, x.jwt, OpSeedKey(c, o));
    var c' := OpAfter(c, o, g, store);
    assert OpSeedDone(c', o) && OpSeedFree(c', o) && OpJwtFree(c', o);
    hide OpSeedFree, OpJwtFree, SeedBuilt;
    BootKept(c, o, a, g, store);
    AccountSideKept(c, o, a, g, store);
  }

  lemma OthersKept(store: Store, owner: Owner, name: string, want: Claims, x: JwtOracle, q: Key)
    requires q != Key(owner.key.ns, name)
    ensures SameAt(store, JwtStage(store, owner, name, want, Signed(want), x).store, q)
  {
  }

  // What a step of the Operator must not disturb.
  predicate AccountSide(c: Cluster, c': Cluster, a: Key)
    requires a in c.accounts
  {
    && c'.accounts == c.accounts
    && (SeedDone(c', a) <==> SeedDone(c, a)) && (AccPairRight(c', a) <==> AccPairRight(c, a))
  }

  // How far one reconcile of the Operator gets, and that it loses nothing.
  predicate OpAdvances(c: Cluster, c': Cluster, o: Key, a: Key)
    requires Coupled(c) && Coupled(c') && o in c.operators && o in c'.operators && a in c.accounts
  {
    && AccountSide(c, c', a)
    && OpSeedDone(c', o) && !OperatorMissing(c'.operators[o].status)
    && (OpSeedDone(c, o) ==> OpIdle(c', o))
  }

  // The earliest open part that a settled Operator closes.
  lemma OpCloses(c: Cluster, c': Cluster, o: Key, a: Key)
    requires Coupled(c) && Coupled(c') && o in c.operators && o in c'.operators && a in c.accounts
    requires AccountSide(c, c', a) && OpSeedDone(c, o) && !OpIdle(c, o) && OpIdle(c', o)
    requires FindSystemAccount(c', o, true) == FindSystemAccount(c, o, true)
    ensures BootRank(c', o, a) < BootRank(c, o, a)
  {
    hide Coupled, OperatorMissing, AccountMissing, OpSeedDone, SeedDone, OpPairRight, AccPairRight, SystemRight, OpKeysRight;
    hide OpJwtRight, OpJwtUp, IssuerRight, OperatorRight, LabelRight, KeysRight, AccJwtRight, AccJwtUp, Value, FindSystemAccount;
    var b, b' := Open(c, o, a), Open(c', o, a);
    var i := if b[0] then 0 else if b[5] then 5 else if b[7] then 7 else if b[8] then 8 else if b[9] then 9 else 10;
    ClearingLowers(b, b', i);
  }

  lemma OpSeedCloses(c: Cluster, c': Cluster, o: Key, a: Key)
    requires Coupled(c) && Coupled(c') && o in c.operators && o in c'.operators && a in c.accounts && c'.accounts == c.accounts
    requires !OpSeedDone(c, o) && OpSeedDone(c', o) && !OperatorMissing(c'.operators[o].status)
    ensures BootRank(c', o, a) < BootRank(c, o, a)
  {
    hide Coupled, OperatorMissing, AccountMissing, OpSeedDone, SeedDone, OpPairRight, AccPairRight, SystemRight, OpKeysRight;
    hide OpJwtRight, OpJwtUp, IssuerRight, OperatorRight, LabelRight, KeysRight, AccJwtRight, AccJwtUp, Value;
    ClearingLowers(Open(c, o, a), Open(c', o, a), if Open(c, o, a)[0] then 0 else 2);
  }

  lemma OpSeedStep(c: Cluster, o: Key, a: Key, x: OperatorOracle)
    requires Boot(c, o, a) && OperatorSucceeds(x) && !OpSeedDone(c, o)
    ensures var c' := ReconcileOperator(c, o, x).c;
            Boot(c', o, a) && BootRank(c', o, a) < BootRank(c, o, a) && OpAdvances(c, c', o, a)
  {
    hide OpIdle, AccPairRight, Coupled, OpSeedDone, SeedDone, OperatorStages, OperatorSeedStage, ReconcileOperator;
    hide Mutual, Admits, FourNames, OpSeedFree, OpJwtFree, SeedNameFree, JwtNameFree, BootRank, OperatorStatus.Coupled;
    var s := c.operators[o].status.InitializeConditions();
    OpShape(c, o, x);
    OpSeedPlan(c, o, s, x);
    var p := OperatorStages(c, o, s, x);
    OpSeedStoreKeepsBoot(c, o, a, p.status, x);
    hide Boot;
    OpSeedCloses(c, OpAfter(c, o, p.status, p.store), o, a);
  }

  lemma OpGoalKeepsBoot(c: Cluster, o: Key, a: Key, s: OperatorStatus, x: OperatorOracle)
    requires Boot(c, o, a) && OperatorSucceeds(x) && OpSeedDone(c, o) && !OperatorMissing(s)
    requires var p := OperatorStages(c, o, s, x); Coupled(OpAfter(c, o, p.status, p.store))
    ensures var p := OperatorStages(c, o, s, x); var c' := OpAfter(c, o, p.status, p.store);
            && Boot(c', o, a) && AccountSide(c, c', a) && OpIdle(c', o)
            && FindSystemAccount(c', o, true) == FindSystemAccount(c, o, true)
            && (OpIdle(c, o) && s == c.operators[o].status ==> p.status == s && p.store == c.secrets)
  {
    hide Coupled, OperatorMissing, SeedDone, AccPairRight, ListedKeys, OperatorStages, OperatorClaimsOf, Verdict, SystemMark;
    hide Mutual, Admits, FourNames, OpSeedFree, OpJwtFree, SeedNameFree, JwtNameFree;
    hide OperatorStatus.Coupled, OperatorStatus.Ready, OpSeedDone, FindSystemAccount, JwtStage;
    OpSettledPlan(c, o, s, x);
    var p, found := OperatorStages(c, o, s, x), FindSystemAccount(c, o, true);
    OpGoalParts(s, OpPair(c, o), found, ListedKeys(c, o));
    FoundKept(c, o, p.status, p.store);
    if found.Ok? {
      OpJwtStoreKeepsBoot(c, o, a, p.status, x);
    } else {
      OpBlockedKeepsBoot(c, o, a, p.status);
    }
    hide Boot, OpJwtRight;
  }

  lemma OpBlockedKeepsBoot(c: Cluster, o: Key, a: Key, g: OperatorStatus)
    requires Boot(c, o, a) && OpSeedDone(c, o) && g.keyPair == Some(OpPair(c, o)) && Coupled(OpAfter(c, o, g, c.secrets))
    ensures var c' := OpAfter(c, o, g, c.secrets);
            && Boot(c', o, a) && AccountSide(c, c', a) && OpSeedDone(c', o) && OpPair(c', o) == OpPair(c, o)
  {
    hide Coupled, Mutual, Admits, FourNames, SeedNameFree, JwtNameFree, BuildSeedSecret;
    var c' := OpAfter(c, o, g, c.secrets);
    assert OpSeedFree(c', o) && OpJwtFree(c', o);
    BootKept(c, o, a, g, c.secrets);
    AccountSideKept(c, o, a, g, c.secrets);
  }

  // A step of the Operator lowers the rank, or there is nothing for it to do and nothing changes.
  lemma OperatorStepLowers(c: Cluster, o: Key, a: Key, x: OperatorOracle)
    requires Boot(c, o, a) && OperatorSucceeds(x)
    ensures var c' := ReconcileOperator(c, o, x).c;
            && Boot(c', o, a) && OpAdvances(c, c', o, a)
            && (if OpIdle(c, o) then c' == c else BootRank(c', o, a) < BootRank(c, o, a))
  {
    hide Coupled, Mutual, Admits, FourNames, OpSeedFree, OpJwtFree, SeedNameFree, JwtNameFree;
    hide OpSeedDone, OpPairRight, SystemRight, OpKeysRight, OpJwtRight, OpJwtUp, AccountSide, BootRank, ReconcileOperator, OperatorStages;
    if !OpSeedDone(c, o) {
      OpSeedStep(c, o, a, x);
    } else {
      var s := c.operators[o].status.InitializeConditions();
      OpShape(c, o, x);
      OpGoalKeepsBoot(c, o, a, s, x);
      var p := OperatorStages(c, o, s, x);
      var c' := OpAfter(c, o, p.status, p.store);
      if OpIdle(c, o) {
        assert c'.operators == c.operators;
      } else {
        OpCloses(c, c', o, a);
      }
    }
  }
}
