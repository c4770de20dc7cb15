/**
 The system Account's side of the bootstrap: a reconcile with succeeding calls, whatever becomes of
 its push, settles the earliest open part of the Account, or finds none and changes at most
 what is said of the push.
 */
module BootstrapAccount {
  import opened Texts
  import opened Conditions
  import opened ConditionRuns
  import opened Lifecycles
  import opened Errors
  import opened Secrets
  import opened SigningKeys
  import opened ClusterState
  import opened SecretStages
  import opened OperatorController
  import opened AccountController
  import opened AccountConvergence
  import opened Bootstrap
  import Accounts = AccountTheorems

  function Issuing(c: Cluster, a: Key): Res<KeyPairable>
    requires a in c.accounts
  {
    ResolveIssuer(c, c.accounts[a].spec.issuer, a.ns, true)
  }

  // Nothing for the Account to do: it is blocked on its Operator or on that one's seed, or done.
  ghost predicate AccIdle(c: Cluster, o: Key, a: Key)
    requires Coupled(c) && o in c.operators && a in c.accounts
  {
    && !AccountMissing(c.accounts[a].status)
    && AccountFinalizer in c.accounts[a].finalizers
    && SeedDone(c, a) && AccPairRight(c, a) && IssuerRight(c, a)
    && (Issuing(c, a).Ok? ==>
          && OperatorRight(c, o, a) && LabelRight(c, o, a)
          && KeysRight(c, a)
          && (LoadAccountIssuerSeed(c, Issuing(c, a).value, true).Ok? ==> AccJwtRight(c, o, a) && AccJwtUp(c, a)))
  }

  // The cluster after a step of the Account.
  function AccAfter(c: Cluster, a: Key, p: Plan): Cluster
    requires a in c.accounts
  {
    c.(accounts := c.accounts[a := c.accounts[a].(labels := p.labels, finalizers := p.finalizers, status := p.status)],
       secrets := p.store)
  }

  function AccPlan(c: Cluster, a: Key, x: AccountOracle): Plan
    requires Coupled(c) && a in c.accounts
  {
    Stages(c, a, c.accounts[a].status.InitializeConditions(), x)
  }

  lemma AccShape(c: Cluster, a: Key, x: AccountOracle)
    requires Coupled(c) && a in c.accounts && !c.accounts[a].deleting && AccountSucceeds(c, a, x)
    ensures Reconcile(c, a, x).c == AccAfter(c, a, AccPlan(c, a, x)) && Coupled(AccAfter(c, a, AccPlan(c, a, x)))
  {
    Accounts.StepFrames(c, a, x);
    hide Stages, Coupled, IsNext, AllCoupled;
  }

  /******* What the stages plan *******/

  lemma IssuerIsOperator(c: Cluster, o: Key, a: Key)
    requires Boot(c, o, a) && Issuing(c, a).Ok?
    ensures Issuing(c, a).value == IssuerOperator(o, c.operators[o])
    ensures FindOperator(c, a, Issuing(c, a).value, true, true) == Ok(o)
  {
    hide ValidateSelectors, Blind, FourNames, OpSeedFree, OpJwtFree, SeedNameFree, JwtNameFree, OperatorStatus.Ready;
  }

  // The status once the seed is there: as far as the issuer allows.
  function Resolved(c: Cluster, o: Key, a: Key, s: AccountStatus): AccountStatus
    requires a in c.accounts && SeedDone(c, a)
  {
    s.MarkSeedSecretReady(AccPair(c, a)).MarkOperatorResolved(o)
  }

  lemma SettledPlan(c: Cluster, o: Key, a: Key, s: AccountStatus, x: AccountOracle)
    requires Boot(c, o, a) && AccountSucceeds(c, a, x) && SeedDone(c, a)
    ensures PrepareSeed(c, a, s, x) == PrepareIssuer(c, a, s.MarkSeedSecretReady(AccPair(c, a)), x)
  {
    hide Coupled, Mutual, Admits, FourNames, OpSeedFree, OpJwtFree, SeedNameFree, JwtNameFree, IsNext, AllCoupled;
    hide PrepareIssuer, BuildSeedSecret, AccountStatus.Coupled, AccountStatus.Ready;
    SeedStageSettled(c.secrets, OwnerOf(a, c.accounts[a]), c.accounts[a].spec.seedSecretName, PrefixAccount, true, x.seed);
    hide SeedStage;
  }

  // Where preparation stops, or what it hands over.
  lemma PreparePlan(c: Cluster, o: Key, a: Key, s: AccountStatus, x: AccountOracle)
    requires Boot(c, o, a) && AccountSucceeds(c, a, x) && SeedDone(c, a)
    ensures var issuer, s1, s2 := Issuing(c, a), s.MarkSeedSecretReady(AccPair(c, a)), Resolved(c, o, a, s);
            match issuer
            case Fail(e) => PrepareSeed(c, a, s, x) == Halt(Stop(c, a, MarkIssuer(s1, Verdict(e)), IssuerFailure, AsResult(e)))
            case Ok(i) =>
              if !LabelRight(c, o, a) then PrepareSeed(c, a, s, x) == PrepareLabels(c, a, s2, i, o.name, x)
              else
                match LoadAccountIssuerSeed(c, i, true)
                case Fail(e) =>
                  PrepareSeed(c, a, s, x) ==
                    Halt(Stop(c, a, MarkIssuer(s2.MarkSigningKeysUpdated(x.keys), Verdict(e)), IssuerSeedFailure, AsResult(e)))
                case Ok(seed) => PrepareSeed(c, a, s, x) == Go(s2.MarkSigningKeysUpdated(x.keys).MarkIssuerResolved(), seed)
  {
    SettledPlan(c, o, a, s, x);
    if Issuing(c, a).Ok? { IssuerIsOperator(c, o, a); }
    hide PrepareSeed, ResolveIssuer, FindOperator, LoadAccountIssuerSeed, SeedDone, LabelOf, Coupled, Admits, FourNames, IsNext, AllCoupled;
    hide OpSeedFree, OpJwtFree, SeedNameFree, JwtNameFree, MarkIssuer, Verdict, AsResult, AccountStatus.Coupled, AccountStatus.Ready;
    match Issuing(c, a)
    case Fail(_) =>
    case Ok(i) =>
  }

  /******* What the step leaves to the Operator *******/

  predicate OpSecretsKept(c: Cluster, o: Key, store: Store)
    requires o in c.operators
  {
    SameAt(c.secrets, store, OpSeedKey(c, o)) && SameAt(c.secrets, store, OpJwtKey(c, o))
  }

  lemma OperatorSideKept(c: Cluster, o: Key, a: Key, p: Plan)
    requires Coupled(c) && o in c.operators && a in c.accounts && OpSecretsKept(c, o, p.store)
    requires Coupled(AccAfter(c, a, p))
    ensures var c' := AccAfter(c, a, p);
            && (OpSeedDone(c', o) <==> OpSeedDone(c, o))
            && (OpPairRight(c', o) <==> OpPairRight(c, o))
            && (OpKeysRight(c', o) <==> OpKeysRight(c, o))
            && (OpJwtRight(c', o) <==> OpJwtRight(c, o))
            && (OpSeedFree(c', o) <==> OpSeedFree(c, o))
            && (OpJwtFree(c', o) <==> OpJwtFree(c, o))
  {
    hide BuildSeedSecret, SetController, Coupled;
  }

  lemma IssuingKept(c: Cluster, o: Key, a: Key, p: Plan)
    requires Boot(c, o, a) && (NamedSeed(c, o).Some? ==> SameAt(c.secrets, p.store, NamedSeed(c, o).value))
    ensures var c' := AccAfter(c, a, p);
            && Issuing(c', a) == Issuing(c, a)
            && (Issuing(c, a).Ok? ==>
                  LoadAccountIssuerSeed(c', Issuing(c, a).value, true) == LoadAccountIssuerSeed(c, Issuing(c, a).value, true))
  {
    hide Coupled, Admits, FourNames, OpSeedFree, OpJwtFree, SeedNameFree, JwtNameFree, CheckIssuerSeed, KeyPairable.Ready;
  }

  lemma BootKeptByAccount(c: Cluster, o: Key, a: Key, p: Plan)
    requires Boot(c, o, a) && Coupled(AccAfter(c, a, p)) && OpSecretsKept(c, o, p.store)
    requires SameButLabel(c.accounts[a].labels, p.labels)
    requires SeedNameFree(AccAfter(c, a, p), a) && JwtNameFree(AccAfter(c, a, p), a)
    ensures Boot(AccAfter(c, a, p), o, a)
  {
    hide Coupled, SeedNameFree, JwtNameFree, OpSeedFree, OpJwtFree, OpSecretsKept, SameBut, BlindTo, Matches;
    OperatorSideKept(c, o, a, p);
    var sel := c.operators[o].spec.accountsSelector;
    if sel.Some? {
      BlindMatches(sel.value, c.accounts[a].labels, p.labels, LabelOperatorName);
    }
  }

  /******* Closing parts *******/

  // What a step of the Account must not disturb.
  predicate OperatorSide(c: Cluster, c': Cluster, o: Key)
    requires Coupled(c) && Coupled(c') && o in c.operators
  {
    && c'.operators == c.operators
    && (OpSeedDone(c', o) <==> OpSeedDone(c, o)) && (OpPairRight(c', o) <==> OpPairRight(c, o))
    && (OpKeysRight(c', o) <==> OpKeysRight(c, o)) && (OpJwtRight(c', o) <==> OpJwtRight(c, o))
  }

  // The same seed and key pair on the Account leave the Operator's view of it alone.
  lemma SystemKept(c: Cluster, c': Cluster, o: Key, a: Key)
    requires Coupled(c) && Coupled(c') && o in c.operators && a in c.accounts && a in c'.accounts
    requires a == Key(o.ns, c.operators[o].spec.systemAccount) && c'.operators == c.operators
    requires c'.accounts[a].status.seed == c.accounts[a].status.seed && c'.accounts[a].status.keyPair == c.accounts[a].status.keyPair
    ensures SystemRight(c', o) <==> SystemRight(c, o)
  {
    hide SystemMark;
  }

  predicate SamePair(c: Cluster, c': Cluster, a: Key)
    requires a in c.accounts && a in c'.accounts
  {
    c'.accounts[a].status.seed == c.accounts[a].status.seed && c'.accounts[a].status.keyPair == c.accounts[a].status.keyPair
  }

  // The first eleven parts once the Account's own are closed.
  lemma FirstPartsKept(c: Cluster, c': Cluster, o: Key, a: Key)
    requires Boot(c, o, a) && Boot(c', o, a) && OperatorSide(c, c', o)
    requires AccountFinalizer in c'.accounts[a].finalizers && SeedDone(c', a) && AccPairRight(c', a) && !AccountMissing(c'.accounts[a].status)
    requires AccPairRight(c, a) ==> SamePair(c, c', a)
    ensures forall j :: 0 <= j < 7 ==> (Open(c', o, a)[j] ==> Open(c, o, a)[j])
    ensures AccPairRight(c, a) ==> forall j :: 0 <= j < 11 ==> (Open(c', o, a)[j] ==> Open(c, o, a)[j])
  {
    hide Coupled, OperatorMissing, AccountMissing, OpSeedDone, SeedDone, OpPairRight, AccPairRight, SystemRight, OpKeysRight;
    hide OpJwtRight, OpJwtUp, Misread, IssuerRight, OperatorRight, LabelRight, KeysRight, AccJwtRight, AccJwtUp, Value, Issuing, LoadAccountIssuerSeed;
    hide Admits, FourNames, OpSeedFree, OpJwtFree, SeedNameFree, JwtNameFree;
    if AccPairRight(c, a) { SystemKept(c, c', o, a); }
    OpJwtUpKept(c, c', o);
    hide Boot, SamePair;
  }

  // A step that makes the status known closed one of its first two parts, if either was open.
  lemma KnownCloses(c: Cluster, c': Cluster, o: Key, a: Key)
    requires Boot(c, o, a) && Boot(c', o, a) && OperatorSide(c, c', o)
    requires AccountFinalizer in c'.accounts[a].finalizers && SeedDone(c', a) && AccPairRight(c', a) && !AccountMissing(c'.accounts[a].status)
    requires AccPairRight(c, a) ==> SamePair(c, c', a)
    requires AccountMissing(c.accounts[a].status) || !AccPairRight(c, a)
    ensures BootRank(c', o, a) < BootRank(c, o, a)
  {
    hide Coupled, OperatorMissing, AccountMissing, OpSeedDone, SeedDone, OpPairRight, AccPairRight, SystemRight, OpKeysRight;
    hide OpJwtRight, OpJwtUp, Misread, IssuerRight, OperatorRight, LabelRight, KeysRight, AccJwtRight, AccJwtUp, Value, Issuing, LoadAccountIssuerSeed;
    FirstPartsKept(c, c', o, a);
    hide Boot, SamePair, OperatorSide;
    ClearingLowers(Open(c, o, a), Open(c', o, a), if AccountMissing(c.accounts[a].status) then 1 else 6);
  }

  // A step that leaves the Account idle closed its earliest open part.
  lemma AccCloses(c: Cluster, c': Cluster, o: Key, a: Key)
    requires Boot(c, o, a) && Boot(c', o, a) && OperatorSide(c, c', o)
    requires AccountFinalizer in c.accounts[a].finalizers && SeedDone(c, a)
    requires Issuing(c', a) == Issuing(c, a)
    requires Issuing(c, a).Ok? ==>
               LoadAccountIssuerSeed(c', Issuing(c, a).value, true) == LoadAccountIssuerSeed(c, Issuing(c, a).value, true)
    requires AccPairRight(c, a) ==> SamePair(c, c', a)
    requires Misread(c', o, a) ==> Misread(c, o, a)
    requires !AccIdle(c, o, a) && AccIdle(c', o, a)
    ensures BootRank(c', o, a) < BootRank(c, o, a)
  {
    hide Coupled, OperatorMissing, AccountMissing, OpSeedDone, SeedDone, OpPairRight, AccPairRight, SystemRight, OpKeysRight;
    hide OpJwtRight, OpJwtUp, Misread, IssuerRight, OperatorRight, LabelRight, KeysRight, AccJwtRight, AccJwtUp, Value, Issuing, LoadAccountIssuerSeed;
    if AccountMissing(c.accounts[a].status) || !AccPairRight(c, a) {
      KnownCloses(c, c', o, a);
    } else {
      FirstPartsKept(c, c', o, a);
      hide Boot, SamePair, OperatorSide;
      var b, b' := Open(c, o, a), Open(c', o, a);
      var i := if b[12] then 12 else if b[13] then 13 else if b[14] then 14 else if b[15] then 15 else if b[16] then 16 else 17;
      ClearingLowers(b, b', i);
    }
  }

  lemma OpJwtUpKept(c: Cluster, c': Cluster, o: Key)
    requires o in c.operators && c'.operators == c.operators
    ensures OpJwtUp(c', o) <==> OpJwtUp(c, o)
  {
  }

  // The Account's status says what its seed secret holds.
  predicate Known(c: Cluster, a: Key)
    requires a in c.accounts
  {
    AccPairRight(c, a) && !AccountMissing(c.accounts[a].status)
  }

  predicate Held(c: Cluster, a: Key)
    requires a in c.accounts
  {
    AccountFinalizer in c.accounts[a].finalizers && SeedDone(c, a)
  }

  // How far one reconcile of the Account gets, and that it loses nothing.
  ghost predicate Advances(c: Cluster, c': Cluster, o: Key, a: Key)
    requires Coupled(c) && Coupled(c') && o in c.operators && o in c'.operators && a in c.accounts && a in c'.accounts
  {
    && OperatorSide(c, c', o)
    && AccountFinalizer in c'.accounts[a].finalizers
    && (AccountFinalizer in c.accounts[a].finalizers ==> SeedDone(c', a))
    && (LabelRight(c, o, a) ==> LabelRight(c', o, a))
    && (Known(c, a) ==> Known(c', a) && SamePair(c, c', a))
    && (Held(c, a) ==> LabelRight(c', o, a) || Known(c', a))
    && (Held(c, a) && LabelRight(c, o, a) ==> Known(c', a))
    && (Held(c, a) && Issuing(c, a).Ok? ==> LabelRight(c', o, a))
    && (Held(c, a) && (Issuing(c, a).Ok? ==> LabelRight(c, o, a)) && !Misread(c, o, a) ==> AccIdle(c', o, a))
  }

  /******* Early steps *******/

  // The first five parts close in this order.
  lemma EarlyCloses(c: Cluster, c': Cluster, o: Key, a: Key)
    requires Coupled(c) && Coupled(c') && o in c.operators && a in c.accounts && a in c'.accounts && OperatorSide(c, c', o)
    requires AccountMissing(c'.accounts[a].status) ==> AccountMissing(c.accounts[a].status)
    requires AccountFinalizer in c.accounts[a].finalizers ==> AccountFinalizer in c'.accounts[a].finalizers
    requires (AccountMissing(c.accounts[a].status) && !AccountMissing(c'.accounts[a].status))
             || (AccountFinalizer !in c.accounts[a].finalizers && AccountFinalizer in c'.accounts[a].finalizers)
             || (!SeedDone(c, a) && SeedDone(c', a))
    ensures BootRank(c', o, a) < BootRank(c, o, a)
  {
    hide Coupled, OpSeedDone, OperatorMissing, AccountMissing, SeedDone, OpPairRight, AccPairRight, SystemRight, OpKeysRight;
    hide OpJwtRight, OpJwtUp, Misread, IssuerRight, OperatorRight, LabelRight, KeysRight, AccJwtRight, AccJwtUp, Value;
    var b, b' := Open(c, o, a), Open(c', o, a);
    ClearingLowers(b, b', if b[1] && !b'[1] then 1 else if b[3] && !b'[3] then 3 else 4);
  }

  // No secret is touched.
  lemma ObjectStepKeepsBoot(c: Cluster, o: Key, a: Key, p: Plan)
    requires Boot(c, o, a) && Coupled(AccAfter(c, a, p))
    requires p.store == c.secrets && SameButLabel(c.accounts[a].labels, p.labels)
    ensures var c' := AccAfter(c, a, p);
            && Boot(c', o, a) && OperatorSide(c, c', o)
            && Issuing(c', a) == Issuing(c, a)
            && (Issuing(c, a).Ok? ==>
                  LoadAccountIssuerSeed(c', Issuing(c, a).value, true) == LoadAccountIssuerSeed(c, Issuing(c, a).value, true))
            && (SeedDone(c', a) <==> SeedDone(c, a))
            && (SeedDone(c, a) ==> AccPair(c', a) == AccPair(c, a))
            && (AccJwtRight(c', o, a) <==> AccJwtRight(c, o, a)) && (Misread(c', o, a) <==> Misread(c, o, a))
  {
    var c' := AccAfter(c, a, p);
    assert SeedNameFree(c', a) && JwtNameFree(c', a);
    assert AccJwtRight(c', o, a) <==> AccJwtRight(c, o, a);
    hide Coupled, AccJwtRight, SeedNameFree, JwtNameFree;
    BootKeptByAccount(c, o, a, p);
    OperatorSideKept(c, o, a, p);
    IssuingKept(c, o, a, p);
    hide Boot, Issuing, LoadAccountIssuerSeed, OpPairRight, OpKeysRight, OpJwtRight;
  }

  lemma FinalizerPlan(c: Cluster, a: Key, x: AccountOracle)
    requires Coupled(c) && a in c.accounts && AccountSucceeds(c, a, x)
    requires !c.accounts[a].deleting && AccountFinalizer !in c.accounts[a].finalizers
    ensures var p := AccPlan(c, a, x);
            && p.store == c.secrets && p.labels == c.accounts[a].labels && AccountFinalizer in p.finalizers
            && (AccountMissing(p.status) ==> AccountMissing(c.accounts[a].status))
            && (!AccountMissing(c.accounts[a].status) ==> p.status == c.accounts[a].status)
  {
    hide Coupled, IsNext, AllCoupled, Issue, Finalize, AccountStatus.Coupled, AccountStatus.Ready;
  }

  lemma FinalizerCloses(c: Cluster, o: Key, a: Key, x: AccountOracle)
    requires Boot(c, o, a) && AccountSucceeds(c, a, x) && AccountFinalizer !in c.accounts[a].finalizers
    requires Coupled(AccAfter(c, a, AccPlan(c, a, x)))
    ensures var c' := AccAfter(c, a, AccPlan(c, a, x));
            Boot(c', o, a) && BootRank(c', o, a) < BootRank(c, o, a) && Advances(c, c', o, a)
  {
    hide AccPlan, AccountSucceeds, Coupled, OperatorSide, BootRank, Issuing, AccountMissing, SeedDone, AccJwtRight;
    hide Admits, FourNames, OpSeedFree, OpJwtFree, SeedNameFree, JwtNameFree;
    hide AccIdle, AccPair, Misread, LabelOf;
    FinalizerPlan(c, a, x);
    ObjectStepKeepsBoot(c, o, a, AccPlan(c, a, x));
    EarlyCloses(c, AccAfter(c, a, AccPlan(c, a, x)), o, a);
  }

  lemma SeedPlan(c: Cluster, a: Key, s: AccountStatus, x: AccountOracle)
    requires Coupled(c) && a in c.accounts && AccountSucceeds(c, a, x) && SeedNameFree(c, a) && !SeedDone(c, a)
    ensures AccountSeedStage(c, a, x).SeedReady?
    ensures var p := Issue(c, a, s, x);
            && p.store == AccountSeedStage(c, a, x).store && p.labels == c.accounts[a].labels
            && p.finalizers == c.accounts[a].finalizers
            && (!AccountMissing(s) ==> !AccountMissing(p.status))
  {
    hide Coupled, IsNext, AllCoupled, PrepareIssuer, SeedDone, AccountSeedStage, SeedNameFree, StoreJWT;
    SeedStageSucceeds(c, a, x);
  }

  lemma SeedStoreKeepsBoot(c: Cluster, o: Key, a: Key, p: Plan, x: AccountOracle)
    requires Boot(c, o, a) && Coupled(AccAfter(c, a, p)) && AccountSeedStage(c, a, x).SeedReady?
    requires p.store == AccountSeedStage(c, a, x).store && p.labels == c.accounts[a].labels
    ensures var c' := AccAfter(c, a, p);
            Boot(c', o, a) && OperatorSide(c, c', o) && SeedDone(c', a)
  {
    hide Coupled, SeedStage, Mutual, Admits, OpSeedFree, OpJwtFree, BuildSeedSecret;
    var c' := AccAfter(c, a, p);
    SeedStageMeaning(c.secrets, OwnerOf(a, c.accounts[a]), c.accounts[a].spec.seedSecretName, PrefixAccount, true, x.seed);
    assert SeedDone(c', a) && JwtNameFree(c', a);
    SeedDoneIsFree(c', a);
    hide SeedDone, SeedBuilt, SeedNameFree, JwtNameFree, SetController;
    BootKeptByAccount(c, o, a, p);
    OperatorSideKept(c, o, a, p);
    hide Boot, OpPairRight, OpKeysRight, OpJwtRight;
  }

  lemma SeedCloses(c: Cluster, o: Key, a: Key, x: AccountOracle)
    requires Boot(c, o, a) && AccountSucceeds(c, a, x) && AccountFinalizer in c.accounts[a].finalizers && !SeedDone(c, a)
    requires Coupled(AccAfter(c, a, AccPlan(c, a, x)))
    ensures var c' := AccAfter(c, a, AccPlan(c, a, x));
            Boot(c', o, a) && BootRank(c', o, a) < BootRank(c, o, a) && Advances(c, c', o, a)
  {
    hide AccountSucceeds, Coupled, OperatorSide, BootRank, SeedDone, Issue, AccountSeedStage, Finalize;
    hide Admits, FourNames, OpSeedFree, OpJwtFree, SeedNameFree, JwtNameFree, AccountStatus.Coupled, AccountStatus.Ready;
    hide AccIdle, AccPair, Misread, LabelOf, Issuing;
    SeedPlan(c, a, c.accounts[a].status.InitializeConditions(), x);
    SeedStoreKeepsBoot(c, o, a, AccPlan(c, a, x), x);
    EarlyCloses(c, AccAfter(c, a, AccPlan(c, a, x)), o, a);
  }

  /******* The label *******/

  lemma LabelPlan(c: Cluster, o: Key, a: Key, s: AccountStatus, x: AccountOracle)
    requires Boot(c, o, a) && AccountSucceeds(c, a, x) && SeedDone(c, a) && Issuing(c, a).Ok? && !LabelRight(c, o, a)
    ensures var p := Issue(c, a, s, x);
            && p.store == c.secrets && p.finalizers == c.accounts[a].finalizers
            && p.labels == c.accounts[a].labels[LabelOperatorName := o.name]
            && p.status == (if x.refreshes then c.accounts[a].status else Resolved(c, o, a, s))
  {
    hide Coupled, IsNext, AllCoupled, PrepareSeed, SeedDone, Issuing, Boot, LoadAccountIssuerSeed, StoreJWT, PrepareKeys, Resolved;
    PreparePlan(c, o, a, s, x);
  }

  // Whether the issuer is marked right depends on its entry alone.
  lemma IssuerRightByEntry(c: Cluster, c': Cluster, a: Key)
    requires a in c.accounts && a in c'.accounts && Issuing(c', a) == Issuing(c, a)
    requires Issuing(c, a).Ok? ==>
               LoadAccountIssuerSeed(c', Issuing(c, a).value, true) == LoadAccountIssuerSeed(c, Issuing(c, a).value, true)
    requires c'.accounts[a].status.issuer == c.accounts[a].status.issuer
    ensures IssuerRight(c', a) <==> IssuerRight(c, a)
  {
    hide ResolveIssuer, LoadAccountIssuerSeed, Verdict;
  }

  predicate SameIssuing(c: Cluster, c': Cluster, a: Key)
    requires a in c.accounts && a in c'.accounts
  {
    && Issuing(c', a) == Issuing(c, a)
    && (Issuing(c, a).Ok? ==>
          LoadAccountIssuerSeed(c', Issuing(c, a).value, true) == LoadAccountIssuerSeed(c, Issuing(c, a).value, true))
  }

  lemma LabelStatus(c: Cluster, c': Cluster, o: Key, a: Key)
    requires a in c.accounts && a in c'.accounts && SeedDone(c, a) && SeedDone(c', a) && AccPair(c', a) == AccPair(c, a)
    requires SameIssuing(c, c', a)
    requires c'.accounts[a].status == Resolved(c, o, a, c.accounts[a].status.InitializeConditions())
    ensures !AccountMissing(c'.accounts[a].status) && AccPairRight(c', a) && OperatorRight(c', o, a)
    ensures !AccountMissing(c.accounts[a].status) ==> (IssuerRight(c', a) <==> IssuerRight(c, a))
    ensures !AccountMissing(c.accounts[a].status) && AccPairRight(c, a) ==> SamePair(c, c', a)
  {
    hide SeedDone, AccPair;
    if !AccountMissing(c.accounts[a].status) { IssuerRightByEntry(c, c', a); }
    hide IssuerRight, SameIssuing, Issuing;
  }

  // The label was written and the status left alone,
  lemma LabelOnlyCloses(c: Cluster, c': Cluster, o: Key, a: Key)
    requires Boot(c, o, a) && Boot(c', o, a) && OperatorSide(c, c', o)
    requires c'.accounts[a].status == c.accounts[a].status && c'.accounts[a].finalizers == c.accounts[a].finalizers
    requires SeedDone(c, a) && SeedDone(c', a) && AccPair(c', a) == AccPair(c, a)
    requires (Misread(c', o, a) <==> Misread(c, o, a)) && (IssuerRight(c', a) <==> IssuerRight(c, a))
    requires !LabelRight(c, o, a) && LabelRight(c', o, a)
    ensures BootRank(c', o, a) < BootRank(c, o, a)
  {
    hide Coupled, OperatorMissing, AccountMissing, OpSeedDone, SeedDone, AccPair, OpPairRight, SystemRight, OpKeysRight;
    hide OpJwtRight, OpJwtUp, Misread, IssuerRight, LabelRight, KeysRight, AccJwtRight, AccJwtUp, Value;
    hide Admits, FourNames, OpSeedFree, OpJwtFree, SeedNameFree, JwtNameFree;
    SystemKept(c, c', o, a);
    OpJwtUpKept(c, c', o);
    hide Boot;
    ClearingLowers(Open(c, o, a), Open(c', o, a), 14);
  }

  // or the status was marked too.
  lemma LabelAndStatusClose(c: Cluster, c': Cluster, o: Key, a: Key)
    requires Boot(c, o, a) && Boot(c', o, a) && OperatorSide(c, c', o)
    requires AccountFinalizer in c'.accounts[a].finalizers && SeedDone(c', a) && AccPairRight(c', a) && !AccountMissing(c'.accounts[a].status)
    requires !AccountMissing(c.accounts[a].status) && AccPairRight(c, a) ==> SamePair(c, c', a)
    requires !AccountMissing(c.accounts[a].status) ==> (IssuerRight(c', a) <==> IssuerRight(c, a))
    requires (Misread(c', o, a) <==> Misread(c, o, a)) && OperatorRight(c', o, a)
    requires !LabelRight(c, o, a) && LabelRight(c', o, a)
    ensures BootRank(c', o, a) < BootRank(c, o, a)
  {
    hide Coupled, OperatorMissing, AccountMissing, OpSeedDone, SeedDone, OpPairRight, AccPairRight, SystemRight, OpKeysRight;
    hide OpJwtRight, OpJwtUp, Misread, IssuerRight, OperatorRight, LabelRight, KeysRight, AccJwtRight, AccJwtUp, Value, Issuing, LoadAccountIssuerSeed;
    if AccountMissing(c.accounts[a].status) {
      EarlyCloses(c, c', o, a);
    } else if !AccPairRight(c, a) {
      KnownCloses(c, c', o, a);
    } else {
      FirstPartsKept(c, c', o, a);
      hide Boot, SamePair, OperatorSide;
      ClearingLowers(Open(c, o, a), Open(c', o, a), if OperatorRight(c, o, a) then 14 else 13);
    }
  }

  lemma LabelCloses(c: Cluster, o: Key, a: Key, x: AccountOracle)
    requires Boot(c, o, a) && AccountSucceeds(c, a, x) && AccountFinalizer in c.accounts[a].finalizers && SeedDone(c, a)
    requires Issuing(c, a).Ok? && !LabelRight(c, o, a)
    requires Coupled(AccAfter(c, a, AccPlan(c, a, x)))
    ensures var c' := AccAfter(c, a, AccPlan(c, a, x));
            Boot(c', o, a) && BootRank(c', o, a) < BootRank(c, o, a) && Advances(c, c', o, a)
  {
    hide AccountSucceeds, Coupled, OperatorSide, BootRank, SeedDone, Issue, AccPair, Finalize, LoadAccountIssuerSeed, AccJwtRight, Issuing;
    hide Admits, FourNames, OpSeedFree, OpJwtFree, SeedNameFree, JwtNameFree, AccountStatus.Coupled, AccountStatus.Ready;
    hide Resolved;
    var s, p := c.accounts[a].status.InitializeConditions(), AccPlan(c, a, x);
    LabelPlan(c, o, a, s, x);
    var c' := AccAfter(c, a, p);
    ObjectStepKeepsBoot(c, o, a, p);
    hide Misread, AccIdle;
    if x.refreshes {
      IssuerRightByEntry(c, c', a);
      hide Boot, AccountMissing, AccPlan, IssuerRight, OperatorRight;
      LabelOnlyCloses(c, c', o, a);
    } else {
      LabelStatus(c, c', o, a);
      hide Boot, AccountMissing, AccPlan, IssuerRight, OperatorRight, AccPairRight;
      LabelAndStatusClose(c, c', o, a);
    }
  }

  /******* The last step *******/

  predicate Loads(c: Cluster, a: Key)
    requires a in c.accounts
  {
    Issuing(c, a).Ok? && LoadAccountIssuerSeed(c, Issuing(c, a).value, true).Ok?
  }

  // The status that a reconcile aims at, but for the push.
  function AccGoal(c: Cluster, o: Key, a: Key, s: AccountStatus, keys: seq<SigningKeyEntry>): AccountStatus
    requires a in c.accounts && SeedDone(c, a)
  {
    if Issuing(c, a).Fail? then IssuerMark(s.MarkSeedSecretReady(AccPair(c, a)), c, a)
    else
      var g := IssuerMark(Resolved(c, o, a, s).MarkSigningKeysUpdated(keys), c, a);
      if Loads(c, a) then g.MarkJWTSecretReady() else g
  }

  // Marking the issuer changes its entry only, and always to the same.
  lemma IssuerMarkIsEntry(c: Cluster, a: Key, s: AccountStatus, t: AccountStatus)
    requires a in c.accounts
    ensures IssuerMark(s, c, a) == s.(issuer := IssuerMark(t, c, a).issuer)
    ensures !IssuerMark(s, c, a).issuer.Missing?
  {
    hide ResolveIssuer, LoadAccountIssuerSeed, Verdict;
  }

  lemma SameIssuingMarks(c: Cluster, c': Cluster, a: Key, s: AccountStatus)
    requires a in c.accounts && a in c'.accounts && SameIssuing(c, c', a)
    ensures IssuerMark(s, c', a) == IssuerMark(s, c, a)
  {
    hide ResolveIssuer, LoadAccountIssuerSeed, Verdict;
  }

  lemma GoalParts(c: Cluster, c': Cluster, o: Key, a: Key, s: AccountStatus, keys: seq<SigningKeyEntry>)
    requires a in c.accounts && a in c'.accounts && SeedDone(c, a) && SeedDone(c', a) && AccPair(c', a) == AccPair(c, a)
    requires SameIssuing(c, c', a) && !AccountMissing(s)
    requires var g := AccGoal(c, o, a, s, keys); var t := c'.accounts[a].status;
             !t.pushed.Missing? && t == g.(pushed := t.pushed)
    ensures var t := c'.accounts[a].status;
            && !AccountMissing(t) && AccPairRight(c', a) && IssuerRight(c', a)
            && (Issuing(c, a).Ok? ==> OperatorRight(c', o, a) && t == t.MarkSigningKeysUpdated(keys))
            && (Loads(c, a) ==> AccJwtUp(c', a))
  {
    var t := c'.accounts[a].status;
    IssuerMarkIsEntry(c, a, s.MarkSeedSecretReady(AccPair(c, a)), t);
    IssuerMarkIsEntry(c, a, Resolved(c, o, a, s).MarkSigningKeysUpdated(keys), t);
    SameIssuingMarks(c, c', a, t);
    IssuerMarkIsEntry(c, a, t, t);
    hide IssuerMark, SeedDone, AccPair, Issuing, Loads, SameIssuing;
  }

  // The goal is where an idle Account already is.
  lemma GoalOfIdle(c: Cluster, o: Key, a: Key, keys: seq<SigningKeyEntry>)
    requires Coupled(c) && o in c.operators && a in c.accounts && SeedDone(c, a) && AccIdle(c, o, a)
    requires Issuing(c, a).Ok? ==> keys == c.accounts[a].status.signingKeys
    ensures AccGoal(c, o, a, c.accounts[a].status, keys) == c.accounts[a].status
    ensures c.accounts[a].status.InitializeConditions() == c.accounts[a].status
  {
    var s := c.accounts[a].status;
    IssuerMarkIsEntry(c, a, s.MarkSeedSecretReady(AccPair(c, a)), s);
    IssuerMarkIsEntry(c, a, Resolved(c, o, a, s).MarkSigningKeysUpdated(keys), s);
    hide IssuerMark, SeedDone, AccPair, Issuing, LoadAccountIssuerSeed, IsNext, AllCoupled, AccJwtRight, LabelRight, Coupled;
  }

  // The state is the same but for what is said of the push.
  predicate SameButPush(c: Cluster, c': Cluster, a: Key) {
    && a in c.accounts && a in c'.accounts
    && (c'.accounts[a].status.pushed.Missing? ==> c.accounts[a].status.pushed.Missing?)
    && c' == c.(accounts := c.accounts[a := c.accounts[a].(status := c.accounts[a].status.(pushed := c'.accounts[a].status.pushed))])
  }

  // What the last step plans.
  predicate EndsAt(c: Cluster, o: Key, a: Key, s: AccountStatus, p: Plan, keys: seq<SigningKeyEntry>)
    requires a in c.accounts && SeedDone(c, a)
  {
    && p.labels == c.accounts[a].labels && p.finalizers == c.accounts[a].finalizers
    && p.status == AccGoal(c, o, a, s, keys).(pushed := p.status.pushed)
    && (!s.pushed.Missing? ==> !p.status.pushed.Missing?)
  }

  lemma BlockedPlan(c: Cluster, o: Key, a: Key, s: AccountStatus, x: AccountOracle)
    requires Boot(c, o, a) && AccountSucceeds(c, a, x) && SeedDone(c, a) && !Loads(c, a)
    requires Issuing(c, a).Ok? ==> LabelRight(c, o, a)
    ensures EndsAt(c, o, a, s, Issue(c, a, s, x), x.keys) && Issue(c, a, s, x).store == c.secrets
  {
    PreparePlan(c, o, a, s, x);
    hide Coupled, IsNext, AllCoupled, PrepareSeed, SeedDone, Boot, LoadAccountIssuerSeed, StoreJWT, ResolveIssuer, Verdict, AsResult;
  }

  function Signer(c: Cluster, a: Key): Seed
    requires a in c.accounts && Loads(c, a)
  {
    LoadAccountIssuerSeed(c, Issuing(c, a).value, true).value
  }

  // The signer is the seed that the Operator's status names and publishes.
  lemma SignerIsPublished(c: Cluster, o: Key, a: Key)
    requires Boot(c, o, a) && Loads(c, a)
    ensures c.operators[o].status.keyPair.Some? && PublicKey(Signer(c, a)) == c.operators[o].status.keyPair.value.publicKey
    ensures HoldsSeed(c.secrets, NamedSeed(c, o).value, Signer(c, a))
  {
    IssuerIsOperator(c, o, a);
    hide Coupled, Mutual, Admits, FourNames, OpSeedFree, OpJwtFree, SeedNameFree, JwtNameFree, ResolveIssuer;
  }

  function StatusToSign(c: Cluster, o: Key, a: Key, s: AccountStatus, keys: seq<SigningKeyEntry>): AccountStatus
    requires a in c.accounts && SeedDone(c, a)
  {
    Resolved(c, o, a, s).MarkSigningKeysUpdated(keys).MarkIssuerResolved()
  }

  function LastWant(c: Cluster, o: Key, a: Key, s: AccountStatus, x: AccountOracle): Claims
    requires a in c.accounts && SeedDone(c, a) && Loads(c, a)
  {
    WantedClaims(c, a, StatusToSign(c, o, a, s, x.keys), Signer(c, a), x)
  }

  lemma LastPlan(c: Cluster, o: Key, a: Key, s: AccountStatus, x: AccountOracle)
    requires Boot(c, o, a) && AccountSucceeds(c, a, x) && SeedDone(c, a) && Loads(c, a) && LabelRight(c, o, a)
    ensures EndsAt(c, o, a, s, Issue(c, a, s, x), x.keys)
    ensures Issue(c, a, s, x).store == AccountJwtStage(c, a, LastWant(c, o, a, s, x), x).store
  {
    PreparePlan(c, o, a, s, x);
    JwtStageSucceeds(c, a, LastWant(c, o, a, s, x), x);
    LastStatus(c, o, a, s, x);
    hide Coupled, IsNext, AllCoupled, PrepareSeed, SeedDone, Boot, LoadAccountIssuerSeed, ResolveIssuer, AccountJwtStage, Resolved, AccGoal;
    hide WantedClaims, AccountStatus.Coupled, AccountStatus.Ready;
    LastStore(c, a, StatusToSign(c, o, a, s, x.keys), Signer(c, a), x);
    hide StoreJWT;
  }

  lemma LastStatus(c: Cluster, o: Key, a: Key, s: AccountStatus, x: AccountOracle)
    requires a in c.accounts && SeedDone(c, a) && Loads(c, a)
    ensures AccGoal(c, o, a, s, x.keys) == StatusToSign(c, o, a, s, x.keys).MarkJWTSecretReady()
    ensures StatusToSign(c, o, a, s, x.keys).pushed == s.pushed
  {
    hide ResolveIssuer, LoadAccountIssuerSeed, SeedDone, AccPair, AccountStatus.Coupled, AccountStatus.Ready;
  }

  lemma LastStore(c: Cluster, a: Key, s: AccountStatus, seed: Seed, x: AccountOracle)
    requires a in c.accounts && x.encodeOk && AccountJwtStage(c, a, WantedClaims(c, a, s, seed, x), x).result.Ok?
    ensures var p := StoreJWT(c, a, s, seed, x);
            && p.store == AccountJwtStage(c, a, WantedClaims(c, a, s, seed, x), x).store
            && p.labels == c.accounts[a].labels && p.finalizers == c.accounts[a].finalizers
            && p.status == s.MarkJWTSecretReady().(pushed := p.status.pushed)
            && (!s.pushed.Missing? ==> !p.status.pushed.Missing?)
  {
    hide WantedClaims, JwtStage, AccountStatus.Coupled, AccountStatus.Ready;
    var want := WantedClaims(c, a, s, seed, x);
    JwtStageMeaning(c.secrets, OwnerOf(a, c.accounts[a]), c.accounts[a].spec.jwtSecretName, want, x.jwt);
  }

  lemma LastWantIsDue(c: Cluster, o: Key, a: Key, s: AccountStatus, x: AccountOracle)
    requires Boot(c, o, a) && AccountSucceeds(c, a, x) && SeedDone(c, a) && Loads(c, a)
    ensures c.operators[o].status.keyPair.Some? && Blanked(LastWant(c, o, a, s, x)) == BootClaims(c, o, a)
  {
    hide Coupled, Mutual, Admits, FourNames, OpSeedFree, OpJwtFree, SeedNameFree, JwtNameFree, Loads, Signer;
    hide SeedBuilt, KeySet, PublicKeysOf, IsNext, Candidates, AccountStatus.Coupled, AccountStatus.Ready;
    SignerIsPublished(c, o, a);
    KeysAreDue(c, a, x.(push := PushSucceeds));
  }

  lemma OthersKept(c: Cluster, a: Key, want: Claims, x: AccountOracle, q: Key)
    requires a in c.accounts && q != Accounts.JwtKey(c, a)
    ensures SameAt(c.secrets, AccountJwtStage(c, a, want, x).store, q)
  {
  }

  // What the last step keeps for the others and for itself.
  ghost predicate Carries(c: Cluster, c': Cluster, o: Key, a: Key)
    requires Coupled(c) && o in c.operators && a in c.accounts && SeedDone(c, a)
  {
    && Boot(c', o, a) && OperatorSide(c, c', o)
    && SeedDone(c', a) && AccPair(c', a) == AccPair(c, a)
  }

  lemma JwtStoreCarries(c: Cluster, o: Key, a: Key, want: Claims, p: Plan, x: AccountOracle)
    requires Boot(c, o, a) && AccountSucceeds(c, a, x) && SeedDone(c, a) && Coupled(AccAfter(c, a, p))
    requires p.labels == c.accounts[a].labels && p.store == AccountJwtStage(c, a, want, x).store
    ensures Carries(c, AccAfter(c, a, p), o, a)
  {
    var c' := AccAfter(c, a, p);
    hide Coupled, AccountJwtStage, Mutual, Admits, OpSeedFree, OpJwtFree, BuildSeedSecret, SetController, IsNext, AllCoupled;
    OthersKept(c, a, want, x, OpSeedKey(c, o));
    OthersKept(c, a, want, x, OpJwtKey(c, o));
    OthersKept(c, a, want, x, Accounts.SeedSecretKey(c, a));
    JwtStageSucceeds(c, a, want, x);
    assert SeedDone(c', a) && AccPair(c', a) == AccPair(c, a) && JwtNameFree(c', a);
    SeedDoneIsFree(c', a);
    hide SeedDone, AccPair, SeedNameFree, JwtNameFree;
    BootKeptByAccount(c, o, a, p);
    OperatorSideKept(c, o, a, p);
    hide Boot, OpPairRight, OpKeysRight, OpJwtRight, OpSeedDone;
  }

  // The issuer reads as before unless its named seed was in the secret just written.
  lemma JwtStoreIssuing(c: Cluster, o: Key, a: Key, want: Claims, p: Plan, x: AccountOracle)
    requires Boot(c, o, a) && AccountSucceeds(c, a, x) && Loads(c, a)
    requires p.store == AccountJwtStage(c, a, want, x).store
    ensures var c' := AccAfter(c, a, p);
            && (!Misread(c, o, a) || p.store == c.secrets ==> SameIssuing(c, c', a))
            && (p.store == c.secrets || !Misread(c', o, a))
  {
    SignerIsPublished(c, o, a);
    JwtStageSucceeds(c, a, want, x);
    hide Coupled, JwtStage, Mutual, Admits, OpSeedFree, OpJwtFree, SeedNameFree, JwtNameFree, IsNext, AllCoupled, Issuing, LoadAccountIssuerSeed;
    JwtStageMeaning(c.secrets, OwnerOf(a, c.accounts[a]), c.accounts[a].spec.jwtSecretName, want, x.jwt);
    if !Misread(c, o, a) { OthersKept(c, a, want, x, NamedSeed(c, o).value); }
    if !Misread(c, o, a) || p.store == c.secrets { IssuingKept(c, o, a, p); }
  }

  lemma JwtSucceedsFor(c: Cluster, a: Key, want: Claims, x: AccountOracle)
    requires a in c.accounts && JwtNameFree(c, a) && AccountSucceeds(c, a, x)
    ensures AccountJwtStage(c, a, want, x).result.Ok?
  {
    hide AccountJwtStage, JwtNameFree, IsNext, AllCoupled, Candidates;
    JwtStageSucceeds(c, a, want, x);
  }

  lemma ClaimsKept(c: Cluster, o: Key, a: Key, p: Plan)
    requires Coupled(c) && o in c.operators && a in c.accounts && c.operators[o].status.keyPair.Some? && Coupled(AccAfter(c, a, p))
    requires SeedDone(c, a) && SameAt(c.secrets, p.store, Accounts.SeedSecretKey(c, a))
    ensures SeedDone(AccAfter(c, a, p), a) && BootClaims(AccAfter(c, a, p), o, a) == BootClaims(c, o, a)
  {
    hide Coupled, BuildSeedSecret, FreshKeys;
    CandidatesCoupled(c, a);
    CandidatesCoupled(AccAfter(c, a, p), a);
    assert Candidates(AccAfter(c, a, p), a) == Candidates(c, a);
    hide Candidates;
  }

  lemma JwtStoreIsRight(c: Cluster, o: Key, a: Key, s: AccountStatus, p: Plan, x: AccountOracle)
    requires Boot(c, o, a) && AccountSucceeds(c, a, x) && SeedDone(c, a) && Loads(c, a) && Coupled(AccAfter(c, a, p))
    requires p.store == AccountJwtStage(c, a, LastWant(c, o, a, s, x), x).store
    ensures AccJwtRight(AccAfter(c, a, p), o, a)
    ensures AccJwtRight(c, o, a) ==> p.store == c.secrets
  {
    hide Coupled, Mutual, Admits, OpSeedFree, OpJwtFree, BuildSeedSecret, SetController, IsNext, AllCoupled, LastWant, JwtStage, Loads;
    hide KeySet, Candidates, SeedNameFree, JwtNameFree, AccountSucceeds;
    var c', want := AccAfter(c, a, p), LastWant(c, o, a, s, x);
    LastWantIsDue(c, o, a, s, x);
    JwtSucceedsFor(c, a, want, x);
    JwtStageMeaning(c.secrets, OwnerOf(a, c.accounts[a]), c.accounts[a].spec.jwtSecretName, want, x.jwt);
    OthersKept(c, a, want, x, Accounts.SeedSecretKey(c, a));
    assert BootClaims(c', o, a) == BootClaims(c, o, a) by { ClaimsKept(c, o, a, p); }
    StoresDue(c'.secrets[Accounts.JwtKey(c, a)], want, BootClaims(c, o, a));
  }

  // However far it gets, the last step leaves the Account idle.
  lemma LastIsIdle(c: Cluster, o: Key, a: Key, s: AccountStatus, p: Plan, x: AccountOracle)
    requires Boot(c, o, a) && AccountSucceeds(c, a, x) && SeedDone(c, a) && !AccountMissing(s)
    requires AccountFinalizer in c.accounts[a].finalizers && (Issuing(c, a).Ok? ==> LabelRight(c, o, a))
    requires EndsAt(c, o, a, s, p, x.keys) && Coupled(AccAfter(c, a, p)) && Carries(c, AccAfter(c, a, p), o, a)
    requires SameIssuing(c, AccAfter(c, a, p), a)
    requires Loads(c, a) ==> AccJwtRight(AccAfter(c, a, p), o, a)
    ensures AccIdle(AccAfter(c, a, p), o, a)
  {
    var c' := AccAfter(c, a, p);
    hide Boot, Coupled, AccGoal, SeedDone, AccPair, AccJwtRight, OperatorSide, IsNext, AllCoupled, Issuing, LoadAccountIssuerSeed;
    GoalParts(c, c', o, a, s, x.keys);
    hide AccPairRight, IssuerRight, OperatorRight, AccJwtUp, AccountMissing;
    SettledByMerge(c, a, x.(push := PushSucceeds));
    assert Candidates(c', a) == Candidates(c, a);
  }

  lemma LastCarries(c: Cluster, o: Key, a: Key, s: AccountStatus, x: AccountOracle)
    requires Boot(c, o, a) && AccountSucceeds(c, a, x) && SeedDone(c, a) && (Issuing(c, a).Ok? ==> LabelRight(c, o, a))
    requires Coupled(AccAfter(c, a, Issue(c, a, s, x)))
    ensures var p := Issue(c, a, s, x); var c' := AccAfter(c, a, p);
            && EndsAt(c, o, a, s, p, x.keys) && Carries(c, c', o, a)
            && (Loads(c, a) ==> AccJwtRight(c', o, a))
            && ((Loads(c, a) ==> AccJwtRight(c, o, a)) ==> p.store == c.secrets)
            && (!Misread(c, o, a) || p.store == c.secrets ==> SameIssuing(c, c', a))
            && (p.store != c.secrets ==> !Misread(c', o, a))
            && (Misread(c', o, a) ==> Misread(c, o, a))
  {
    hide Misread, SameIssuing, Coupled, Mutual, Admits, FourNames, OpSeedFree, OpJwtFree, SeedNameFree, JwtNameFree, AccountSucceeds;
    hide SeedDone, AccPair, Issue, AccGoal, AccJwtRight, AccountJwtStage, Issuing, LoadAccountIssuerSeed, LabelRight, OperatorSide, LastWant;
    var p := Issue(c, a, s, x);
    if Loads(c, a) {
      LastPlan(c, o, a, s, x);
      JwtStoreCarries(c, o, a, LastWant(c, o, a, s, x), p, x);
      JwtStoreIsRight(c, o, a, s, p, x);
      JwtStoreIssuing(c, o, a, LastWant(c, o, a, s, x), p, x);
    } else {
      BlockedPlan(c, o, a, s, x);
      ObjectStepKeepsBoot(c, o, a, p);
      SameIssuingByParts(c, AccAfter(c, a, p), a);
    }
    if p.store == c.secrets { MisreadBySecrets(c, o, a, p); }
  }

  lemma SameIssuingByParts(c: Cluster, c': Cluster, a: Key)
    requires a in c.accounts && a in c'.accounts && Issuing(c', a) == Issuing(c, a)
    requires Issuing(c, a).Ok? ==>
               LoadAccountIssuerSeed(c', Issuing(c, a).value, true) == LoadAccountIssuerSeed(c, Issuing(c, a).value, true)
    ensures SameIssuing(c, c', a)
  {
  }

  lemma MisreadBySecrets(c: Cluster, o: Key, a: Key, p: Plan)
    requires o in c.operators && a in c.accounts && p.store == c.secrets
    ensures Misread(AccAfter(c, a, p), o, a) <==> Misread(c, o, a)
  {
  }

  // The secret that was taken for the Operator's seed is overwritten.
  lemma MisreadCloses(c: Cluster, c': Cluster, o: Key, a: Key)
    requires Boot(c, o, a) && Boot(c', o, a) && OperatorSide(c, c', o)
    requires AccountFinalizer in c'.accounts[a].finalizers && SeedDone(c', a) && Known(c', a)
    requires AccPairRight(c, a) ==> SamePair(c, c', a)
    requires Misread(c, o, a) && !Misread(c', o, a)
    ensures BootRank(c', o, a) < BootRank(c, o, a)
  {
    hide Coupled, OperatorMissing, AccountMissing, OpSeedDone, SeedDone, OpPairRight, AccPairRight, SystemRight, OpKeysRight;
    hide OpJwtRight, OpJwtUp, Misread, IssuerRight, OperatorRight, LabelRight, KeysRight, AccJwtRight, AccJwtUp, Value, Issuing, LoadAccountIssuerSeed;
    if AccountMissing(c.accounts[a].status) || !AccPairRight(c, a) {
      KnownCloses(c, c', o, a);
    } else {
      FirstPartsKept(c, c', o, a);
      hide Boot, SamePair, OperatorSide;
      ClearingLowers(Open(c, o, a), Open(c', o, a), 11);
    }
  }

  // Whatever its issuer says, the goal knows the key pair.
  lemma GoalIsKnown(c: Cluster, o: Key, a: Key, s: AccountStatus, keys: seq<SigningKeyEntry>, c': Cluster)
    requires a in c.accounts && a in c'.accounts && SeedDone(c, a) && SeedDone(c', a) && AccPair(c', a) == AccPair(c, a) && !AccountMissing(s)
    requires var t := c'.accounts[a].status; !t.pushed.Missing? && t == AccGoal(c, o, a, s, keys).(pushed := t.pushed)
    ensures Known(c', a) && (AccPairRight(c, a) ==> SamePair(c, c', a))
  {
    IssuerMarkIsEntry(c, a, s.MarkSeedSecretReady(AccPair(c, a)), s);
    IssuerMarkIsEntry(c, a, Resolved(c, o, a, s).MarkSigningKeysUpdated(keys), s);
    hide IssuerMark, SeedDone, AccPair, Issuing, Loads;
  }

  lemma LivePlan(c: Cluster, a: Key, x: AccountOracle)
    requires Coupled(c) && a in c.accounts && !c.accounts[a].deleting && AccountFinalizer in c.accounts[a].finalizers
    ensures var s := c.accounts[a].status.InitializeConditions();
            AccPlan(c, a, x) == Issue(c, a, s, x) && !AccountMissing(s) && !s.pushed.Missing?
  {
    hide Coupled, Issue, Finalize, AccountStatus.Coupled, AccountStatus.Ready;
  }

  lemma LastCloses(c: Cluster, o: Key, a: Key, x: AccountOracle)
    requires Boot(c, o, a) && AccountSucceeds(c, a, x) && SeedDone(c, a) && AccountFinalizer in c.accounts[a].finalizers
    requires Issuing(c, a).Ok? ==> LabelRight(c, o, a)
    requires Coupled(AccAfter(c, a, AccPlan(c, a, x)))
    ensures var c' := AccAfter(c, a, AccPlan(c, a, x));
            && Boot(c', o, a) && Advances(c, c', o, a)
            && (if AccIdle(c, o, a) then SameButPush(c, c', a) else BootRank(c', o, a) < BootRank(c, o, a))
  {
    var s, p := c.accounts[a].status.InitializeConditions(), AccPlan(c, a, x);
    hide Coupled, Admits, FourNames, OpSeedFree, OpJwtFree, SeedNameFree, JwtNameFree, AccountSucceeds, Finalize;
    hide SeedDone, AccPair, Issue, AccGoal, AccJwtRight, Issuing, LoadAccountIssuerSeed, LabelOf, OperatorSide, BootRank;
    hide AccountStatus.Coupled, AccountStatus.Ready, AccIdle, SameIssuing, Misread, AccPlan, AccountMissing;
    LivePlan(c, a, x);
    LastCarries(c, o, a, s, x);
    var c' := AccAfter(c, a, p);
    GoalIsKnown(c, o, a, s, x.keys, c');
    if SameIssuing(c, c', a) { LastIsIdle(c, o, a, s, p, x); }
    if AccIdle(c, o, a) {
      LastOfIdle(c, o, a, p, x);
    } else {
      LastLowers(c, c', o, a);
    }
  }

  lemma LastLowers(c: Cluster, c': Cluster, o: Key, a: Key)
    requires Boot(c, o, a) && Boot(c', o, a) && OperatorSide(c, c', o)
    requires AccountFinalizer in c.accounts[a].finalizers && c'.accounts[a].finalizers == c.accounts[a].finalizers
    requires SeedDone(c, a) && SeedDone(c', a) && Known(c', a) && (AccPairRight(c, a) ==> SamePair(c, c', a))
    requires (Misread(c', o, a) ==> Misread(c, o, a)) && !AccIdle(c, o, a)
    requires if SameIssuing(c, c', a) then AccIdle(c', o, a) else Misread(c, o, a) && !Misread(c', o, a)
    ensures BootRank(c', o, a) < BootRank(c, o, a)
  {
    hide Coupled, Mutual, Admits, FourNames, OpSeedFree, OpJwtFree, SeedNameFree, JwtNameFree;
    hide AccIdle, OperatorSide, SeedDone, Known, Misread, BootRank, Issuing, LoadAccountIssuerSeed, AccPairRight, SamePair;
    if SameIssuing(c, c', a) {
      AccCloses(c, c', o, a);
    } else {
      MisreadCloses(c, c', o, a);
    }
  }

  lemma LastOfIdle(c: Cluster, o: Key, a: Key, p: Plan, x: AccountOracle)
    requires Boot(c, o, a) && AccountSucceeds(c, a, x) && SeedDone(c, a) && AccIdle(c, o, a)
    requires EndsAt(c, o, a, c.accounts[a].status.InitializeConditions(), p, x.keys)
    requires (Loads(c, a) ==> AccJwtRight(c, o, a)) ==> p.store == c.secrets
    ensures SameButPush(c, AccAfter(c, a, p), a)
  {
    if Issuing(c, a).Ok? { SettledByMerge(c, a, x.(push := PushSucceeds)); }
    hide Coupled, AccountSucceeds, Boot, AccGoal, SeedDone, AccJwtRight, IsNext, AllCoupled, Issuing, LoadAccountIssuerSeed;
    GoalOfIdle(c, o, a, x.keys);
  }

  // A step of the Account lowers the rank, or there is nothing for it to do and only the push differs.
  lemma AccountStepLowers(c: Cluster, o: Key, a: Key, x: AccountOracle)
    requires Boot(c, o, a) && AccountSucceeds(c, a, x)
    ensures var c' := Reconcile(c, a, x).c;
            && Boot(c', o, a) && Advances(c, c', o, a)
            && (if AccIdle(c, o, a) then SameButPush(c, c', a) else BootRank(c', o, a) < BootRank(c, o, a))
  {
    hide Coupled, Admits, FourNames, OpSeedFree, OpJwtFree, SeedNameFree, JwtNameFree, AccountSucceeds, BootRank, AccPlan, Reconcile, Advances;
    hide SeedDone, Issuing, LabelRight, AccPairRight, IssuerRight, OperatorRight, KeysRight, LoadAccountIssuerSeed, AccJwtRight, AccJwtUp;
    AccShape(c, a, x);
    if AccountFinalizer !in c.accounts[a].finalizers {
      FinalizerCloses(c, o, a, x);
    } else if !SeedDone(c, a) {
      SeedCloses(c, o, a, x);
    } else if Issuing(c, a).Ok? && !LabelRight(c, o, a) {
      LabelCloses(c, o, a, x);
    } else {
      LastCloses(c, o, a, x);
    }
  }
}
