/**
 Each way an Account's reconcile can end: why, what is recorded, and whether it is retried.
 */
module AccountOutcomes {
  import opened Texts
  import opened Conditions
  import opened Lifecycles
  import opened Errors
  import opened Secrets
  import opened ClusterState
  import opened SecretStages
  import opened AccountController
  import opened AccountTheorems

  // What is returned is what the error's wrappers say.
  predicate FailsAs(p: Plan, e: Err) { p.result == AsResult(e).0 && p.error == AsResult(e).1 }

  predicate Requeues(p: Plan) { p.result == Requeue && p.error == None }

  /******* Ends of the preparation *******/

  predicate Listable(c: Cluster, k: Key, x: AccountOracle)
    requires k in c.accounts
  {
    x.listOk && c.accounts[k].spec.signingKeysSelector != Some(Unparsable)
  }

  // The ends after the Operator was found and recorded in s.
  predicate EndsPastOperator(c: Cluster, k: Key, s: AccountStatus, issuer: KeyPairable, name: string, x: AccountOracle, p: Plan)
    requires k in c.accounts
  {
    match p.exit
    case LabelWritten =>
      && Requeues(p) && p.labels == c.accounts[k].labels[LabelOperatorName := name] && x.updateOk
      && p.status == if x.refreshes then c.accounts[k].status else s
    case LabelNotWritten => p.error.Some? && p.status == s && !x.updateOk
    case KeysFailure => p.error.Some? && p.status == s && !Listable(c, k, x)
    case IssuerSeedFailure =>
      var seed := LoadAccountIssuerSeed(c, issuer, x.issuerSeedOk);
      && Listable(c, k, x) && seed.Fail? && FailsAs(p, seed.error)
      && p.status == s.MarkSigningKeysUpdated(x.keys).(issuer := MarkedAs(Verdict(seed.error)))
    case _ => false
  }

  lemma KeysEnds(c: Cluster, k: Key, s: AccountStatus, issuer: KeyPairable, name: string, x: AccountOracle)
    requires k in c.accounts
    ensures match PrepareKeys(c, k, s, issuer, x)
            case Halt(p) => EndsPastOperator(c, k, s, issuer, name, x, p)
            case Go(_, _) => Listable(c, k, x)
  {
    hide LoadAccountIssuerSeed, Verdict, MarkedAs, AccountStatus.Coupled, AccountStatus.Ready;
  }

  lemma LabelEnds(c: Cluster, k: Key, s: AccountStatus, issuer: KeyPairable, name: string, x: AccountOracle)
    requires k in c.accounts
    ensures match PrepareLabels(c, k, s, issuer, name, x)
            case Halt(p) => EndsPastOperator(c, k, s, issuer, name, x, p)
            case Go(_, _) => Listable(c, k, x)
  {
    hide PrepareKeys, LoadAccountIssuerSeed, Verdict, MarkedAs, LabelOf, AccountStatus.Coupled, AccountStatus.Ready;
    KeysEnds(c, k, s, issuer, name, x);
  }

  // The issuer resolves and the Operator behind it is found.
  predicate OperatorFound(c: Cluster, k: Key, x: AccountOracle)
    requires Coupled(c) && k in c.accounts
  {
    var issuer := ResolveIssuer(c, c.accounts[k].spec.issuer, k.ns, x.issuerOk);
    issuer.Ok? && FindOperator(c, k, issuer.value, x.ownerOk, x.namespaceOk).Ok?
  }

  // The ends from the issuer's resolution on, for a status s that knows the key pair.
  predicate EndsPastSeed(c: Cluster, k: Key, s: AccountStatus, x: AccountOracle, p: Plan)
    requires Coupled(c) && k in c.accounts
  {
    var issuer := ResolveIssuer(c, c.accounts[k].spec.issuer, k.ns, x.issuerOk);
    if p.exit == IssuerFailure then
      issuer.Fail? && FailsAs(p, issuer.error) && p.status == s.(issuer := MarkedAs(Verdict(issuer.error)))
    else
      && issuer.Ok?
      && var op := FindOperator(c, k, issuer.value, x.ownerOk, x.namespaceOk);
         if p.exit == OperatorFailure then
           op.Fail? && FailsAs(p, op.error) && p.status == s.(operator := MarkedAs(Verdict(op.error)), operatorRef := None)
         else op.Ok? && EndsPastOperator(c, k, s.MarkOperatorResolved(op.value), issuer.value, op.value.name, x, p)
  }

  lemma OperatorEnds(c: Cluster, k: Key, s: AccountStatus, x: AccountOracle)
    requires Coupled(c) && k in c.accounts
    ensures match PrepareIssuer(c, k, s, x)
            case Halt(p) => EndsPastSeed(c, k, s, x, p)
            case Go(_, _) => OperatorFound(c, k, x) && Listable(c, k, x)
  {
    var issuer := ResolveIssuer(c, c.accounts[k].spec.issuer, k.ns, x.issuerOk);
    if issuer.Ok? { IssuerOfKeyCoupled(c, c.accounts[k].spec.issuer, k.ns, x.issuerOk); }
    hide Coupled, ResolveIssuer, FindOperator, PrepareLabels, Verdict, MarkedAs, MarkOperator, MarkIssuer, AccountStatus.Coupled, AccountStatus.Ready;
    if issuer.Ok? {
      var op := FindOperator(c, k, issuer.value, x.ownerOk, x.namespaceOk);
      if op.Ok? {
        LabelEnds(c, k, s.MarkOperatorResolved(op.value), issuer.value, op.value.name, x);
        NotOperatorExits(c, k, s.MarkOperatorResolved(op.value), issuer.value, op.value.name, x);
      }
    }
    hide EndsPastOperator, Listable;
  }

  lemma NotOperatorExits(c: Cluster, k: Key, s: AccountStatus, issuer: KeyPairable, name: string, x: AccountOracle)
    requires k in c.accounts
    ensures forall p :: EndsPastOperator(c, k, s, issuer, name, x, p) ==> p.exit != IssuerFailure && p.exit != OperatorFailure
  {
  }

  // The ends of the whole preparation.
  predicate EndsEarly(c: Cluster, k: Key, s: AccountStatus, x: AccountOracle, p: Plan)
    requires Coupled(c) && k in c.accounts
  {
    var out := AccountSeedStage(c, k, x);
    if p.exit == SeedFailure then
      out.SeedFailed? && FailsAs(p, out.error) && p.status == s.(seed := MarkedAs(Verdict(out.error)), keyPair := None)
    else if p.exit == SeedWritten then out.SeedReady? && out.wrote && Requeues(p) && p.status == s.MarkSeedSecretReady(out.keyPair)
    else out.SeedReady? && !out.wrote && EndsPastSeed(c, k, s.MarkSeedSecretReady(out.keyPair), x, p)
  }

  lemma PrepareEnds(c: Cluster, k: Key, s: AccountStatus, x: AccountOracle)
    requires Coupled(c) && k in c.accounts
    ensures match PrepareSeed(c, k, s, x)
            case Halt(p) => EndsEarly(c, k, s, x, p)
            case Go(_, _) => OperatorFound(c, k, x) && Listable(c, k, x)
  {
    var out := AccountSeedStage(c, k, x);
    if out.SeedReady? { OperatorEnds(c, k, s.MarkSeedSecretReady(out.keyPair), x); }
    NotSeedExits(c, k, s, x);
    hide Coupled, AccountSeedStage, PrepareIssuer, EndsPastSeed, Verdict, MarkedAs, MarkSeed, AccountStatus.Coupled, AccountStatus.Ready;
  }

  lemma NotSeedExits(c: Cluster, k: Key, s: AccountStatus, x: AccountOracle)
    requires Coupled(c) && k in c.accounts
    ensures forall s1, p :: EndsPastSeed(c, k, s1, x, p) ==> p.exit != SeedFailure && p.exit != SeedWritten
  {
    hide Coupled, ResolveIssuer, FindOperator, LoadAccountIssuerSeed;
  }

  // The ends of storing and pushing.
  predicate EndsLate(c: Cluster, k: Key, s: AccountStatus, seed: Seed, x: AccountOracle, p: Plan)
    requires k in c.accounts
  {
    var out := AccountJwtStage(c, k, WantedClaims(c, k, s, seed, x), x);
    match p.exit
    case JWTFailure =>
      && p.status == s.(jwt := p.status.jwt) && !IsTrue(p.status.jwt)
      && if x.encodeOk then out.result.Fail? && FailsAs(p, out.result.error) && p.status.jwt == MarkedAs(Verdict(out.result.error))
         else p.result == Done && p.error == None
    case JWTWritten => x.encodeOk && out.result.Ok? && out.writes != [] && Requeues(p)
    case PushFailure =>
      && x.encodeOk && out.result.Ok? && out.writes == [] && x.push != PushSucceeds && p.result == Done && p.error.Some?
      && p.status.pushed == Failed(if x.push == PushFails then JWTPushError else UnknownError, Reports(NatsFailed))
    case Pushed => x.encodeOk && out.result.Ok? && out.writes == [] && x.push == PushSucceeds && p.result == Done && p.error == None
    case _ => false
  }

  lemma StoreEnds(c: Cluster, k: Key, s: AccountStatus, seed: Seed, x: AccountOracle)
    requires k in c.accounts
    ensures EndsLate(c, k, s, seed, x, StoreJWT(c, k, s, seed, x))
  {
    hide AccountJwtStage, WantedClaims, MarkedAs, MarkJWT, AccountStatus.Coupled, AccountStatus.Ready;
  }

  /******* No way past the operator stage without admission *******/

  predicate PastOperator(e: Exit) {
    || e.LabelWritten? || e.LabelNotWritten? || e.KeysFailure? || e.IssuerSeedFailure?
    || e.JWTFailure? || e.JWTWritten? || e.PushFailure? || e.Pushed?
  }

  // The issuer that the Account names is there and Ready, and the Operator behind it admits the Account.
  predicate AdmittedVia(c: Cluster, k: Key, issuer: KeyPairable, key: Key)
    requires k in c.accounts
  {
    && IssuerIs(c, c.accounts[k].spec.issuer, k.ns, issuer) && IssuerReady(issuer)
    && OperatorBehind(issuer, key) && AdmittedBy(c, k, key)
  }

  lemma FoundIsAdmitted(c: Cluster, k: Key, x: AccountOracle)
    requires Coupled(c) && k in c.accounts
    requires ResolveIssuer(c, c.accounts[k].spec.issuer, k.ns, x.issuerOk).Ok?
    ensures var issuer := ResolveIssuer(c, c.accounts[k].spec.issuer, k.ns, x.issuerOk).value;
            && (issuer.IssuerSigningKey? ==> issuer.signingKey.status.Coupled())
            && var op := FindOperator(c, k, issuer, x.ownerOk, x.namespaceOk);
               op.Ok? ==> AdmittedVia(c, k, issuer, op.value)
  {
    IssuerResolvesIff(c, c.accounts[k].spec.issuer, k.ns, x.issuerOk);
    IssuerOfKeyCoupled(c, c.accounts[k].spec.issuer, k.ns, x.issuerOk);
    hide ResolveIssuer, FindOperator, OperatorBehind, AdmittedBy, IssuerReady;
    var issuer := ResolveIssuer(c, c.accounts[k].spec.issuer, k.ns, x.issuerOk).value;
    var op := FindOperator(c, k, issuer, x.ownerOk, x.namespaceOk);
    if op.Ok? { OperatorFoundIff(c, k, issuer, x.ownerOk, x.namespaceOk, op.value); }
  }

  lemma EarlyEndPastOperator(c: Cluster, k: Key, s: AccountStatus, x: AccountOracle, p: Plan)
    requires Coupled(c) && k in c.accounts && EndsEarly(c, k, s, x, p) && PastOperator(p.exit)
    ensures OperatorFound(c, k, x)
  {
    hide Coupled, AccountSeedStage, ResolveIssuer, FindOperator, MarkedAs, Verdict, LoadAccountIssuerSeed;
  }

  lemma IssueAdmits(c: Cluster, k: Key, s: AccountStatus, x: AccountOracle)
    requires Coupled(c) && k in c.accounts && s.Coupled()
    ensures var p := Issue(c, k, s, x);
            PastOperator(p.exit) || p.nats.PushSent? ==> exists issuer, key :: AdmittedVia(c, k, issuer, key)
  {
    PrepareEnds(c, k, s, x);
    PrepareMeaning(c, k, s, x);
    hide Coupled, PrepareSeed, StoreJWT, EndsEarly, AdmittedVia, SetToSign, AccountStatus.Coupled, AccountStatus.Ready;
    var prepared := PrepareSeed(c, k, s, x);
    if prepared.Halt? && PastOperator(prepared.plan.exit) { EarlyEndPastOperator(c, k, s, x, prepared.plan); }
    if OperatorFound(c, k, x) { FoundIsAdmitted(c, k, x); }
    hide FindOperator, ResolveIssuer;
  }

  lemma AdmissionNeeded(c: Cluster, k: Key, x: AccountOracle)
    requires Coupled(c)
    ensures var st := Reconcile(c, k, x);
            PastOperator(st.exit) || st.nats.PushSent? ==> k in c.accounts && exists issuer, key :: AdmittedVia(c, k, issuer, key)
  {
    hide Issue, Finalize, AdmittedVia, AccountStatus.Coupled, AccountStatus.Ready;
    if x.fetchOk && k in c.accounts {
      var s := c.accounts[k].status.InitializeConditions();
      InitialCoupled(c, k);
      IssueAdmits(c, k, s, x);
      FinalizeMeaning(c, k, s, x);
      FinalizeEnds(c, k, s, x);
    }
  }

  lemma InitialCoupled(c: Cluster, k: Key)
    requires Coupled(c) && k in c.accounts
    ensures c.accounts[k].status.InitializeConditions().Coupled()
  {
  }

  lemma FinalizeEnds(c: Cluster, k: Key, s: AccountStatus, x: AccountOracle)
    requires k in c.accounts
    ensures var p := Finalize(c, k, s, x);
            && (p.exit == Finalized || p.exit == FinalizerNotRemoved || p.exit == FinalizeFailed || p.exit == Panicked)
            && (p.exit == Finalized ==> Requeues(p)) && (p.exit != Finalized ==> p.result == Done && p.error.Some?)
  {
    hide FinalizeAccount;
  }

  /******* A refused Account *******/

  // The calls that the operator stage makes succeed and the Operator's selectors parse.
  predicate Judged(c: Cluster, k: Key, issuer: KeyPairable, key: Key, x: AccountOracle) {
    && OperatorBehind(issuer, key) && key in c.operators && x.ownerOk && x.namespaceOk && k.ns in c.namespaces
    && c.operators[key].spec.accountsNamespaceSelector != Some(Unparsable) && c.operators[key].spec.accountsSelector != Some(Unparsable)
  }

  lemma RefusalVerdict(c: Cluster, k: Key, issuer: KeyPairable, key: Key, x: AccountOracle)
    requires Coupled(c) && k in c.accounts && IssuerIs(c, c.accounts[k].spec.issuer, k.ns, issuer)
    requires issuer.IssuerSigningKey? ==> issuer.signingKey.status.Coupled()
    requires Judged(c, k, issuer, key, x) && !AdmittedBy(c, k, key)
    ensures var op := FindOperator(c, k, issuer, x.ownerOk, x.namespaceOk);
            && op.Fail? && AsResult(op.error) == (Done, None)
            && Verdict(op.error).failure && Verdict(op.error).reason == NotAllowed
  {
    hide NamespaceAllowed, LabelsAllowed;
    if issuer.IssuerSigningKey? { KeyOwnerIff(c, issuer.signingKey, x.ownerOk); }
    var op := c.operators[key];
    assert ResolveOperator(c, issuer, x.ownerOk) == Ok((key, op));
    AdmittedIff(c, key.ns, op.spec.accountsNamespaceSelector, op.spec.accountsSelector, k.ns, c.accounts[k].labels, x.namespaceOk);
    hide ValidateSelectors, ResolveSigningKeyOwner, ResolveOperator;
  }

  // A live Account with its seed in place and an issuer that is Ready, but no Operator that admits it:
  // the reconcile stops there, whatever else happens, and no Operator is recorded. A refusal proper is
  // recorded as one, and is final.
  lemma RefusedStops(c: Cluster, k: Key, issuer: KeyPairable, x: AccountOracle)
    requires Coupled(c) && KeysDistinct(c) && k in c.accounts && !c.accounts[k].deleting && x.fetchOk
    requires AccountFinalizer in c.accounts[k].finalizers
    requires SeedBuilt(c.secrets, OwnerOf(k, c.accounts[k]), c.accounts[k].spec.seedSecretName, true) && x.seed.getOk
    requires IssuerIs(c, c.accounts[k].spec.issuer, k.ns, issuer) && IssuerReady(issuer) && x.issuerOk
    requires forall key :: OperatorBehind(issuer, key) ==> !AdmittedBy(c, k, key)
    ensures var st := Reconcile(c, k, x);
            && st.exit == OperatorFailure && st.nats == NoCall && !st.status.Ready() && st.status.operatorRef == None
            && st.c.secrets == c.secrets
            && forall key :: Judged(c, k, issuer, key, x) ==>
                 && st.status.operator.Entry? && st.status.operator.status == ConditionFalse && st.status.operator.reason == NotAllowed
                 && (x.status == StatusStored ==> st.result == Done && st.error == None)
  {
    hide SeedBuilt, Coupled, OperatorBehind, AdmittedBy, IssuerReady, Verdict, MarkedAs, PrepareLabels, AccountStatus.Coupled, AccountStatus.Ready;
    SeedStageSettled(c.secrets, OwnerOf(k, c.accounts[k]), c.accounts[k].spec.seedSecretName, PrefixAccount, true, x.seed);
    IssuerResolvesIff(c, c.accounts[k].spec.issuer, k.ns, true);
    IssuerOfKeyCoupled(c, c.accounts[k].spec.issuer, k.ns, true);
    RefusedFails(c, k, issuer, x);
    hide SeedStage, ResolveIssuer, FindOperator, IssuerIs, Judged;
  }

  lemma RefusedFails(c: Cluster, k: Key, issuer: KeyPairable, x: AccountOracle)
    requires Coupled(c) && k in c.accounts && IssuerIs(c, c.accounts[k].spec.issuer, k.ns, issuer)
    requires issuer.IssuerSigningKey? ==> issuer.signingKey.status.Coupled()
    requires forall key :: OperatorBehind(issuer, key) ==> !AdmittedBy(c, k, key)
    ensures var op := FindOperator(c, k, issuer, x.ownerOk, x.namespaceOk);
            && op.Fail?
            && forall key :: Judged(c, k, issuer, key, x) ==>
                 AsResult(op.error) == (Done, None) && Verdict(op.error).failure && Verdict(op.error).reason == NotAllowed
  {
    hide Coupled, AdmittedBy, IssuerIs, OperatorBehind, Verdict;
    var op := FindOperator(c, k, issuer, x.ownerOk, x.namespaceOk);
    if op.Ok? { OperatorFoundIff(c, k, issuer, x.ownerOk, x.namespaceOk, op.value); }
    forall key | Judged(c, k, issuer, key, x) ensures op.Fail? && AsResult(op.error) == (Done, None) && Verdict(op.error).failure && Verdict(op.error).reason == NotAllowed {
      RefusalVerdict(c, k, issuer, key, x);
    }
    hide FindOperator;
  }

  /******* What is returned *******/

  // Failures whose error goes to the runtime, which retries.
  predicate Raises(e: Exit) {
    || e.FinalizerNotAdded? || e.FinalizerNotRemoved? || e.FinalizeFailed? || e.Panicked?
    || e.LabelNotWritten? || e.KeysFailure? || e.PushFailure?
  }

  // Writes after which the reconcile comes again.
  predicate ComesAgain(e: Exit) { e.FinalizerAdded? || e.SeedWritten? || e.LabelWritten? || e.JWTWritten? || e.Finalized? }

  // An issuer without Operator and a refusal are final; a missing owner or namespace is retried.
  predicate OperatorReturns(c: Cluster, k: Key, issuer: KeyPairable, x: AccountOracle, result: CtrlResult, error: Option<Err>) {
    var unread := !x.namespaceOk || k.ns !in c.namespaces;
    match issuer
    case IssuerAccount(_, _) => result == Done && error == None
    case IssuerOperator(_, _) => result == CtrlResult(unread) && error == None
    case IssuerSigningKey(_, sk) =>
      && sk.status.ownerRef.Some?
      && var ref := sk.status.ownerRef.value;
         var key := Key(ref.ns, ref.name);
      && (error.Some? <==> ref.kind != KindUnregistered && !x.ownerOk)
      && (result == Requeue <==>
            || ref.kind == KindUnregistered
            || (x.ownerOk && ref.kind == KindOperator && (key !in c.operators || unread))
            || (x.ownerOk && ref.kind == KindAccount && key !in c.accounts))
  }

  lemma OperatorFailureReturns(c: Cluster, k: Key, issuer: KeyPairable, x: AccountOracle)
    requires k in c.accounts && IssuerReady(issuer)
    requires issuer.IssuerSigningKey? ==> issuer.signingKey.status.Coupled()
    requires FindOperator(c, k, issuer, x.ownerOk, x.namespaceOk).Fail?
    ensures var r := AsResult(FindOperator(c, k, issuer, x.ownerOk, x.namespaceOk).error);
            OperatorReturns(c, k, issuer, x, r.0, r.1)
  {
    var op := ResolveOperator(c, issuer, x.ownerOk);
    if op.Ok? {
      var spec := op.value.1.spec;
      AdmittedIff(c, op.value.0.ns, spec.accountsNamespaceSelector, spec.accountsSelector, k.ns, c.accounts[k].labels, x.namespaceOk);
    }
    hide ValidateSelectors, Matches;
  }

  ghost predicate Returns(c: Cluster, k: Key, x: AccountOracle, exit: Exit, result: CtrlResult, error: Option<Err>)
    requires k in c.accounts
  {
    && (Raises(exit) ==> error.Some?)
    && (ComesAgain(exit) ==> result == Requeue && error == None)
    && (exit == Pushed ==> result == Done && error == None)
    && (exit == SeedFailure ==> SeedReturns(c.secrets, OwnerOf(k, c.accounts[k]), c.accounts[k].spec.seedSecretName, x.seed, result, error))
    && (exit == IssuerFailure ==> IssuerReturns(c, c.accounts[k].spec.issuer, k.ns, x.issuerOk, result, error))
    && (exit == OperatorFailure ==>
          exists issuer :: IssuerIs(c, c.accounts[k].spec.issuer, k.ns, issuer) && OperatorReturns(c, k, issuer, x, result, error))
    && (exit == IssuerSeedFailure ==> result == Done && (error.Some? <==> !x.issuerSeedOk))
    && (exit == JWTFailure ==> JWTReturns(c, k, x, result, error))
  }

  // A JWT that does not encode and a JWT secret that is not the Account's are final.
  predicate JWTReturns(c: Cluster, k: Key, x: AccountOracle, result: CtrlResult, error: Option<Err>)
    requires k in c.accounts
  {
    && error == None
    && (result == Done <==> !x.encodeOk || JwtFinal(c.secrets, OwnerOf(k, c.accounts[k]), c.accounts[k].spec.jwtSecretName, x.jwt))
  }

  lemma EarlyEndReturns(c: Cluster, k: Key, s: AccountStatus, x: AccountOracle, p: Plan)
    requires Coupled(c) && k in c.accounts && EndsEarly(c, k, s, x, p)
    ensures Returns(c, k, x, p.exit, p.result, p.error)
  {
    hide Coupled, EndsPastSeed, MarkedAs, Verdict, SeedUsable, IssuerReturns, OperatorReturns;
    if p.exit == SeedFailure {
      SeedFailureMeaning(c.secrets, OwnerOf(k, c.accounts[k]), c.accounts[k].spec.seedSecretName, PrefixAccount, true, x.seed);
    } else if p.exit != SeedWritten {
      LaterEndReturns(c, k, s.MarkSeedSecretReady(AccountSeedStage(c, k, x).keyPair), x, p);
    }
    hide SeedStage;
  }

  lemma LaterEndReturns(c: Cluster, k: Key, s: AccountStatus, x: AccountOracle, p: Plan)
    requires Coupled(c) && k in c.accounts && EndsPastSeed(c, k, s, x, p)
    ensures Returns(c, k, x, p.exit, p.result, p.error)
  {
    hide Coupled, ResolveIssuer, FindOperator, IssuerIs, IssuerReady, LoadAccountIssuerSeed, OperatorReturns, IssuerReturns;
    hide MarkedAs, Verdict, IntoResult, KeyPairable.GetKeyPair, AccountStatus.Coupled, AccountStatus.Ready;
    var r := ResolveIssuer(c, c.accounts[k].spec.issuer, k.ns, x.issuerOk);
    if r.Fail? {
      IssuerFailureReturns(c, c.accounts[k].spec.issuer, k.ns, x.issuerOk);
    } else {
      ResolvedIssuer(c, c.accounts[k].spec.issuer, k.ns, x.issuerOk);
      if p.exit == OperatorFailure {
        OperatorFailureReturns(c, k, r.value, x);
      } else {
        IssuerSeedFailureReturns(c, r.value, x);
      }
    }
  }

  lemma IssuerSeedFailureReturns(c: Cluster, issuer: KeyPairable, x: AccountOracle)
    requires issuer.GetKeyPair().Some?
    ensures var seed := LoadAccountIssuerSeed(c, issuer, x.issuerSeedOk);
            seed.Fail? ==> AsResult(seed.error).0 == Done && (AsResult(seed.error).1.Some? <==> !x.issuerSeedOk)
  {
  }

  lemma LateEndReturns(c: Cluster, k: Key, s: AccountStatus, seed: Seed, x: AccountOracle, p: Plan)
    requires k in c.accounts && EndsLate(c, k, s, seed, x, p)
    ensures Returns(c, k, x, p.exit, p.result, p.error)
  {
    hide JwtFinal, JwtCallsOk, WantedClaims, Verdict;
    var want := WantedClaims(c, k, s, seed, x);
    JwtStageOkIff(c.secrets, OwnerOf(k, c.accounts[k]), c.accounts[k].spec.jwtSecretName, want, Signed(want), x.jwt);
    hide JwtStage;
  }

  // How the reconcile of an Account returns from each exit when its status is stored; the errors that
  // are handed to the runtime are handed over in any case.
  lemma AccountReturns(c: Cluster, k: Key, x: AccountOracle)
    requires Coupled(c) && k in c.accounts && x.fetchOk && !c.accounts[k].deleting
    ensures var st := Reconcile(c, k, x);
            && (x.status == StatusStored ==> Returns(c, k, x, st.exit, st.result, st.error))
            && (Raises(st.exit) ==> st.error.Some?)
  {
    hide Issue, AccountStatus.Coupled, AccountStatus.Ready;
    var s := c.accounts[k].status.InitializeConditions();
    IssueReturns(c, k, s, x);
    hide IssuerReturns, SeedReturns, JWTReturns, IssuerIs, OperatorReturns;
  }

  lemma IssueReturns(c: Cluster, k: Key, s: AccountStatus, x: AccountOracle)
    requires Coupled(c) && k in c.accounts
    ensures var p := Issue(c, k, s, x); Returns(c, k, x, p.exit, p.result, p.error)
  {
    hide Coupled, PrepareSeed, StoreJWT, Returns, EndsEarly, EndsLate;
    PrepareEnds(c, k, s, x);
    match PrepareSeed(c, k, s, x)
    case Halt(p) => EarlyEndReturns(c, k, s, x, p);
    case Go(s', seed) =>
      StoreEnds(c, k, s', seed, x);
      LateEndReturns(c, k, s', seed, x, StoreJWT(c, k, s', seed, x));
  }

  // A deletion that fails is retried until the finalizer is gone.
  lemma DeletionReturns(c: Cluster, k: Key, x: AccountOracle)
    requires Coupled(c) && k in c.accounts && x.fetchOk && c.accounts[k].deleting && AccountFinalizer in c.accounts[k].finalizers
    ensures var st := Reconcile(c, k, x);
            if st.exit == Finalized then st.result == Requeue || st.error.Some? else Raises(st.exit) && st.error.Some?
  {
    hide Issue, Finalize, AccountStatus.Coupled, AccountStatus.Ready;
    FinalizeEnds(c, k, c.accounts[k].status.InitializeConditions(), x);
  }

  // A status that did not reach the server is written again: the object keeps its old one, and the
  // reconcile returns an error or asks to come again.
  lemma StatusNotLost(c: Cluster, k: Key, x: AccountOracle)
    requires Coupled(c) && k in c.accounts && x.fetchOk && !c.accounts[k].deleting
    ensures var st := Reconcile(c, k, x);
            && k in st.c.accounts
            && st.c.accounts[k].status == (if x.status == StatusStored then st.status else c.accounts[k].status)
            && (st.c.accounts[k].status != st.status ==> st.error.Some? || st.result == Requeue)
  {
    hide Stages, AccountStatus.Coupled, AccountStatus.Ready;
  }

  /******* The seed *******/

  // A seed secret that is written belongs to the Account and is guarded; a new one holds a new account seed.
  lemma WrittenAccountSeed(c: Cluster, k: Key, x: AccountOracle)
    requires Coupled(c) && Reconcile(c, k, x).exit == SeedWritten
    ensures k in c.accounts
    ensures var st, q := Reconcile(c, k, x), Key(k.ns, c.accounts[k].spec.seedSecretName);
            exists seed :: && SeedWrittenFor(st.c.secrets, q, seed, Owner(KindAccount, k, c.accounts[k].uid), true)
                           && st.status.keyPair == Some(KeyPair(PublicKey(seed), c.accounts[k].spec.seedSecretName))
                           && (if q in c.secrets then HoldsSeed(c.secrets, q, seed) else seed.prefix == PrefixAccount && x.seed.newKey == Some(seed.key))
  {
    hide Issue, Finalize, Coupled, AccountStatus.Coupled, AccountStatus.Ready, SeedStage, SeedWrittenFor, SeedBuilt;
    var s := c.accounts[k].status.InitializeConditions();
    FinalizeEnds(c, k, s, x);
    SeedWrittenPlan(c, k, s, x);
    var o, name := OwnerOf(k, c.accounts[k]), c.accounts[k].spec.seedSecretName;
    SeedStageMeaning(c.secrets, o, name, PrefixAccount, true, x.seed);
    WrittenSeed(c.secrets, o, name, PrefixAccount, true, x.seed);
  }

  lemma SeedWrittenPlan(c: Cluster, k: Key, s: AccountStatus, x: AccountOracle)
    requires Coupled(c) && k in c.accounts && Issue(c, k, s, x).exit == SeedWritten
    ensures var out, p := AccountSeedStage(c, k, x), Issue(c, k, s, x);
            out.SeedReady? && out.wrote && p.store == out.store && p.status.keyPair == Some(out.keyPair)
  {
    var out := AccountSeedStage(c, k, x);
    if out.SeedReady? && !out.wrote {
      PrepareEnds(c, k, s, x);
      match PrepareSeed(c, k, s, x)
      case Halt(_) => NotSeedExits(c, k, s, x);
      case Go(s', seed) => StoreEnds(c, k, s', seed, x);
      hide EndsPastSeed, EndsLate;
    }
    hide Coupled, AccountSeedStage, PrepareIssuer, StoreJWT, MarkedAs, AccountStatus.Coupled, AccountStatus.Ready;
  }

  /******* A removal that failed *******/

  // The options for the connection could not be built, which marks the JWT as not pushed.
  predicate OptionsFailed(c: Cluster, s: AccountStatus, x: AccountOracle) {
    s.operatorRef.Some? && OperatorReadable(c, s.operatorRef.value, x) && x.revoke.RevokeOptionsFail?
  }

  lemma FailedRemoval(c: Cluster, s: AccountStatus, x: AccountOracle)
    requires FinalizeAccount(c, s, x).FinalizeError?
    ensures var s' := FinalizeAccount(c, s, x).status;
            && IsTrue(s.jwt) && IsTrue(s.pushed) && s.operatorRef.Some?
            && s' == s.(pushed := s'.pushed) && (IsTrue(s'.pushed) <==> !OptionsFailed(c, s, x))
  {
  }

  // What a failed removal leaves behind.
  lemma AfterFailedRemoval(c: Cluster, k: Key, x: AccountOracle)
    requires Coupled(c) && k in c.accounts && c.accounts[k].deleting && x.fetchOk && x.status == StatusStored
    requires Reconcile(c, k, x).exit == FinalizeFailed
    ensures var c', acc := Reconcile(c, k, x).c, c.accounts[k];
            && k in c'.accounts && c' == c.(accounts := c'.accounts) && AccountFinalizer in acc.finalizers
            && c'.accounts[k] == acc.(status := c'.accounts[k].status)
            && var s, s' := acc.status, c'.accounts[k].status;
            && IsTrue(s.jwt) && IsTrue(s.pushed) && s.operatorRef.Some?
            && IsTrue(s'.jwt) && s'.keyPair == s.keyPair && s'.operatorRef == s.operatorRef
            && (IsTrue(s'.pushed) <==> !OptionsFailed(c, s, x))
  {
    hide Issue, Coupled, FinalizeAccount, OperatorReadable, AccountStatus.Coupled, AccountStatus.Ready;
    var s := c.accounts[k].status.InitializeConditions();
    if FinalizeAccount(c, s, x).FinalizeError? { FailedRemoval(c, s, x); }
  }

  // A removal that failed is made good by a second attempt whose calls all succeed, exactly when it was
  // not the connection's options that failed: that failure marks the JWT as not pushed, and the second
  // attempt lets the Account go and leaves the JWT.
  lemma FailedRemovalIff(c: Cluster, k: Key, x: AccountOracle, y: AccountOracle)
    requires Coupled(c) && k in c.accounts && c.accounts[k].deleting && c.accounts[k].status.keyPair.Some?
    requires x.fetchOk && x.status == StatusStored && Reconcile(c, k, x).exit == FinalizeFailed
    requires c.accounts[k].status.operatorRef.Some? && OperatorReadable(c, c.accounts[k].status.operatorRef.value, y)
    requires y.fetchOk && y.updateOk && y.revoke.RevokeSucceeds?
    ensures Coupled(Reconcile(c, k, x).c)
    ensures var st := Reconcile(Reconcile(c, k, x).c, k, y);
            && st.exit == Finalized
            && st.nats == if OptionsFailed(c, c.accounts[k].status, x) then NoCall else Revoked(c.accounts[k].status.keyPair.value.publicKey)
  {
    hide Coupled, Reconcile, Frames, OptionsFailed, AccountStatus.Coupled, AccountStatus.Ready;
    StepFrames(c, k, x);
    AfterFailedRemoval(c, k, x);
    var c' := Reconcile(c, k, x).c;
    SecondAttempt(c', k, y);
  }

  lemma SecondAttempt(c: Cluster, k: Key, y: AccountOracle)
    requires Coupled(c) && k in c.accounts && c.accounts[k].deleting && AccountFinalizer in c.accounts[k].finalizers
    requires c.accounts[k].status.operatorRef.Some? && OperatorReadable(c, c.accounts[k].status.operatorRef.value, y)
    requires IsTrue(c.accounts[k].status.jwt) && c.accounts[k].status.keyPair.Some? && y.fetchOk && y.updateOk && y.revoke.RevokeSucceeds?
    ensures var st := Reconcile(c, k, y);
            && st.exit == Finalized
            && st.nats == if IsTrue(c.accounts[k].status.pushed) then Revoked(c.accounts[k].status.keyPair.value.publicKey) else NoCall
  {
    hide Issue, Coupled, AccountStatus.Coupled, AccountStatus.Ready;
  }

  /******* Nothing to reconcile *******/

  // Without the object nothing happens; only a failure to fetch it is handed to the runtime.
  lemma NothingFetched(c: Cluster, k: Key, x: AccountOracle)
    requires Coupled(c) && (!x.fetchOk || k !in c.accounts)
    ensures var st := Reconcile(c, k, x);
            st.c == c && st.writes == [] && st.nats == NoCall && st.result == Done && (st.error == None <==> x.fetchOk)
  {
  }
}
