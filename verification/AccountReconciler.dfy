/**
 AccountReconciler as it runs: the Account's status is a live condition list that is marked in
 place, secrets are built in place and written, and the status is stored at the end. The
 whole is proved against the step of AccountController.
 */
module AccountReconcilers {
  import opened Texts
  import opened Lifecycles
  import opened LiveStatuses
  import opened Errors
  import opened Secrets
  import opened SigningKeys
  import opened ClusterState
  import opened SecretStages
  import opened SecretClients
  import opened ClaimsBuilders
  import opened AccountController

  datatype Outcome = Outcome(exit: Exit, result: CtrlResult, error: Option<Err>)

  // What the stages from the issuer on come to.
  function FinishPlan(prepared: Prepared, c: Cluster, k: Key, x: AccountOracle): Plan
    requires k in c.accounts
  {
    match prepared
    case Halt(plan) => plan
    case Go(s, seed) => StoreJWT(c, k, s, seed, x)
  }

  // The exits after the signing keys were listed.
  predicate Late(e: Exit) { e.IssuerSeedFailure? || e.JWTFailure? || e.JWTWritten? || e.PushFailure? || e.Pushed? }

  // Once the keys were listed, they are an outcome of the merge.
  ghost predicate KeysListed(c: Cluster, k: Key, current: seq<SigningKeyEntry>, keys: seq<SigningKeyEntry>, e: Exit)
    requires k in c.accounts
  {
    Late(e) ==> AllCoupled(Candidates(c, k)) && IsNext(keys, c.accounts[k].uid, current, Candidates(c, k))
  }

  lemma NotYetListed(c: Cluster, k: Key, current: seq<SigningKeyEntry>, keys: seq<SigningKeyEntry>, e: Exit)
    requires k in c.accounts && !Late(e)
    ensures KeysListed(c, k, current, keys, e)
  {
  }

  // The seed stage: an early end, or the status to go on with.
  datatype SeedPart = Ends(plan: Plan) | GoesOn(status: AccountStatus)

  function SeedPartOf(c: Cluster, k: Key, s: AccountStatus, x: AccountOracle): SeedPart
    requires k in c.accounts
  {
    match AccountSeedStage(c, k, x)
    case SeedFailed(e) => Ends(Stop(c, k, MarkSeed(s, Verdict(e)), SeedFailure, AsResult(e)))
    case SeedReady(store, kp, _, wrote) =>
      if wrote then
        Ends(Plan(s.MarkSeedSecretReady(kp), c.accounts[k].labels, c.accounts[k].finalizers, store,
                  [SecretWritten(Key(k.ns, c.accounts[k].spec.seedSecretName))], NoCall, SeedWritten, Requeue, None))
      else GoesOn(s.MarkSeedSecretReady(kp))
  }

  class AccountReconciler {
    const c: Cluster
    const k: Key
    const client: SecretClient
    const status: LiveAccountStatus
    // the copy on the server, which only an update brings back
    const stored: LiveAccountStatus
    var labels: Labels
    var finalizers: set<Finalizer>
    var nats: NatsCall

    // The object has been fetched; its status is the one stored.
    constructor (c: Cluster, k: Key, status: LiveAccountStatus, stored: LiveAccountStatus)
      requires Coupled(c) && k in c.accounts && status.Valid() && stored.Valid()
      requires stored != status && stored.base != status.base
      requires status.View() == stored.View() == c.accounts[k].status
      ensures this.c == c && this.k == k && this.status == status && this.stored == stored && fresh(client)
      ensures Valid() && Unwritten()
    {
      this.c, this.k, this.status, this.stored := c, k, status, stored;
      client := new SecretClient(c.secrets);
      labels, finalizers, nats := c.accounts[k].labels, c.accounts[k].finalizers, NoCall;
    }

    ghost predicate Valid()
      reads status, status.base, stored, stored.base
    {
      && Coupled(c) && k in c.accounts && status.Valid() && stored.Valid()
      && stored != status && stored.base != status.base && stored.View() == c.accounts[k].status
    }

    // Nothing has been written or sent yet.
    ghost predicate Unwritten()
      reads this, client
    {
      && k in c.accounts && client.store == c.secrets && client.writes == []
      && labels == c.accounts[k].labels && finalizers == c.accounts[k].finalizers && nats == NoCall
    }

    ghost function PlanOf(r: Outcome): Plan
      reads this, client, status, status.base
    {
      Plan(status.View(), labels, finalizers, client.store, client.writes, nats, r.exit, r.result, r.error)
    }

    /******* MarkCondition on each pair of marks *******/

    method MarkIssuerCondition(e: Err, now: int)
      requires Valid()
      modifies status, status.base
      ensures Valid() && status.View() == MarkIssuer(old(status.View()), Verdict(e))
    {
      var m := Verdict(e);
      if m.failure { status.MarkIssuerResolveFailed(m.reason, m.message, now); } else { status.MarkIssuerResolveUnknown(m.reason, m.message, now); }
    }

    method MarkJWTCondition(e: Err, now: int)
      requires Valid()
      modifies status, status.base
      ensures Valid() && status.View() == MarkJWT(old(status.View()), Verdict(e))
    {
      var m := Verdict(e);
      if m.failure { status.MarkJWTSecretFailed(m.reason, m.message, now); } else { status.MarkJWTSecretUnknown(m.reason, m.message, now); }
    }

    /******* ensureJWTPushed *******/

    method EnsureJWTPushed(jwt: Jwt, x: AccountOracle, now: int) returns (r: Outcome)
      requires Valid() && Unwritten()
      modifies this, status, status.base
      ensures Valid() && PlanOf(r) == Push(c, k, old(status.View()), jwt, x)
    {
      hide LiveAccountStatus.Valid, LiveAccountStatus.View, Coupled, AccountStatus.Coupled, AccountStatus.Ready;
      match x.push
      case PushSucceeds =>
        nats := PushSent(jwt);
        status.MarkJWTPushed(now);
        r := Outcome(Pushed, Done, None);
      case PushFails =>
        nats := PushSent(jwt);
        status.MarkJWTPushFailed(JWTPushError, Reports(NatsFailed), now);
        r := Outcome(PushFailure, Done, Some(Plain(NatsFailed)));
      case _ =>
        status.MarkJWTPushFailed(UnknownError, Reports(NatsFailed), now);
        r := Outcome(PushFailure, Done, Some(Plain(NatsFailed)));
    }

    /******* reconcileJWTSecret *******/

    method ReconcileJWTSecret(seed: Seed, x: AccountOracle, now: int) returns (r: Outcome)
      requires Valid() && Unwritten() && status.View().keyPair.Some?
      modifies this, client, status, status.base
      ensures Valid() && PlanOf(r) == StoreJWT(c, k, old(status.View()), seed, x)
    {
      hide LiveAccountStatus.Valid, LiveAccountStatus.View, Coupled, AccountStatus.Coupled, AccountStatus.Ready, JwtStage, Verdict, Push, WantedClaims;
      if !x.encodeOk {
        var e := TerminalError(ConditionFailed(UnknownError, Wrap(Plain(EncodeFailed))));
        MarkJWTCondition(e, now);
        return Outcome(JWTFailure, AsResult(e).0, AsResult(e).1);
      }
      var want := AccountClaimsFor(seed, x);
      var got := client.ReconcileJWTSecret(OwnerOf(k, c.accounts[k]), c.accounts[k].spec.jwtSecretName, want, Signed(want), x.jwt);
      if got.Fail? {
        MarkJWTCondition(got.error, now);
        return Outcome(JWTFailure, AsResult(got.error).0, AsResult(got.error).1);
      }
      JwtStageMeaning(c.secrets, OwnerOf(k, c.accounts[k]), c.accounts[k].spec.jwtSecretName, want, x.jwt);
      status.MarkJWTSecretReady(now);
      if client.writes != [] {
        return Outcome(JWTWritten, Requeue, None);
      }
      r := EnsureJWTPushed(got.value, x, now);
    }

    method AccountClaimsFor(seed: Seed, x: AccountOracle) returns (want: Claims)
      requires Valid() && status.View().keyPair.Some?
      ensures want == WantedClaims(c, k, status.View(), seed, x)
    {
      want := CreateAccountClaims(k.name, c.accounts[k].spec, status.keyPair.value, status.signingKeys, seed, x.iat, x.jti);
      assert want.signingKeys == PublicKeysOf(status.signingKeys);
    }

    /******* loadIssuerSeed *******/

    method LoadIssuerSeed(issuer: KeyPairable, x: AccountOracle, now: int) returns (r: Outcome)
      requires Valid() && Unwritten() && status.View().keyPair.Some?
      modifies this, client, status, status.base
      ensures Valid() && PlanOf(r) == FinishPlan(PrepareIssuerSeed(c, k, old(status.View()), issuer, x), c, k, x)
      ensures Late(r.exit)
    {
      var seed := LoadAccountIssuerSeed(c, issuer, x.issuerSeedOk);
      hide LiveAccountStatus.Valid, LiveAccountStatus.View, Coupled, AccountStatus.Coupled, AccountStatus.Ready, Verdict, StoreJWT, LoadAccountIssuerSeed;
      if seed.Fail? {
        MarkIssuerCondition(seed.error, now);
        return Outcome(IssuerSeedFailure, AsResult(seed.error).0, AsResult(seed.error).1);
      }
      status.MarkIssuerResolved(now);
      StoreExitsAreLate(c, k, status.View(), seed.value, x);
      r := ReconcileJWTSecret(seed.value, x, now);
    }

    /******* ensureSigningKeysUpdated *******/

    method EnsureSigningKeysUpdated(x: AccountOracle, now: int) returns (ok: bool, keys: seq<SigningKeyEntry>)
      requires Valid()
      modifies status, status.base
      ensures Valid() && ok == (c.accounts[k].spec.signingKeysSelector != Some(Unparsable) && x.listOk)
      ensures ok ==> AllCoupled(Candidates(c, k)) && IsNext(keys, c.accounts[k].uid, old(status.View()).signingKeys, Candidates(c, k))
      ensures status.View() == if ok then old(status.View()).MarkSigningKeysUpdated(keys) else old(status.View())
    {
      ok, keys := false, x.keys;
      if c.accounts[k].spec.signingKeysSelector == Some(Unparsable) || !x.listOk { return; }
      assert AllCoupled(Candidates(c, k)) && status.View().signingKeys == status.signingKeys;
      hide LiveAccountStatus.Valid, LiveAccountStatus.View, Coupled, AccountStatus.Coupled, AccountStatus.Ready, Candidates, IsNext;
      keys := NextSigningKeys(c.accounts[k].uid, status.signingKeys, Candidates(c, k));
      status.MarkSigningKeysUpdated(keys, now);
      ok := true;
    }

    // From the signing keys to the push.
    method Sign(issuer: KeyPairable, x: AccountOracle, now: int) returns (r: Outcome, ghost keys: seq<SigningKeyEntry>)
      requires Valid() && Unwritten() && status.View().keyPair.Some?
      modifies this, client, status, status.base
      ensures Valid() && PlanOf(r) == FinishPlan(PrepareKeys(c, k, old(status.View()), issuer, x.(keys := keys)), c, k, x.(keys := keys))
      ensures KeysListed(c, k, old(status.View()).signingKeys, keys, r.exit)
    {
      hide LiveAccountStatus.Valid, LiveAccountStatus.View, Coupled, AccountStatus.Coupled, AccountStatus.Ready, PrepareIssuerSeed, StoreJWT, Candidates, IsNext, AllCoupled;
      var ok, next := EnsureSigningKeysUpdated(x, now);
      keys := next;
      if !ok {
        return Outcome(KeysFailure, Done, Some(Wrap(Plain(ApiCallFailed)))), keys;
      }
      r := LoadIssuerSeed(issuer, x.(keys := next), now);
    }

    /******* reconcileLabels *******/

    // r.Update(ctx, acc): the object is written, and the answer may replace the status in memory.
    method UpdateObject(x: AccountOracle)
      requires Valid()
      modifies client, status, status.base
      ensures Valid() && client.store == old(client.store) && client.writes == old(client.writes) + [ObjectWritten(k)]
      ensures status.View() == AfterUpdate(c, k, old(status.View()), x)
    {
      hide LiveAccountStatus.Valid, LiveAccountStatus.View, Coupled, AccountStatus.Coupled, AccountStatus.Ready;
      client.writes := client.writes + [ObjectWritten(k)];
      if x.refreshes { status.Decode(stored); }
    }

    method ReconcileLabels(issuer: KeyPairable, name: string, x: AccountOracle, now: int) returns (r: Outcome, ghost keys: seq<SigningKeyEntry>)
      requires Valid() && Unwritten() && status.View().keyPair.Some?
      modifies this, client, status, status.base
      ensures Valid() && PlanOf(r) == FinishPlan(PrepareLabels(c, k, old(status.View()), issuer, name, x.(keys := keys)), c, k, x.(keys := keys))
      ensures KeysListed(c, k, old(status.View()).signingKeys, keys, r.exit)
    {
      hide LiveAccountStatus.Valid, LiveAccountStatus.View, AccountStatus.Coupled, AccountStatus.Ready, KeysListed;
      hide Coupled, PrepareKeys, StoreJWT, LabelOf;
      keys := x.keys;
      if LabelOf(labels) == name {
        r, keys := Sign(issuer, x, now);
        return;
      }
      if !x.updateOk {
        NotYetListed(c, k, old(status.View()).signingKeys, keys, LabelNotWritten);
        return Outcome(LabelNotWritten, Done, Some(Plain(ApiCallFailed))), keys;
      }
      labels := labels[LabelOperatorName := name];
      UpdateObject(x);
      NotYetListed(c, k, old(status.View()).signingKeys, keys, LabelWritten);
      r := Outcome(LabelWritten, Requeue, None);
    }

    /******* resolveOperator *******/

    method ResolveOperator(issuer: KeyPairable, x: AccountOracle, now: int) returns (r: Outcome, ghost keys: seq<SigningKeyEntry>)
      requires Valid() && Unwritten() && status.View().keyPair.Some?
      requires issuer.IssuerSigningKey? ==> issuer.signingKey.status.Coupled()
      modifies this, client, status, status.base
      ensures Valid() && PlanOf(r) == FinishPlan(PrepareOperator(c, k, old(status.View()), issuer, x.(keys := keys)), c, k, x.(keys := keys))
      ensures KeysListed(c, k, old(status.View()).signingKeys, keys, r.exit)
    {
      hide LiveAccountStatus.Valid, LiveAccountStatus.View, AccountStatus.Coupled, AccountStatus.Ready, KeysListed;
      hide Coupled, PrepareLabels, StoreJWT, FindOperator, Verdict;
      keys := x.keys;
      var found := FindOperator(c, k, issuer, x.ownerOk, x.namespaceOk);
      if found.Fail? {
        MarkOperatorCondition(found.error, now);
        NotYetListed(c, k, old(status.View()).signingKeys, keys, OperatorFailure);
        return Outcome(OperatorFailure, AsResult(found.error).0, AsResult(found.error).1), keys;
      }
      status.MarkOperatorResolved(found.value, now);
      r, keys := ReconcileLabels(issuer, found.value.name, x, now);
    }

    method MarkOperatorCondition(e: Err, now: int)
      requires Valid()
      modifies status, status.base
      ensures Valid() && status.View() == MarkOperator(old(status.View()), Verdict(e))
    {
      hide LiveAccountStatus.Valid, LiveAccountStatus.View, Coupled, AccountStatus.Coupled, AccountStatus.Ready;
      var m := Verdict(e);
      if m.failure { status.MarkOperatorResolveFailed(m.reason, m.message, now); } else { status.MarkOperatorResolveUnknown(m.reason, m.message, now); }
    }

    method MarkSeedCondition(e: Err, now: int)
      requires Valid()
      modifies status, status.base
      ensures Valid() && status.View() == MarkSeed(old(status.View()), Verdict(e))
    {
      hide LiveAccountStatus.Valid, LiveAccountStatus.View, Coupled, AccountStatus.Coupled, AccountStatus.Ready;
      var m := Verdict(e);
      if m.failure { status.MarkSeedSecretFailed(m.reason, m.message, now); } else { status.MarkSeedSecretUnknown(m.reason, m.message, now); }
    }

    /******* From the seed on *******/

    method ResolveIssuer(x: AccountOracle, now: int) returns (r: Outcome, ghost keys: seq<SigningKeyEntry>)
      requires Valid() && Unwritten() && status.View().keyPair.Some?
      modifies this, client, status, status.base
      ensures Valid() && PlanOf(r) == FinishPlan(PrepareIssuer(c, k, old(status.View()), x.(keys := keys)), c, k, x.(keys := keys))
      ensures KeysListed(c, k, old(status.View()).signingKeys, keys, r.exit)
    {
      hide LiveAccountStatus.Valid, LiveAccountStatus.View, AccountStatus.Coupled, AccountStatus.Ready, KeysListed;
      hide PrepareOperator, StoreJWT, Verdict;
      keys := x.keys;
      var issuer := ClusterState.ResolveIssuer(c, c.accounts[k].spec.issuer, k.ns, x.issuerOk);
      if issuer.Fail? {
        MarkIssuerCondition(issuer.error, now);
        NotYetListed(c, k, old(status.View()).signingKeys, keys, IssuerFailure);
        return Outcome(IssuerFailure, AsResult(issuer.error).0, AsResult(issuer.error).1), keys;
      }
      r, keys := ResolveOperator(issuer.value, x, now);
    }

    method SeedSecret(x: AccountOracle, now: int) returns (r: Option<Outcome>)
      requires Valid() && Unwritten()
      modifies this, client, status, status.base
      ensures Valid()
      ensures match SeedPartOf(c, k, old(status.View()), x)
              case Ends(plan) => r.Some? && PlanOf(r.value) == plan
              case GoesOn(s) => r.None? && Unwritten() && status.View() == s
    {
      hide LiveAccountStatus.Valid, LiveAccountStatus.View, AccountStatus.Coupled, AccountStatus.Ready, KeysListed;
      hide Coupled, Verdict, SeedStage;
      var acc := c.accounts[k];
      var got, requeue := client.ReconcileSeedSecret(OwnerOf(k, acc), acc.spec.seedSecretName, PrefixAccount, true, x.seed);
      if got.Fail? {
        MarkSeedCondition(got.error, now);
        return Some(Outcome(SeedFailure, AsResult(got.error).0, AsResult(got.error).1));
      }
      SeedStageMeaning(c.secrets, OwnerOf(k, acc), acc.spec.seedSecretName, PrefixAccount, true, x.seed);
      status.MarkSeedSecretReady(got.value.0, now);
      r := if requeue then Some(Outcome(SeedWritten, Requeue, None)) else None;
    }

    method Issue(x: AccountOracle, now: int) returns (r: Outcome, ghost keys: seq<SigningKeyEntry>)
      requires Valid() && Unwritten()
      modifies this, client, status, status.base
      ensures Valid() && PlanOf(r) == AccountController.Issue(c, k, old(status.View()), x.(keys := keys))
      ensures KeysListed(c, k, old(status.View()).signingKeys, keys, r.exit)
    {
      hide LiveAccountStatus.Valid, LiveAccountStatus.View, AccountStatus.Coupled, AccountStatus.Ready, KeysListed;
      hide Coupled, PrepareIssuer, FinishPlan, SeedPartOf, AccountController.Issue;
      ghost var before := status.View();
      keys := x.keys;
      IssueSplits(c, k, before, x, keys);
      var stop := SeedSecret(x, now);
      if stop.Some? {
        NotYetListed(c, k, before.signingKeys, keys, stop.value.exit);
        return stop.value, keys;
      }
      r, keys := ResolveIssuer(x, now);
      IssueSplits(c, k, before, x, keys);
    }

    /******* finalizeAccount *******/

    // The two conditions are checked; the operator reference and the key pair are taken for granted.
    method FinalizeAccount(x: AccountOracle, now: int) returns (f: Finalization)
      requires Valid()
      modifies status, status.base
      ensures Valid() && f == AccountController.FinalizeAccount(c, old(status.View()), x)
      ensures status.View() == if f.FinalizeError? then f.status else old(status.View())
    {
      assert status.View().operatorRef == status.operatorRef && status.View().keyPair == status.keyPair;
      hide LiveAccountStatus.Valid, LiveAccountStatus.View, Coupled, AccountStatus.Coupled, AccountStatus.Ready;
      var ready := status.IsJWTSecretReady();
      if !ready { return Skipped; }
      var pushed := status.IsJWTPushed();
      if !pushed { return Skipped; }
      if status.operatorRef.None? { return NilPointer; }
      var key := status.operatorRef.value;
      if !x.operatorOk { return FinalizeError(status.View()); }
      if key !in c.operators { return Skipped; }
      var pair := c.operators[key].status.keyPair;
      if pair.None? { return FinalizeError(status.View()); }
      var seedKey := Key(key.ns, pair.value.seedSecretName);
      if !x.operatorSeedOk || seedKey !in c.secrets { return FinalizeError(status.View()); }
      if SeedKey !in c.secrets[seedKey].data || !c.secrets[seedKey].data[SeedKey].SeedBlob? { return FinalizeError(status.View()); }
      match x.revoke
      case SystemMissing => f := Skipped;
      case SystemFails => f := FinalizeError(status.View());
      case RevokeOptionsFail =>
        status.MarkJWTPushFailed(UnknownError, Reports(NatsFailed), now);
        f := FinalizeError(status.View());
      case RevokeConnectFails => f := FinalizeError(status.View());
      case RevokeFails => f := if status.keyPair.None? then NilPointer else FinalizeError(status.View());
      case RevokeSucceeds => f := if status.keyPair.None? then NilPointer else Removed(status.keyPair.value.publicKey);
    }

    method Finalize(x: AccountOracle, now: int) returns (r: Outcome)
      requires Valid() && Unwritten()
      modifies this, client, status, status.base
      ensures Valid() && PlanOf(r) == AccountController.Finalize(c, k, old(status.View()), x)
      ensures !Late(r.exit)
    {
      hide LiveAccountStatus.Valid, LiveAccountStatus.View, Coupled, AccountStatus.Coupled, AccountStatus.Ready, AccountController.FinalizeAccount;
      var f := FinalizeAccount(x, now);
      if f == NilPointer { return Outcome(Panicked, Done, Some(Plain(NilDereference))); }
      if f.FinalizeError? { return Outcome(FinalizeFailed, Done, Some(Plain(NatsFailed))); }
      if f.Removed? { nats := Revoked(f.subject); }
      if !x.updateOk { return Outcome(FinalizerNotRemoved, Done, Some(Plain(ApiCallFailed))); }
      finalizers := finalizers - {AccountFinalizer};
      UpdateObject(x);
      r := Outcome(Finalized, Requeue, None);
    }

    /******* Reconcile *******/

    method AddFinalizer(x: AccountOracle) returns (r: Outcome)
      requires Valid() && Unwritten()
      modifies this, client, status, status.base
      ensures Valid() && PlanOf(r) == AccountController.AddFinalizer(c, k, old(status.View()), x)
      ensures !Late(r.exit)
    {
      hide LiveAccountStatus.Valid, LiveAccountStatus.View, Coupled, AccountStatus.Coupled, AccountStatus.Ready;
      if !x.updateOk { return Outcome(FinalizerNotAdded, Done, Some(Plain(ApiCallFailed))); }
      finalizers := finalizers + {AccountFinalizer};
      UpdateObject(x);
      r := Outcome(FinalizerAdded, Requeue, None);
    }

    // An Account that is new or on its way out.
    method Guard(x: AccountOracle, now: int) returns (r: Outcome)
      requires Valid() && Unwritten() && (c.accounts[k].deleting || AccountFinalizer !in finalizers)
      modifies this, client, status, status.base
      ensures Valid() && PlanOf(r) == Stages(c, k, old(status.View()), x)
      ensures !Late(r.exit)
    {
      hide LiveAccountStatus.Valid, LiveAccountStatus.View, Coupled, AccountStatus.Coupled, AccountStatus.Ready, KeysListed;
      hide AccountController.Issue, AccountController.Finalize, AccountController.AddFinalizer;
      if !c.accounts[k].deleting {
        r := AddFinalizer(x);
        return;
      }
      if AccountFinalizer in finalizers {
        r := Finalize(x, now);
        return;
      }
      return Outcome(AlreadyFinalized, Done, None);
    }

    method Dispatch(x: AccountOracle, now: int) returns (r: Outcome, ghost keys: seq<SigningKeyEntry>)
      requires Valid() && Unwritten()
      modifies this, client, status, status.base
      ensures Valid() && PlanOf(r) == Stages(c, k, old(status.View()), x.(keys := keys))
      ensures KeysListed(c, k, old(status.View()).signingKeys, keys, r.exit)
    {
      hide LiveAccountStatus.Valid, LiveAccountStatus.View, Coupled, AccountStatus.Coupled, AccountStatus.Ready, KeysListed;
      hide AccountController.Issue, AccountController.Finalize, AccountController.AddFinalizer, Stages;
      if c.accounts[k].deleting || AccountFinalizer !in finalizers {
        keys := x.keys;
        r := Guard(x, now);
        assert x.(keys := keys) == x;
        NotYetListed(c, k, old(status.View()).signingKeys, keys, r.exit);
        return;
      }
      r, keys := Issue(x, now);
      LiveIssues(c, k, old(status.View()), x.(keys := keys));
    }

    method Run(x: AccountOracle, now: int) returns (r: Outcome, ghost keys: seq<SigningKeyEntry>)
      requires Valid() && Unwritten()
      modifies this, client, status, status.base
      ensures Valid() && PlanOf(r) == Stages(c, k, old(status.View()).InitializeConditions(), x.(keys := keys))
      ensures KeysListed(c, k, old(status.View()).signingKeys, keys, r.exit)
    {
      hide LiveAccountStatus.Valid, LiveAccountStatus.View, Coupled, AccountStatus.Coupled, AccountStatus.Ready, KeysListed, Stages;
      status.InitializeConditions(now);
      r, keys := Dispatch(x, now);
    }

    // With the deferred status write.
    method Reconcile(x: AccountOracle, now: int) returns (step: Step, ghost keys: seq<SigningKeyEntry>)
      requires Valid() && Unwritten() && status.View() == c.accounts[k].status && x.fetchOk
      modifies this, client, status, status.base
      ensures step == AccountController.Reconcile(c, k, x.(keys := keys))
      ensures KeysListed(c, k, c.accounts[k].status.signingKeys, keys, step.exit)
    {
      hide LiveAccountStatus.Valid, LiveAccountStatus.View, Coupled, AccountStatus.Coupled, AccountStatus.Ready, KeysListed, Stages;
      var r;
      r, keys := Run(x, now);
      var acc := c.accounts[k];
      var gone := acc.deleting && finalizers == {};
      var after := acc.(labels := labels, finalizers := finalizers);
      var result, error := r.result, r.error;
      if status.View() != acc.status {
        if gone || x.status == StatusFails {
          error := if error.None? then Some(Plain(ApiCallFailed)) else error;
        } else if x.status == StatusConflict {
          result := if error.None? then Requeue else result;
        } else {
          after := after.(status := status.View());
          client.writes := client.writes + [StatusWritten(k)];
        }
      }
      var accounts := if gone then c.accounts - {k} else c.accounts[k := after];
      step := Step(c.(accounts := accounts, secrets := client.store), status.View(), client.writes, nats, r.exit, result, error);
    }
  }

  lemma StoreExitsAreLate(c: Cluster, k: Key, s: AccountStatus, seed: Seed, x: AccountOracle)
    requires k in c.accounts
    ensures Late(StoreJWT(c, k, s, seed, x).exit)
  {
    hide AccountJwtStage, WantedClaims, Verdict;
  }

  // The seed stage does not look at the keys.
  lemma IssueSplits(c: Cluster, k: Key, s: AccountStatus, x: AccountOracle, keys: seq<SigningKeyEntry>)
    requires Coupled(c) && k in c.accounts
    ensures var y := x.(keys := keys);
            match SeedPartOf(c, k, s, x)
            case Ends(plan) => Issue(c, k, s, y) == plan && !Late(plan.exit)
            case GoesOn(s') =>
              && Issue(c, k, s, y) == FinishPlan(PrepareIssuer(c, k, s', y), c, k, y)
              && s'.keyPair.Some? && s'.signingKeys == s.signingKeys
  {
    hide SeedStage, PrepareIssuer, StoreJWT, Verdict, MarkSeed, AccountStatus.Coupled, AccountStatus.Ready, Coupled;
  }

  lemma LiveIssues(c: Cluster, k: Key, s: AccountStatus, x: AccountOracle)
    requires Coupled(c) && k in c.accounts && !c.accounts[k].deleting && AccountFinalizer in c.accounts[k].finalizers
    ensures Stages(c, k, s, x) == Issue(c, k, s, x)
  {
    hide Issue, Finalize, Coupled;
  }
}
