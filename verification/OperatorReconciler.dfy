/**
 OperatorReconciler as it runs: status fields are assigned stage by stage, secrets are built in
 place and written, and the status is stored at the end. Proved against OperatorController.
 */
module OperatorReconcilers {
  import opened Texts
  import opened Lifecycles
  import opened Errors
  import opened Secrets
  import opened ClusterState
  import opened SecretStages
  import opened SecretClients
  import opened ClaimsBuilders
  import opened OperatorController

  class OperatorReconciler {
    const c: Cluster
    const k: Key
    const client: SecretClient
    var status: OperatorStatus
    var exit: OperatorExit
    var result: CtrlResult
    var error: Option<Err>

    constructor (c: Cluster, k: Key)
      requires k in c.operators
      ensures this.c == c && this.k == k && fresh(client) && Unwritten() && status == c.operators[k].status
    {
      this.c, this.k := c, k;
      client := new SecretClient(c.secrets);
      status, exit, result, error := c.operators[k].status, Completed, Done, None;
    }

    ghost predicate Unwritten()
      reads client
    {
      client.store == c.secrets && client.writes == []
    }

    ghost function PlanOf(): OperatorPlan
      reads this, client
    {
      OperatorPlan(status, client.store, client.writes, exit, result, error)
    }

    method End(e: OperatorExit, r: CtrlResult, err: Option<Err>)
      modifies this
      ensures status == old(status) && exit == e && result == r && error == err
    {
      exit, result, error := e, r, err;
    }

    method ReconcileJWTSecret(seed: Seed, x: OperatorOracle)
      requires k in c.operators && Unwritten()
      modifies this, client
      ensures PlanOf() == OperatorJWTStage(c, k, old(status), seed, x)
    {
      hide JwtStage, Verdict, OperatorStatus.Coupled, OperatorStatus.Ready;
      var op := c.operators[k];
      var want := CreateOperatorClaims(k.name, op.spec, status, seed, x.iat, x.jti);
      if want.None? || !x.encodeOk {
        var e := TerminalError(ConditionFailed(UnknownError, Wrap(Plain(EncodeFailed))));
        status := MarkOperatorJWT(status, Verdict(e));
        End(JWTStopped, AsResult(e).0, AsResult(e).1);
        return;
      }
      var got := client.ReconcileJWTSecret(OperatorOwner(k, op), op.spec.jwtSecretName, want.value, Signed(want.value), x.jwt);
      if got.Fail? {
        status := MarkOperatorJWT(status, Verdict(got.error));
        End(JWTStopped, AsResult(got.error).0, AsResult(got.error).1);
        return;
      }
      status := status.MarkJWTSecretReady();
      End(Completed, if client.writes == [] then Done else Requeue, None);
    }

    method EnsureSigningKeysUpdated(seed: Seed, x: OperatorOracle)
      requires Coupled(c) && k in c.operators && Unwritten()
      modifies this, client
      ensures PlanOf() == OperatorKeysStage(c, k, old(status), seed, x)
    {
      assert forall sk :: sk in ListKeys(c.signingKeys, k.ns, None) ==> sk.status.Coupled();
      hide OperatorJWTStage, OperatorKeys, OperatorStatus.Coupled, OperatorStatus.Ready, Coupled;
      match x.list
      case ListMissing => End(KeysStopped, Requeue, None);
      case ListFails => End(KeysStopped, Done, Some(Plain(ApiCallFailed)));
      case ListNil => ReconcileJWTSecret(seed, x);
      case Listed =>
        var keys := CollectOperatorKeys(k, ListKeys(c.signingKeys, k.ns, None));
        status := status.MarkSigningKeysUpdated(keys);
        ReconcileJWTSecret(seed, x);
    }

    // The key pair of an Account whose seed is ready is dereferenced.
    method EnsureSystemAccountResolved(seed: Seed, x: OperatorOracle)
      requires Coupled(c) && k in c.operators && Unwritten()
      modifies this, client
      ensures PlanOf() == SystemAccountStage(c, k, old(status), seed, x)
    {
      var key := Key(k.ns, c.operators[k].spec.systemAccount);
      var found: Res<KeyPairRef>;
      if !x.accountOk {
        found := Fail(ConditionFailed(NotFound, Wrap(Plain(ApiCallFailed))));
      } else if key !in c.accounts {
        found := Fail(ConditionFailed(NotFound, Wrap(Plain(ObjectMissing))));
      } else if !IsTrue(c.accounts[key].status.seed) {
        found := Fail(ConditionFailed(NotReady, Plain(ObjectNotReady)));
      } else {
        found := Ok(KeyPairRef(key, c.accounts[key].status.keyPair.value.publicKey));
      }
      assert found == FindSystemAccount(c, k, x.accountOk);
      hide OperatorKeysStage, FindSystemAccount, Coupled, Verdict, OperatorStatus.Coupled, OperatorStatus.Ready;
      if found.Fail? {
        status := MarkSystemAccount(status, Verdict(found.error));
        End(SystemAccountStopped, AsResult(found.error).0, AsResult(found.error).1);
        return;
      }
      status := status.MarkSystemAccountResolved(found.value);
      EnsureSigningKeysUpdated(seed, x);
    }

    method Run(x: OperatorOracle)
      requires Coupled(c) && k in c.operators && Unwritten()
      modifies this, client
      ensures PlanOf() == OperatorStages(c, k, old(status).InitializeConditions(), x)
    {
      hide SystemAccountStage, SeedStage, Coupled, Verdict, OperatorStatus.Coupled, OperatorStatus.Ready;
      status := status.InitializeConditions();
      var op := c.operators[k];
      var got, requeue := client.ReconcileSeedSecret(OperatorOwner(k, op), op.spec.seedSecretName, PrefixOperator, true, x.seed);
      if got.Fail? {
        status := MarkOperatorSeed(status, Verdict(got.error));
        End(SeedStopped, AsResult(got.error).0, AsResult(got.error).1);
        return;
      }
      SeedStageMeaning(c.secrets, OperatorOwner(k, op), op.spec.seedSecretName, PrefixOperator, true, x.seed);
      status := status.MarkSeedSecretReady(got.value.0);
      if requeue {
        End(SeedCreated, Requeue, None);
        return;
      }
      EnsureSystemAccountResolved(got.value.1, x);
    }

    // With the deferred status write.
    method Reconcile(x: OperatorOracle) returns (step: OperatorStep)
      requires Coupled(c) && k in c.operators && Unwritten() && status == c.operators[k].status && x.fetchOk
      modifies this, client
      ensures step == ReconcileOperator(c, k, x)
    {
      hide OperatorStages, Coupled, OperatorStatus.Coupled, OperatorStatus.Ready;
      Run(x);
      var op := c.operators[k];
      var after := op;
      if status != op.status {
        match x.status
        case StatusStored =>
          after := op.(status := status);
          client.writes := client.writes + [StatusWritten(k)];
        case StatusConflict => result := if error.None? then Requeue else result;
        case StatusFails => error := if error.None? then Some(Plain(ApiCallFailed)) else error;
      }
      step := OperatorStep(c.(operators := c.operators[k := after], secrets := client.store), status, client.writes, exit, result, error);
    }
  }
}
