/**
 UserReconciler as it runs: status fields are assigned stage by stage, secrets are built in place
 and written, and the status is stored at the end. Proved against UserController.
 */
module UserReconcilers {
  import opened Texts
  import opened Lifecycles
  import opened Errors
  import opened Secrets
  import opened ClusterState
  import opened SecretStages
  import opened SecretClients
  import opened ClaimsBuilders
  import opened UserController

  class UserReconciler {
    const c: Cluster
    const k: Key
    const client: SecretClient
    var status: UserStatus
    var labels: Labels
    var exit: UserExit
    var result: CtrlResult
    var error: Option<Err>

    constructor (c: Cluster, k: Key)
      requires k in c.users
      ensures this.c == c && this.k == k && fresh(client) && Unwritten() && status == c.users[k].status
    {
      this.c, this.k := c, k;
      client := new SecretClient(c.secrets);
      status, labels, exit, result, error := c.users[k].status, c.users[k].labels, UserCompleted, Done, None;
    }

    ghost predicate Unwritten()
      reads this, client
    {
      k in c.users && client.store == c.secrets && client.writes == [] && labels == c.users[k].labels
    }

    ghost function PlanOf(): UserPlan
      reads this, client
    {
      UserPlan(status, labels, client.store, client.writes, exit, result, error)
    }

    method End(e: UserExit, r: CtrlResult, err: Option<Err>)
      modifies this`exit, this`result, this`error
      ensures exit == e && result == r && error == err
    {
      exit, result, error := e, r, err;
    }

    /******* Credentials *******/

    method FailCredentials(fault: Fault)
      modifies this`status, this`exit, this`result, this`error
      ensures status == old(status).MarkCredentialsSecretFailed(UnknownError, Reports(fault))
      ensures exit == CredsFailed && result == Done && error == Some(Wrap(Plain(fault)))
    {
      status := status.MarkCredentialsSecretFailed(UnknownError, Reports(fault));
      End(CredsFailed, Done, Some(Wrap(Plain(fault))));
    }

    method StoreCredentials(secret: Secret)
      requires Unwritten()
      modifies this, client
      ensures PlanOf() == StoreCreds(c, k, old(status), secret)
    {
      var key := Key(k.ns, c.users[k].spec.credentialsSecretName);
      client.store := client.store[key := secret];
      client.writes := client.writes + [SecretWritten(key)];
      status := status.MarkCredentialsSecretReady();
      End(CredsWritten, Requeue, None);
    }

    method CreateCredentialsSecret(seed: Seed, jwt: Jwt, x: CredsOracle)
      requires Unwritten()
      modifies this, client
      ensures PlanOf() == CreateCreds(c, k, old(status), seed, jwt, x)
    {
      hide BuildCredsSecret, UserStatus.Coupled, UserStatus.Ready;
      var builder := new SecretBuilder();
      var secret: Option<Secret> := None;
      if x.formatOk {
        secret := builder.BuildCreds(UserOwner(k, c.users[k]), jwt, SeedBlob(seed), CABlob(x.ca));
      }
      if secret.None? {
        FailCredentials(BuildFailed);
        return;
      }
      if !CanCreate(client.store, Key(k.ns, c.users[k].spec.credentialsSecretName), x.createOk) {
        FailCredentials(ApiCallFailed);
        return;
      }
      StoreCredentials(secret.value);
    }

    method EnsureCredentialsSecretUpToDate(seed: Seed, jwt: Jwt, x: CredsOracle)
      requires Unwritten() && Key(k.ns, c.users[k].spec.credentialsSecretName) in c.secrets
      modifies this, client
      ensures PlanOf() == UpdateCreds(c, k, old(status), seed, jwt, x)
    {
      hide BuildCredsSecret, UserStatus.Coupled, UserStatus.Ready;
      var got := client.store[Key(k.ns, c.users[k].spec.credentialsSecretName)];
      var builder := new SecretBuilder.FromSecret(got);
      var want: Option<Secret> := None;
      if x.formatOk {
        want := builder.BuildCreds(UserOwner(k, c.users[k]), jwt, SeedBlob(seed), CABlob(x.ca));
      }
      if want.None? {
        FailCredentials(BuildFailed);
        return;
      }
      if want.value == got {
        status := status.MarkCredentialsSecretReady();
        End(UserCompleted, Done, None);
        return;
      }
      if !x.updateOk {
        FailCredentials(ApiCallFailed);
        return;
      }
      StoreCredentials(want.value);
    }

    method ReconcileUserCredentialSecret(seed: Seed, jwt: Jwt, x: UserOracle)
      requires Unwritten()
      modifies this, client
      ensures PlanOf() == UserCredsStage(c, k, old(status), seed, jwt, x)
    {
      hide CreateCreds, UpdateCreds, UserStatus.Coupled, UserStatus.Ready;
      if x.creds.ca.CAFails? {
        End(CAUnavailable, Done, Some(Wrap(Plain(ApiCallFailed))));
        return;
      }
      if !x.creds.getOk {
        status := status.MarkCredentialsSecretUnknown(UnknownError, Reports(ApiCallFailed));
        End(CredsFailed, Done, Some(Wrap(Plain(ApiCallFailed))));
        return;
      }
      if Key(k.ns, c.users[k].spec.credentialsSecretName) !in client.store {
        CreateCredentialsSecret(seed, jwt, x.creds);
      } else {
        EnsureCredentialsSecretUpToDate(seed, jwt, x.creds);
      }
    }

    /******* JWT *******/

    method FailJWT(e: Err)
      modifies this`status, this`exit, this`result, this`error
      ensures status == MarkUserJWT(old(status), Verdict(e))
      ensures exit == UserJWTFailed && result == AsResult(e).0 && error == AsResult(e).1
    {
      status := MarkUserJWT(status, Verdict(e));
      End(UserJWTFailed, AsResult(e).0, AsResult(e).1);
    }

    method StoreJWT(seed: Seed, signer: Seed, acc: Account, x: UserOracle)
      requires Unwritten() && status.keyPair.Some?
      modifies this, client
      ensures PlanOf() == StoreUserJWT(c, k, old(status), seed, signer, acc, x)
    {
      hide JwtStage, UserCredsStage, UserClaimsOf, Verdict, MarkUserJWT, UserStatus.Coupled, UserStatus.Ready;
      if !x.encodeOk {
        FailJWT(TerminalError(ConditionFailed(UnknownError, Wrap(Plain(EncodeFailed)))));
        return;
      }
      var usr := c.users[k];
      var want := CreateUserClaims(k.name, usr.spec, status, acc, signer, x.iat, x.jti);
      var got := client.ReconcileJWTSecret(UserOwner(k, usr), usr.spec.jwtSecretName, want, Signed(want), x.jwt);
      if got.Fail? {
        FailJWT(got.error);
        return;
      }
      assert client.writes == [] ==> client.store == c.secrets by {
        JwtStageMeaning(c.secrets, UserOwner(k, usr), usr.spec.jwtSecretName, want, x.jwt);
      }
      status := status.MarkJWTSecretReady();
      if client.writes != [] {
        End(UserJWTWritten, Requeue, None);
        return;
      }
      ReconcileUserCredentialSecret(seed, got.value, x);
    }

    method ReconcileJWTSecret(seed: Seed, issuer: KeyPairable, acc: Account, x: UserOracle)
      requires Unwritten() && status.keyPair.Some?
      modifies this, client
      ensures PlanOf() == UserJWTStage(c, k, old(status), seed, issuer, acc, x)
    {
      hide StoreUserJWT, LoadIssuerSeed, Verdict, MarkUserJWT, MarkUserIssuer, UserStatus.Coupled, UserStatus.Ready;
      var signer := LoadIssuerSeed(c, issuer, PrefixAccount, x.issuerSeedOk);
      if signer.Fail? {
        status := MarkUserIssuer(status, Verdict(signer.error));
        FailJWT(signer.error);
        return;
      }
      status := status.MarkIssuerResolved();
      StoreJWT(seed, signer.value, acc, x);
    }

    /******* Labels, account, issuer *******/

    method ReconcileLabels(seed: Seed, issuer: KeyPairable, account: Key, acc: Account, x: UserOracle)
      requires Unwritten() && status.keyPair.Some?
      modifies this, client
      ensures PlanOf() == UserLabelStage(c, k, old(status), seed, issuer, account, acc, x)
    {
      hide UserJWTStage, UserStatus.Coupled, UserStatus.Ready;
      if AccountLabel(labels) == account.name {
        ReconcileJWTSecret(seed, issuer, acc, x);
        return;
      }
      if !x.updateOk {
        End(UserLabelNotWritten, Done, Some(Plain(ApiCallFailed)));
        return;
      }
      labels := labels[LabelAccountName := account.name];
      client.writes := client.writes + [ObjectWritten(k)];
      if x.refreshes { status := c.users[k].status; }
      End(UserLabelWritten, Requeue, None);
    }

    method FailAccount(e: Err)
      modifies this`status, this`exit, this`result, this`error
      ensures status == MarkAccount(old(status), Verdict(e))
      ensures exit == UserAccountFailed && result == AsResult(e).0 && error == AsResult(e).1
    {
      status := MarkAccount(status, Verdict(e));
      End(UserAccountFailed, AsResult(e).0, AsResult(e).1);
    }

    // resolveAccount and validateAccountSelector; an account that is not ready is not marked.
    method ResolveAccount(seed: Seed, issuer: KeyPairable, x: UserOracle)
      requires Coupled(c) && Unwritten() && status.keyPair.Some?
      requires issuer.IssuerSigningKey? ==> issuer.signingKey.status.Coupled()
      modifies this, client
      ensures PlanOf() == UserAccountStage(c, k, old(status), seed, issuer, x)
    {
      hide Coupled, FindAccount, ValidateSelectors, UserLabelStage, Verdict, MarkAccount, UserStatus.Coupled, UserStatus.Ready;
      var found := FindAccount(c, issuer, x.ownerOk);
      if found.Marked? {
        FailAccount(found.error);
        return;
      }
      if found.NotMarked? {
        End(AccountNotReady, AsResult(found.error).0, AsResult(found.error).1);
        return;
      }
      var valid := ValidateSelectors(c, found.key.ns, found.account.spec.usersNamespaceSelector, found.account.spec.usersSelector,
                                     k.ns, labels, x.namespaceOk);
      if valid.Fail? {
        FailAccount(valid.error);
        return;
      }
      status := status.MarkAccountResolved(found.key);
      ReconcileLabels(seed, issuer, found.key, found.account, x);
    }

    method ResolveIssuer(seed: Seed, x: UserOracle)
      requires Coupled(c) && Unwritten() && status.keyPair.Some?
      modifies this, client
      ensures PlanOf() == UserIssuerStage(c, k, old(status), seed, x)
    {
      hide UserAccountStage, Verdict, MarkUserIssuer, UserStatus.Coupled, UserStatus.Ready;
      var issuer := ClusterState.ResolveIssuer(c, c.users[k].spec.issuer, k.ns, x.issuerOk);
      if issuer.Fail? {
        status := MarkUserIssuer(status, Verdict(issuer.error));
        End(UserIssuerFailed, AsResult(issuer.error).0, AsResult(issuer.error).1);
        return;
      }
      ResolveAccount(seed, issuer.value, x);
    }

    /******* Reconcile *******/

    method Run(x: UserOracle)
      requires Coupled(c) && Unwritten()
      modifies this, client
      ensures PlanOf() == UserStages(c, k, old(status).InitializeConditions(), x)
    {
      hide UserIssuerStage, SeedStage, Coupled, Verdict, MarkUserSeed, UserStatus.Coupled, UserStatus.Ready;
      status := status.InitializeConditions();
      var usr := c.users[k];
      var got, requeue := client.ReconcileSeedSecret(UserOwner(k, usr), usr.spec.seedSecretName, PrefixUser, false, x.seed);
      if got.Fail? {
        status := MarkUserSeed(status, Verdict(got.error));
        End(UserSeedFailed, AsResult(got.error).0, AsResult(got.error).1);
        return;
      }
      SeedStageMeaning(c.secrets, UserOwner(k, usr), usr.spec.seedSecretName, PrefixUser, false, x.seed);
      status := status.MarkSeedSecretReady(got.value.0);
      if requeue {
        End(UserSeedWritten, Requeue, None);
        return;
      }
      ResolveIssuer(got.value.1, x);
    }

    // With the deferred status write.
    method Reconcile(x: UserOracle) returns (step: UserStep)
      requires Coupled(c) && Unwritten() && status == c.users[k].status && x.fetchOk
      modifies this, client
      ensures step == ReconcileUser(c, k, x)
    {
      hide UserStages, Coupled, UserStatus.Coupled, UserStatus.Ready;
      Run(x);
      var usr := c.users[k];
      var after := usr.(labels := labels);
      if status != usr.status {
        match x.status
        case StatusStored =>
          after := after.(status := status);
          client.writes := client.writes + [StatusWritten(k)];
        case StatusConflict => result := if error.None? then Requeue else result;
        case StatusFails => error := if error.None? then Some(Plain(ApiCallFailed)) else error;
      }
      step := UserStep(c.(users := c.users[k := after], secrets := client.store), status, client.writes, exit, result, error);
    }
  }
}
