/**
 SigningKeyReconciler as it runs: each stage marks a live condition list in place, and the status is
 stored at the end. Proved against SigningKeyController.
 */
module SigningKeyReconcilers {
  import opened Texts
  import opened Lifecycles
  import opened LiveStatuses
  import opened Errors
  import opened Secrets
  import opened ClusterState
  import opened SecretStages
  import opened SecretClients
  import opened SigningKeyController

  datatype KeyOutcome = KeyOutcome(exit: KeyExit, result: CtrlResult, error: Option<Err>)

  class SigningKeyReconciler {
    const c: Cluster
    const sk: SigningKey
    const client: SecretClient
    const status: LiveSigningKeyStatus
    // the copy on the server, which only an update brings back
    const stored: LiveSigningKeyStatus
    var labels: Labels

    // The object has been fetched; its status is the one stored.
    constructor (c: Cluster, sk: SigningKey, status: LiveSigningKeyStatus, stored: LiveSigningKeyStatus)
      requires status.Valid() && stored.Valid() && stored != status && stored.base != status.base
      requires status.View() == stored.View() == sk.status
      ensures this.c == c && this.sk == sk && this.status == status && this.stored == stored && fresh(client)
      ensures Valid() && Unwritten()
    {
      this.c, this.sk, this.status, this.stored := c, sk, status, stored;
      client := new SecretClient(c.secrets);
      labels := sk.labels;
    }

    ghost predicate Valid()
      reads status, status.base, stored, stored.base
    {
      && status.Valid() && stored.Valid() && stored != status && stored.base != status.base && stored.View() == sk.status
    }

    ghost predicate Unwritten()
      reads this, client
    {
      client.store == c.secrets && client.writes == [] && labels == sk.labels
    }

    ghost function PlanOf(r: KeyOutcome): KeyPlan
      reads this, client, status, status.base
    {
      KeyPlan(status.View(), labels, client.store, client.writes, r.exit, r.result, r.error)
    }

    method EnsureKeyPair(x: KeyOracle, now: int) returns (r: KeyOutcome)
      requires Valid() && Unwritten()
      modifies this, client, status, status.base
      ensures Valid() && PlanOf(r) == KeyPairStage(c, sk, old(status.View()), x)
    {
      hide LiveSigningKeyStatus.Valid, LiveSigningKeyStatus.View, SigningKeyStatus.Coupled;
      var key, name := Key(sk.key.ns, sk.spec.seedSecretName), sk.spec.seedSecretName;
      if !x.getOk { return KeyOutcome(KeyPairNotReady, Done, Some(Wrap(Plain(ApiCallFailed)))); }
      if key in client.store {
        status.MarkSeedSecretReady(PublicKeyField(client.store[key]), name, now);
        return KeyOutcome(KeyPairFound, Done, None);
      }
      var prefix := KeyPrefix(sk.spec.ownerKind);
      if prefix.None? { return KeyOutcome(KeyPairNotReady, Done, Some(Wrap(Plain(WrongKind)))); }
      if x.newKey.None? { return KeyOutcome(KeyPairNotReady, Done, Some(Wrap(Plain(KeyGenerationFailed)))); }
      var seed := Seed(prefix.value, x.newKey.value);
      if !CanCreate(client.store, key, x.createOk) { return KeyOutcome(KeyPairNotReady, Done, Some(Wrap(Plain(ApiCallFailed)))); }
      client.store := client.store[key := NewKeySecret(sk, seed)];
      client.writes := client.writes + [SecretWritten(key)];
      status.MarkSeedSecretReady(PublicKey(seed), name, now);
      return KeyOutcome(KeyPairCreated, Requeue, None);
    }

    method ReconcileLabels(ref: TypedRef, x: KeyOracle, now: int) returns (r: KeyOutcome)
      requires Valid() && Unwritten()
      modifies this, client, status, status.base
      ensures Valid() && PlanOf(r) == KeyLabelStage(c, sk, old(status.View()), ref, x)
    {
      hide LiveSigningKeyStatus.Valid, LiveSigningKeyStatus.View, SigningKeyStatus.Coupled, KeyPairStage;
      var l := OwnerLabel(ref.kind);
      if (if l in labels then labels[l] else "") == ref.name {
        r := EnsureKeyPair(x, now);
        return;
      }
      if !x.updateOk { return KeyOutcome(KeyLabelNotWritten, Done, Some(Plain(ApiCallFailed))); }
      labels := labels[l := ref.name];
      client.writes := client.writes + [ObjectWritten(sk.key)];
      if x.refreshes { status.Decode(stored); }
      return KeyOutcome(KeyLabelWritten, Requeue, None);
    }

    // ensureOwnerResolved marks by cause; its caller marks once more.
    method MarkUnowned(e: Err, now: int)
      requires Valid()
      modifies status, status.base
      ensures Valid() && status.View() == old(status.View()).MarkOwnerResolveFailed(UnknownError, Report(e))
    {
      hide LiveSigningKeyStatus.Valid, LiveSigningKeyStatus.View, SigningKeyStatus.Coupled;
      if e == Plain(ObjectMissing) {
        status.MarkOwnerResolveFailed(NotFound, Report(e), now);
      } else if e == Plain(ApiCallFailed) {
        status.MarkOwnerResolveUnknown(UnknownError, Report(e), now);
      } else {
        status.MarkOwnerResolveFailed(NotAllowed, Report(e), now);
      }
      status.MarkOwnerResolveFailed(UnknownError, Report(e), now);
    }

    method Run(x: KeyOracle, now: int) returns (r: KeyOutcome)
      requires Valid() && Unwritten()
      modifies this, client, status, status.base
      ensures Valid() && PlanOf(r) == KeyStages(c, sk, old(status.View()).InitializeConditions(), x)
    {
      hide LiveSigningKeyStatus.Valid, LiveSigningKeyStatus.View, SigningKeyStatus.Coupled, KeyPairStage, KeyLabelStage, FindKeyOwner;
      status.InitializeConditions(now);
      match FindKeyOwner(c, sk, x.ownerOk)
      case Unowned(e) =>
        MarkUnowned(e, now);
        return KeyOutcome(OwnerNotResolved, AsResult(e).0, AsResult(e).1);
      case UnsupportedOwner =>
        status.MarkOwnerResolveFailed(OtherReason("UnsupportedOwnerKind"), Reports(WrongKind), now);
        r := EnsureKeyPair(x, now);
        return;
      case Owned(ref) =>
        status.MarkOwnerResolved(ref, now);
        r := ReconcileLabels(ref, x, now);
        return;
    }

    // With the deferred status write.
    method Reconcile(x: KeyOracle, now: int) returns (step: KeyStep)
      requires Coupled(c) && GetSigningKey(c.signingKeys, sk.key) == Some(sk)
      requires Valid() && Unwritten() && status.View() == sk.status && x.fetchOk
      modifies this, client, status, status.base
      ensures step == ReconcileKey(c, sk.key, x)
    {
      hide LiveSigningKeyStatus.Valid, LiveSigningKeyStatus.View, SigningKeyStatus.Coupled, KeyStages, Coupled;
      var r := Run(x, now);
      var result, error := r.result, r.error;
      var after := sk.(labels := labels);
      if status.View() != sk.status {
        match x.status
        case StatusStored =>
          after := after.(status := status.View());
          client.writes := client.writes + [StatusWritten(sk.key)];
        case StatusConflict => result := if error.None? then Requeue else result;
        case StatusFails => error := if error.None? then Some(Plain(ApiCallFailed)) else error;
      }
      step := KeyStep(c.(signingKeys := Replaced(c.signingKeys, sk.key, after), secrets := client.store), status.View(), client.writes, r.exit, result, error);
    }
  }
}
