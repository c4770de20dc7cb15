/**
 SigningKeyReconciler.Reconcile of internal/controller/accounts/signingkey_controller.go, as one atomic
 step, and what every step keeps.
 */
module SigningKeyController {
  import opened Texts
  import opened Lifecycles
  import opened Errors
  import opened Secrets
  import opened ClusterState
  import opened SecretStages

  datatype KeyOracle = KeyOracle(
    fetchOk: bool, ownerOk: bool, updateOk: bool, refreshes: bool,
    getOk: bool, newKey: Option<string>, createOk: bool, status: StatusOutcome)

  datatype KeyExit =
    | KeyNotFetched | NoKey | OwnerNotResolved | KeyLabelWritten | KeyLabelNotWritten
    | KeyPairNotReady | KeyPairCreated | KeyPairFound

  datatype KeyPlan = KeyPlan(
    status: SigningKeyStatus, labels: Labels, store: Store, writes: seq<Write>, exit: KeyExit, result: CtrlResult, error: Option<Err>)

  datatype KeyStep = KeyStep(
    c: Cluster, status: SigningKeyStatus, writes: seq<Write>, exit: KeyExit, result: CtrlResult, error: Option<Err>)

  // The object of this name, replaced.
  function Replaced(sks: seq<SigningKey>, key: Key, sk: SigningKey): seq<SigningKey> {
    if sks == [] then []
    else if sks[0].key == key then [sk] + sks[1..]
    else [sks[0]] + Replaced(sks[1..], key, sk)
  }

  function ReconcileKey(c: Cluster, k: Key, x: KeyOracle): KeyStep
    requires Coupled(c)
  {
    if !x.fetchOk then KeyStep(c, NewSigningKeyStatus, [], KeyNotFetched, Done, Some(Plain(ApiCallFailed)))
    else
      match GetSigningKey(c.signingKeys, k)
      case None => KeyStep(c, NewSigningKeyStatus, [], NoKey, Done, None)
      case Some(sk) => CloseKey(c, sk, KeyStages(c, sk, sk.status.InitializeConditions(), x), x)
  }

  function CloseKey(c: Cluster, sk: SigningKey, p: KeyPlan, x: KeyOracle): KeyStep {
    var same := p.status == sk.status;
    var stored := !same && x.status == StatusStored;
    var sk' := sk.(labels := p.labels, status := if stored then p.status else sk.status);
    KeyStep(
      c.(signingKeys := Replaced(c.signingKeys, sk.key, sk'), secrets := p.store),
      p.status,
      if stored then p.writes + [StatusWritten(sk.key)] else p.writes,
      p.exit,
      if !same && x.status == StatusConflict && p.error.None? then Requeue else p.result,
      if !same && x.status == StatusFails && p.error.None? then Some(Plain(ApiCallFailed)) else p.error)
  }

  function StopKey(c: Cluster, sk: SigningKey, s: SigningKeyStatus, exit: KeyExit, result: CtrlResult, error: Option<Err>): KeyPlan {
    KeyPlan(s, sk.labels, c.secrets, [], exit, result, error)
  }

  /******* ensureOwnerResolved *******/

  // Resolved; unsupported, which is marked and passed over; or failed, which ends the reconcile.
  datatype KeyOwner = Owned(ref: TypedRef) | UnsupportedOwner | Unowned(error: Err)

  // The last check is validateOwnerRequirements.
  function FindKeyOwner(c: Cluster, sk: SigningKey, callOk: bool): KeyOwner {
    var key, kind := Key(sk.key.ns, sk.spec.ownerName), sk.spec.ownerKind;
    if kind != KindOperator && kind != KindAccount then UnsupportedOwner
    else if !callOk then Unowned(Plain(ApiCallFailed))
    else if kind == KindOperator then
      if key !in c.operators then Unowned(Plain(ObjectMissing))
      else if !LabelsAllowed(c.operators[key].spec.signingKeysSelector, sk.labels) then Unowned(TerminalError(Plain(SelectorMismatch)))
      else Owned(TypedRef(KindOperator, key.ns, key.name, c.operators[key].uid))
    else
      if key !in c.accounts then Unowned(Plain(ObjectMissing))
      else if !LabelsAllowed(c.accounts[key].spec.signingKeysSelector, sk.labels) then Unowned(TerminalError(Plain(SelectorMismatch)))
      else Owned(TypedRef(KindAccount, key.ns, key.name, c.accounts[key].uid))
  }

  function KeyStages(c: Cluster, sk: SigningKey, s: SigningKeyStatus, x: KeyOracle): KeyPlan {
    match FindKeyOwner(c, sk, x.ownerOk)
    case Unowned(e) =>
      StopKey(c, sk, s.MarkOwnerResolveFailed(UnknownError, Report(e)), OwnerNotResolved, AsResult(e).0, AsResult(e).1)
    case UnsupportedOwner => KeyPairStage(c, sk, s.MarkOwnerResolveFailed(OtherReason("UnsupportedOwnerKind"), Reports(WrongKind)), x)
    case Owned(ref) => KeyLabelStage(c, sk, s.MarkOwnerResolved(ref), ref, x)
  }

  /******* reconcileLabels *******/

  function OwnerLabel(kind: Kind): LabelKey {
    if kind == KindOperator then LabelOperatorName else LabelAccountName
  }

  function KeyLabelStage(c: Cluster, sk: SigningKey, s: SigningKeyStatus, ref: TypedRef, x: KeyOracle): KeyPlan {
    var l := OwnerLabel(ref.kind);
    if (if l in sk.labels then sk.labels[l] else "") == ref.name then KeyPairStage(c, sk, s, x)
    else if !x.updateOk then StopKey(c, sk, s, KeyLabelNotWritten, Done, Some(Plain(ApiCallFailed)))
    else
      KeyPlan(if x.refreshes then sk.status else s, sk.labels[l := ref.name], c.secrets, [ObjectWritten(sk.key)], KeyLabelWritten, Requeue, None)
  }

  /******* ensureKeyPair *******/

  function KeyPrefix(kind: Kind): Option<Prefix> {
    match kind
    case KindAccount => Some(PrefixAccount)
    case KindOperator => Some(PrefixOperator)
    case _ => None
  }

  function NewKeySecret(sk: SigningKey, seed: Seed): Secret {
    Secret(
      map[OtherLabel("operator-name") := sk.spec.ownerName, OtherLabel("secret-type") := "skey"],
      map[SeedKey := SeedBlob(seed), PublicKeyKey := TextBlob(PublicKey(seed))],
      [OwnerRef(KindSigningKey, sk.key.name, sk.uid, true)], true, {}, false)
  }

  // The public key is taken from its own field, not derived from the seed; a field that is not
  // there reads as empty.
  function PublicKeyField(s: Secret): string {
    if PublicKeyKey in s.data && s.data[PublicKeyKey].TextBlob? then s.data[PublicKeyKey].text else ""
  }

  function KeyPairStage(c: Cluster, sk: SigningKey, s: SigningKeyStatus, x: KeyOracle): KeyPlan {
    var key, name := Key(sk.key.ns, sk.spec.seedSecretName), sk.spec.seedSecretName;
    if !x.getOk then StopKey(c, sk, s, KeyPairNotReady, Done, Some(Wrap(Plain(ApiCallFailed))))
    else if key !in c.secrets then
      var prefix := KeyPrefix(sk.spec.ownerKind);
      if prefix.None? then StopKey(c, sk, s, KeyPairNotReady, Done, Some(Wrap(Plain(WrongKind))))
      else if x.newKey.None? then StopKey(c, sk, s, KeyPairNotReady, Done, Some(Wrap(Plain(KeyGenerationFailed))))
      else if !CanCreate(c.secrets, key, x.createOk) then StopKey(c, sk, s, KeyPairNotReady, Done, Some(Wrap(Plain(ApiCallFailed))))
      else
        var seed := Seed(prefix.value, x.newKey.value);
        KeyPlan(s.MarkSeedSecretReady(PublicKey(seed), name), sk.labels, c.secrets[key := NewKeySecret(sk, seed)],
                [SecretWritten(key)], KeyPairCreated, Requeue, None)
    else StopKey(c, sk, s.MarkSeedSecretReady(PublicKeyField(c.secrets[key]), name), KeyPairFound, Done, None)
  }

  /******* What a step keeps *******/

  lemma {:induction false} ReplacedMeaning(sks: seq<SigningKey>, key: Key, sk: SigningKey)
    requires GetSigningKey(sks, key).Some? && sk.key == key
    ensures GetSigningKey(Replaced(sks, key, sk), key) == Some(sk)
    ensures forall other :: other in Replaced(sks, key, sk) ==> other == sk || other in sks
  {
    if sks[0].key != key {
      ReplacedMeaning(sks[1..], key, sk);
    }
  }

  lemma KeyPairStageMeaning(c: Cluster, sk: SigningKey, s: SigningKeyStatus, x: KeyOracle)
    requires s.Coupled()
    ensures var p := KeyPairStage(c, sk, s, x);
            && p.status.Coupled() && p.status.ownerRef == s.ownerRef
            && (p.exit == KeyPairNotReady || p.exit == KeyPairCreated || p.exit == KeyPairFound)
            && (p.exit == KeyPairNotReady ==> p.status == s)
            && (IsTrue(s.owner) && (p.exit == KeyPairCreated || p.exit == KeyPairFound) ==> p.status.Ready())
            && (!IsTrue(s.owner) ==> !p.status.Ready())
            && (p.exit == KeyPairCreated || p.store == c.secrets)
            && (p.exit == KeyPairCreated ==>
                  && Key(sk.key.ns, sk.spec.seedSecretName) !in c.secrets
                  && p.store == c.secrets[Key(sk.key.ns, sk.spec.seedSecretName) := p.store[Key(sk.key.ns, sk.spec.seedSecretName)]])
  {
    hide NewKeySecret, PublicKeyField, KeyPrefix;
  }

  // The owner's name is written under the label of its kind, and found there the next time.
  lemma KeyLabelSticks(c: Cluster, sk: SigningKey, s: SigningKeyStatus, ref: TypedRef, x: KeyOracle)
    requires KeyLabelStage(c, sk, s, ref, x).exit == KeyLabelWritten
    ensures var labels := KeyLabelStage(c, sk, s, ref, x).labels;
            && labels == sk.labels[(if ref.kind == KindOperator then LabelOperatorName else LabelAccountName) := ref.name]
            && (forall t, y :: KeyLabelStage(c, sk.(labels := labels), t, ref, y) == KeyPairStage(c, sk.(labels := labels), t, y))
  {
    assert KeyPairStage(c, sk, s, x).exit != KeyLabelWritten;
  }

  // The owner that the spec names, in the key's own namespace, is there and admits the key.
  predicate OwnerAdmits(c: Cluster, sk: SigningKey) {
    var key := Key(sk.key.ns, sk.spec.ownerName);
    || (sk.spec.ownerKind == KindOperator && key in c.operators && LabelsAllowed(c.operators[key].spec.signingKeysSelector, sk.labels))
    || (sk.spec.ownerKind == KindAccount && key in c.accounts && LabelsAllowed(c.accounts[key].spec.signingKeysSelector, sk.labels))
  }

  // The reference is to that object: its kind, namespace, name and UID.
  predicate RefersToOwner(c: Cluster, sk: SigningKey, ref: TypedRef)
    requires OwnerAdmits(c, sk)
  {
    && ref.kind == sk.spec.ownerKind && ref.ns == sk.key.ns && ref.name == sk.spec.ownerName
    && ref.uid == if sk.spec.ownerKind == KindOperator then c.operators[Key(sk.key.ns, sk.spec.ownerName)].uid
                  else c.accounts[Key(sk.key.ns, sk.spec.ownerName)].uid
  }

  // An owner is found exactly then. One that is missing or cannot be read is left to the runtime to
  // retry, a refusal is final.
  lemma OwnerFoundIff(c: Cluster, sk: SigningKey, callOk: bool)
    ensures var r := FindKeyOwner(c, sk, callOk);
            && (r.Owned? <==> callOk && OwnerAdmits(c, sk))
            && (r.Owned? ==> RefersToOwner(c, sk, r.ref))
            && (r.UnsupportedOwner? <==> sk.spec.ownerKind != KindOperator && sk.spec.ownerKind != KindAccount)
            && (r.Unowned? ==>
                  var key := Key(sk.key.ns, sk.spec.ownerName);
                  var there := if sk.spec.ownerKind == KindOperator then key in c.operators else key in c.accounts;
                  AsResult(r.error) == if callOk && there then (Done, None) else (Done, Some(r.error)))
  {
    hide LabelsAllowed;
  }

  predicate Supported(kind: Kind) { kind == KindOperator || kind == KindAccount }

  // What a step past the fetch says of the owner: unsupported, not resolved or recorded.
  predicate OwnerWell(c: Cluster, sk: SigningKey, x: KeyOracle, exit: KeyExit, s: SigningKeyStatus) {
    && (exit == OwnerNotResolved <==> Supported(sk.spec.ownerKind) && !(x.ownerOk && OwnerAdmits(c, sk)))
    && (exit == OwnerNotResolved || !Supported(sk.spec.ownerKind) ==> s.ownerRef == None && !IsTrue(s.owner) && !s.Ready())
    && (exit != OwnerNotResolved && exit != KeyLabelWritten && Supported(sk.spec.ownerKind) ==>
          OwnerAdmits(c, sk) && s.ownerRef.Some? && RefersToOwner(c, sk, s.ownerRef.value))
    && (exit == KeyLabelWritten ==> Supported(sk.spec.ownerKind))
  }

  // For every outcome: a key with its owner and its pair is Ready, and the owner recorded is the object
  // that the spec names, which admits the key; a missing or refusing owner or an unsupported kind of
  // owner means not Ready. The two failures that mark nothing, to write the label and to get the pair,
  // leave a key Ready exactly when its pair was marked before. Statuses stay coupled; no existing
  // secret changes.
  lemma KeyStepMeaning(c: Cluster, k: Key, x: KeyOracle)
    requires Coupled(c)
    ensures var st := ReconcileKey(c, k, x);
            && Coupled(st.c) && st.status.Coupled()
            && (x.fetchOk && GetSigningKey(c.signingKeys, k).Some? ==>
                  var sk := GetSigningKey(c.signingKeys, k).value;
                  && OwnerWell(c, sk, x, st.exit, st.status)
                  && (st.exit == KeyPairCreated || st.exit == KeyPairFound ==> (st.status.Ready() <==> Supported(sk.spec.ownerKind)))
                  && (st.exit == KeyLabelNotWritten || st.exit == KeyPairNotReady ==>
                        (st.status.Ready() <==> Supported(sk.spec.ownerKind) && IsTrue(sk.status.seed))))
            && st.c == c.(signingKeys := st.c.signingKeys, secrets := st.c.secrets)
            && (forall q :: q in c.secrets ==> q in st.c.secrets && st.c.secrets[q] == c.secrets[q])
  {
    assert NewSigningKeyStatus.Coupled();
    var got := GetSigningKey(c.signingKeys, k);
    if x.fetchOk && got.Some? {
      var s := got.value.status.InitializeConditions();
      KeyStagesMeaning(c, got.value, s, x);
      ClosedKeyCoupled(c, k, KeyStages(c, got.value, s, x), x);
    }
    hide KeyStages, OwnerWell, Coupled, Replaced, SigningKeyStatus.Coupled, SigningKeyStatus.Ready;
  }

  lemma ClosedKeyCoupled(c: Cluster, k: Key, p: KeyPlan, x: KeyOracle)
    requires Coupled(c) && GetSigningKey(c.signingKeys, k).Some? && p.status.Coupled()
    ensures Coupled(CloseKey(c, GetSigningKey(c.signingKeys, k).value, p, x).c)
  {
    hide SigningKeyStatus.Coupled;
    var sk := GetSigningKey(c.signingKeys, k).value;
    ReplacedMeaning(c.signingKeys, k, sk.(labels := p.labels, status := p.status));
    ReplacedMeaning(c.signingKeys, k, sk.(labels := p.labels));
  }

  lemma KeyStagesMeaning(c: Cluster, sk: SigningKey, s: SigningKeyStatus, x: KeyOracle)
    requires s.Coupled() && sk.status.Coupled()
    ensures var p := KeyStages(c, sk, s, x);
            && p.status.Coupled() && OwnerWell(c, sk, x, p.exit, p.status)
            && (p.exit == KeyPairCreated || p.exit == KeyPairFound ==> (p.status.Ready() <==> Supported(sk.spec.ownerKind)))
            && (p.exit == KeyLabelNotWritten || p.exit == KeyPairNotReady ==>
                  (p.status.Ready() <==> Supported(sk.spec.ownerKind) && IsTrue(s.seed)))
            && (forall q :: q in c.secrets ==> q in p.store && p.store[q] == c.secrets[q])
  {
    hide KeyPairStage, FindKeyOwner, OwnerAdmits, RefersToOwner;
    OwnerFoundIff(c, sk, x.ownerOk);
    match FindKeyOwner(c, sk, x.ownerOk)
    case Unowned(_) =>
    case UnsupportedOwner => KeyPairStageMeaning(c, sk, s.MarkOwnerResolveFailed(OtherReason("UnsupportedOwnerKind"), Reports(WrongKind)), x);
    case Owned(ref) => KeyPairStageMeaning(c, sk, s.MarkOwnerResolved(ref), x);
  }

  // A write comes again, a found pair is the end, a refusal is final, and every other failure goes to
  // the runtime.
  predicate KeyPlanReturns(c: Cluster, sk: SigningKey, x: KeyOracle, exit: KeyExit, result: CtrlResult, error: Option<Err>) {
    var key := Key(sk.key.ns, sk.spec.ownerName);
    var there := if sk.spec.ownerKind == KindOperator then key in c.operators else key in c.accounts;
    match exit
    case KeyLabelWritten => result == Requeue && error == None
    case KeyPairCreated => result == Requeue && error == None
    case KeyPairFound => result == Done && error == None
    case OwnerNotResolved => result == Done && (error == None <==> x.ownerOk && there)
    case _ => error.Some?
  }

  lemma KeyStagesReturn(c: Cluster, sk: SigningKey, s: SigningKeyStatus, x: KeyOracle)
    ensures var p := KeyStages(c, sk, s, x); KeyPlanReturns(c, sk, x, p.exit, p.result, p.error)
  {
    hide FindKeyOwner, NewKeySecret, PublicKeyField, KeyPrefix, SigningKeyStatus.Coupled, SigningKeyStatus.Ready;
    OwnerFoundIff(c, sk, x.ownerOk);
    hide OwnerAdmits, RefersToOwner, IntoResult;
  }

  // What is returned when the status is stored.
  lemma KeyReturns(c: Cluster, k: Key, x: KeyOracle)
    requires Coupled(c) && x.fetchOk && GetSigningKey(c.signingKeys, k).Some? && x.status == StatusStored
    ensures var st := ReconcileKey(c, k, x); KeyPlanReturns(c, GetSigningKey(c.signingKeys, k).value, x, st.exit, st.result, st.error)
  {
    hide Coupled, KeyStages, Replaced, KeyPlanReturns, SigningKeyStatus.Coupled, SigningKeyStatus.Ready;
    var sk := GetSigningKey(c.signingKeys, k).value;
    KeyStagesReturn(c, sk, sk.status.InitializeConditions(), x);
  }

  // A status that did not reach the server is written again.
  lemma KeyStatusNotLost(c: Cluster, k: Key, x: KeyOracle)
    requires Coupled(c) && x.fetchOk && GetSigningKey(c.signingKeys, k).Some?
    ensures var st, sk := ReconcileKey(c, k, x), GetSigningKey(c.signingKeys, k).value;
            && GetSigningKey(st.c.signingKeys, k).Some?
            && var status := GetSigningKey(st.c.signingKeys, k).value.status;
            && status == (if x.status == StatusStored then st.status else sk.status)
            && (status != st.status ==> st.error.Some? || st.result == Requeue)
  {
    var sk := GetSigningKey(c.signingKeys, k).value;
    var p := KeyStages(c, sk, sk.status.InitializeConditions(), x);
    hide Coupled, KeyStages, SigningKeyStatus.Coupled, SigningKeyStatus.Ready;
    ReplacedMeaning(c.signingKeys, k, sk.(labels := p.labels, status := p.status));
    ReplacedMeaning(c.signingKeys, k, sk.(labels := p.labels));
  }

  lemma NothingFetched(c: Cluster, k: Key, x: KeyOracle)
    requires Coupled(c) && (!x.fetchOk || GetSigningKey(c.signingKeys, k).None?)
    ensures var st := ReconcileKey(c, k, x);
            st.c == c && st.writes == [] && st.result == Done && (st.error == None <==> x.fetchOk)
  {
  }

  // The published key is that of the stored seed exactly when the secret's two fields agree.
  lemma PublishedKeyIff(c: Cluster, sk: SigningKey, s: SigningKeyStatus, x: KeyOracle, seed: Seed)
    requires var key := Key(sk.key.ns, sk.spec.seedSecretName); HoldsSeed(c.secrets, key, seed)
    requires KeyPairStage(c, sk, s, x).exit == KeyPairFound
    ensures var key := Key(sk.key.ns, sk.spec.seedSecretName);
            KeyPairStage(c, sk, s, x).status.keyPair.value.publicKey == PublicKey(seed) <==>
              PublicKeyKey in c.secrets[key].data && c.secrets[key].data[PublicKeyKey] == TextBlob(PublicKey(seed))
  {
    assert PublicKey(seed) != "";
  }

  // Two fields that disagree: a key is published that the seed does not have, here none at all.
  lemma WrongKeyPublished(c: Cluster, sk: SigningKey, s: SigningKeyStatus, x: KeyOracle, seed: Seed)
    requires x.getOk
    ensures var key := Key(sk.key.ns, sk.spec.seedSecretName);
            var bare := EmptySecret.(data := map[SeedKey := SeedBlob(seed)]);
            var c' := c.(secrets := c.secrets[key := bare]);
            KeyPairStage(c', sk, s, x).status.keyPair == Some(KeyPair("", sk.spec.seedSecretName))
  {
  }

  // The secret that the controller makes for a SigningKey is owned by it alone.
  lemma CreatedKeySeedIsOwned(c: Cluster, sk: SigningKey, s: SigningKeyStatus, x: KeyOracle)
    requires KeyPairStage(c, sk, s, x).exit == KeyPairCreated
    ensures var p, key := KeyPairStage(c, sk, s, x), Key(sk.key.ns, sk.spec.seedSecretName);
            && x.newKey.Some? && Supported(sk.spec.ownerKind)
            && var seed := Seed(if sk.spec.ownerKind == KindAccount then PrefixAccount else PrefixOperator, x.newKey.value);
            && OwnedSeed(p.store, key, seed, Holder(KindSigningKey, sk.key.name, sk.uid))
            && p.store[key].data.Keys == {SeedKey, PublicKeyKey} && p.store[key].data[PublicKeyKey] == TextBlob(PublicKey(seed))
            && p.store[key].immutable && p.store[key].finalizers == {}
            && Labelled(p.store[key], OtherLabel("operator-name"), sk.spec.ownerName) && Labelled(p.store[key], OtherLabel("secret-type"), "skey")
            && p.status.keyPair == Some(KeyPair(PublicKey(seed), sk.spec.seedSecretName))
  {
  }

  // A pair that the controller made is published again as it was.
  lemma CreatedPairIsFound(c: Cluster, sk: SigningKey, s: SigningKeyStatus, x: KeyOracle, t: SigningKeyStatus, y: KeyOracle)
    requires KeyPairStage(c, sk, s, x).exit == KeyPairCreated && y.getOk
    ensures var made := KeyPairStage(c, sk, s, x);
            var again := KeyPairStage(c.(secrets := made.store), sk, t, y);
            again.exit == KeyPairFound && again.writes == [] && again.status.keyPair == made.status.keyPair
  {
  }
}
