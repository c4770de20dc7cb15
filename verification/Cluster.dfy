/**
 The objects on the API server, and the read-only checks that controllers run on them.
 */
module ClusterState {
  import opened Texts
  import opened Conditions
  import opened ConditionRuns
  import opened Lifecycles
  import opened Errors
  import opened Secrets
  import opened SigningKeys

  datatype Res<+T> = Ok(value: T) | Fail(error: Err)

  // The entry that MarkCondition leaves behind.
  function MarkedAs(m: MarkCall): (e: Entry)
    ensures e.Entry? && e.status != ConditionTrue && e.reason == m.reason && e.message == m.message
    ensures e.status == ConditionFalse <==> m.failure
  {
    if m.failure then Failed(m.reason, m.message) else Unsure(m.reason, m.message)
  }

  /******* Label selectors *******/

  type Labels = map<LabelKey, string>

  datatype Requirement =
    | In(key: LabelKey, values: set<string>)
    | NotIn(key: LabelKey, values: set<string>)
    | Exists(key: LabelKey)
    | DoesNotExist(key: LabelKey)

  datatype Selector = Unparsable | Selector(requirements: seq<Requirement>)

  predicate Meets(r: Requirement, labels: Labels) {
    match r
    case In(key, values) => key in labels && labels[key] in values
    case NotIn(key, values) => key in labels ==> labels[key] !in values
    case Exists(key) => key in labels
    case DoesNotExist(key) => key !in labels
  }

  predicate Matches(s: Selector, labels: Labels) {
    s.Selector? && forall r :: r in s.requirements ==> Meets(r, labels)
  }

  // A selector that does not look at a label, and labels that differ in that one only.
  predicate BlindTo(s: Selector, own: LabelKey) {
    s.Selector? && forall r :: r in s.requirements ==> r.key != own
  }

  predicate SameBut(a: Labels, b: Labels, own: LabelKey) {
    a - {own} == b - {own}
  }

  lemma BlindMatches(s: Selector, a: Labels, b: Labels, own: LabelKey)
    requires BlindTo(s, own) && SameBut(a, b, own) && Matches(s, a)
    ensures Matches(s, b)
  {
    forall r | r in s.requirements ensures Meets(r, b) {
      assert Meets(r, a);
      assert r.key in a <==> r.key in a - {own};
      assert r.key in b <==> r.key in b - {own};
    }
  }

  /******* Objects *******/

  // An empty namespace stands for the referring object's own.
  datatype IssuerRef = IssuerRef(kind: Kind, ns: string, name: string)

  datatype OperatorSpec = OperatorSpec(
    jwtSecretName: string, seedSecretName: string, systemAccount: string,
    accountsNamespaceSelector: Option<Selector>, accountsSelector: Option<Selector>,
    signingKeysSelector: Option<Selector>, config: string)

  datatype Operator = Operator(uid: string, spec: OperatorSpec, status: OperatorStatus)

  datatype AccountSpec = AccountSpec(
    issuer: IssuerRef, jwtSecretName: string, seedSecretName: string,
    signingKeysSelector: Option<Selector>,
    usersNamespaceSelector: Option<Selector>, usersSelector: Option<Selector>, config: string)

  datatype Account = Account(
    uid: string, labels: Labels, finalizers: set<Finalizer>, deleting: bool, spec: AccountSpec, status: AccountStatus)

  datatype UserSpec = UserSpec(
    issuer: IssuerRef, jwtSecretName: string, seedSecretName: string, credentialsSecretName: string,
    limits: string, bearerToken: Option<bool>, permissions: Option<string>)

  datatype User = User(uid: string, labels: Labels, spec: UserSpec, status: UserStatus)

  datatype SigningKeySpec = SigningKeySpec(ownerKind: Kind, ownerName: string, seedSecretName: string)

  datatype SigningKey = SigningKey(key: Key, uid: string, labels: Labels, spec: SigningKeySpec, status: SigningKeyStatus)

  datatype Cluster = Cluster(
    namespaces: map<string, Labels>,
    operators: map<Key, Operator>,
    accounts: map<Key, Account>,
    users: map<Key, User>,
    signingKeys: seq<SigningKey>,
    secrets: Store)

  // Every stored status pairs its conditions with its fields.
  ghost predicate Coupled(c: Cluster) {
    && (forall k :: k in c.operators ==> c.operators[k].status.Coupled())
    && (forall k :: k in c.accounts ==> c.accounts[k].status.Coupled())
    && (forall k :: k in c.users ==> c.users[k].status.Coupled())
    && (forall sk :: sk in c.signingKeys ==> sk.status.Coupled())
  }

  function GetSigningKey(sks: seq<SigningKey>, key: Key): (r: Option<SigningKey>)
    ensures r.Some? ==> r.value in sks && r.value.key == key
    ensures r.None? ==> forall sk :: sk in sks ==> sk.key != key
  {
    if sks == [] then None
    else if sks[0].key == key then Some(sks[0])
    else GetSigningKey(sks[1..], key)
  }

  // The SigningKeys of a namespace that a selector admits; no selector admits all.
  function ListKeys(sks: seq<SigningKey>, ns: string, selector: Option<Selector>): (r: seq<SigningKey>)
    ensures forall sk :: sk in r ==> sk in sks
  {
    if sks == [] then []
    else
      var rest := ListKeys(sks[1..], ns, selector);
      if sks[0].key.ns == ns && (selector.Some? ==> Matches(selector.value, sks[0].labels)) then [sks[0]] + rest else rest
  }

  // Exactly those,
  lemma {:induction false} ListKeysMeaning(sks: seq<SigningKey>, ns: string, selector: Option<Selector>)
    ensures forall sk :: sk in ListKeys(sks, ns, selector) <==>
                         sk in sks && sk.key.ns == ns && (selector.None? || Matches(selector.value, sk.labels))
  {
    if sks != [] { ListKeysMeaning(sks[1..], ns, selector); }
  }

  // in their order and as often as they stand there.
  lemma {:induction false} ListKeysInOrder(a: seq<SigningKey>, b: seq<SigningKey>, ns: string, selector: Option<Selector>)
    ensures ListKeys(a + b, ns, selector) == ListKeys(a, ns, selector) + ListKeys(b, ns, selector)
  {
    if a == [] {
      assert a + b == b;
    } else {
      assert (a + b)[1..] == a[1..] + b;
      ListKeysInOrder(a[1..], b, ns, selector);
    }
  }

  function AsListed(sks: seq<SigningKey>): (r: seq<ListedKey>)
    ensures |r| == |sks|
    ensures forall i :: 0 <= i < |r| ==> r[i] == ListedKey(sks[i].key.name, sks[i].status)
  {
    seq(|sks|, i requires 0 <= i < |sks| => ListedKey(sks[i].key.name, sks[i].status))
  }

  /******* resolveIssuer *******/

  datatype KeyPairable =
    | IssuerOperator(key: Key, operator: Operator)
    | IssuerAccount(key: Key, account: Account)
    | IssuerSigningKey(key: Key, signingKey: SigningKey)
  {
    function GetKeyPair(): Option<KeyPair> {
      match this
      case IssuerOperator(_, o) => o.status.keyPair
      case IssuerAccount(_, a) => a.status.keyPair
      case IssuerSigningKey(_, s) => s.status.keyPair
    }

    predicate Ready() {
      match this
      case IssuerOperator(_, o) => o.status.Ready()
      case IssuerAccount(_, a) => a.status.Ready()
      case IssuerSigningKey(_, s) => s.status.Ready()
    }
  }

  function IssuerKey(ref: IssuerRef, fallback: string): Key {
    Key(if ref.ns != "" then ref.ns else fallback, ref.name)
  }

  function GetKeyPairable(c: Cluster, kind: Kind, key: Key): Option<KeyPairable> {
    match kind
    case KindOperator => if key in c.operators then Some(IssuerOperator(key, c.operators[key])) else None
    case KindAccount => if key in c.accounts then Some(IssuerAccount(key, c.accounts[key])) else None
    case KindSigningKey =>
      var sk := GetSigningKey(c.signingKeys, key);
      if sk.Some? then Some(IssuerSigningKey(key, sk.value)) else None
    case _ => None
  }

  function ResolveIssuer(c: Cluster, ref: IssuerRef, fallback: string, callOk: bool): Res<KeyPairable> {
    if ref.kind == KindUnregistered then
      Fail(TerminalError(ConditionFailed(UnsupportedIssuer, Plain(WrongKind))))
    else if !callOk then
      Fail(ConditionUncertain(UnknownError, Wrap(Plain(ApiCallFailed))))
    else if ref.kind == KindUser || ref.kind == KindOther then
      if ref.kind == KindUser && IssuerKey(ref, fallback) !in c.users then
        Fail(TemporaryError(ConditionFailed(NotFound, Plain(ObjectMissing))))
      else
        Fail(TerminalError(ConditionFailed(UnsupportedIssuer, Plain(WrongKind))))
    else
      match GetKeyPairable(c, ref.kind, IssuerKey(ref, fallback))
      case None => Fail(TemporaryError(ConditionFailed(NotFound, Plain(ObjectMissing))))
      case Some(kp) =>
        if !kp.Ready() then Fail(TemporaryError(ConditionFailed(NotReady, Plain(ObjectNotReady))))
        else Ok(kp)
  }

  // Where an issuer reference points.
  predicate IssuerIs(c: Cluster, ref: IssuerRef, fallback: string, kp: KeyPairable) {
    && kp.key.name == ref.name && kp.key.ns == (if ref.ns == "" then fallback else ref.ns)
    && match kp
       case IssuerOperator(key, op) => ref.kind == KindOperator && key in c.operators && c.operators[key] == op
       case IssuerAccount(key, acc) => ref.kind == KindAccount && key in c.accounts && c.accounts[key] == acc
       case IssuerSigningKey(key, sk) => ref.kind == KindSigningKey && sk in c.signingKeys && sk.key == key
  }

  // All conditions of the issuer's own kind are True.
  predicate IssuerReady(kp: KeyPairable) {
    match kp
    case IssuerOperator(_, op) => IsTrue(op.status.seed) && IsTrue(op.status.system) && IsTrue(op.status.keys) && IsTrue(op.status.jwt)
    case IssuerAccount(_, acc) =>
      && IsTrue(acc.status.seed) && IsTrue(acc.status.operator) && IsTrue(acc.status.issuer)
      && IsTrue(acc.status.keys) && IsTrue(acc.status.jwt) && IsTrue(acc.status.pushed)
    case IssuerSigningKey(_, sk) => IsTrue(sk.status.seed) && IsTrue(sk.status.owner)
  }

  // No two SigningKeys share a namespace and a name.
  ghost predicate KeysDistinct(c: Cluster) {
    forall a, b :: a in c.signingKeys && b in c.signingKeys && a.key == b.key ==> a == b
  }

  // A reference resolves exactly to the object it names, in its own or else the fallback namespace,
  // when that is there and Ready and the call succeeds.
  lemma IssuerResolvesIff(c: Cluster, ref: IssuerRef, fallback: string, callOk: bool)
    ensures var r := ResolveIssuer(c, ref, fallback, callOk);
            && (r.Ok? ==> callOk && IssuerIs(c, ref, fallback, r.value) && IssuerReady(r.value))
            && (KeysDistinct(c) ==> forall kp :: r == Ok(kp) <==> callOk && IssuerIs(c, ref, fallback, kp) && IssuerReady(kp))
  {
    var r := ResolveIssuer(c, ref, fallback, callOk);
    if KeysDistinct(c) {
      forall kp | callOk && IssuerIs(c, ref, fallback, kp) && IssuerReady(kp) ensures r == Ok(kp) {
        assert kp.key == IssuerKey(ref, fallback);
        if kp.IssuerSigningKey? {
          assert GetSigningKey(c.signingKeys, kp.key) == Some(kp.signingKey);
        }
      }
    }
  }

  // What a failure says and whether it is retried: a missing or unready issuer is, a call that failed goes to
  // the runtime, a kind that cannot issue is final.
  lemma IssuerFailureMeaning(c: Cluster, ref: IssuerRef, fallback: string, callOk: bool)
    requires ResolveIssuer(c, ref, fallback, callOk).Fail?
    ensures var e := ResolveIssuer(c, ref, fallback, callOk).error;
            var final := ref.kind == KindUnregistered || (callOk && (ref.kind == KindOther
                         || (ref.kind == KindUser && Key(if ref.ns == "" then fallback else ref.ns, ref.name) in c.users)));
            && (final ==> AsResult(e) == (Done, None) && Verdict(e).failure && Verdict(e).reason == UnsupportedIssuer)
            && (!final && !callOk ==> AsResult(e) == (Done, Some(e)) && !Verdict(e).failure && Verdict(e).reason == UnknownError)
            && (!final && callOk ==> AsResult(e) == (Requeue, None) && Verdict(e).failure && (Verdict(e).reason == NotFound || Verdict(e).reason == NotReady))
            && (!final && callOk && Verdict(e).reason == NotReady ==>
                  exists kp :: IssuerIs(c, ref, fallback, kp) && !IssuerReady(kp))
  {
    var got := GetKeyPairable(c, ref.kind, IssuerKey(ref, fallback));
    if got.Some? { assert IssuerIs(c, ref, fallback, got.value); }
  }

  // So for what a reconcile returns.
  predicate IssuerReturns(c: Cluster, ref: IssuerRef, fallback: string, callOk: bool, result: CtrlResult, error: Option<Err>) {
    var final := ref.kind == KindUnregistered || (callOk && (ref.kind == KindOther
                 || (ref.kind == KindUser && Key(if ref.ns == "" then fallback else ref.ns, ref.name) in c.users)));
    (error.Some? <==> !final && !callOk) && (result == Requeue <==> !final && callOk)
  }

  lemma IssuerFailureReturns(c: Cluster, ref: IssuerRef, fallback: string, callOk: bool)
    requires ResolveIssuer(c, ref, fallback, callOk).Fail?
    ensures var r := AsResult(ResolveIssuer(c, ref, fallback, callOk).error); IssuerReturns(c, ref, fallback, callOk, r.0, r.1)
  {
    IssuerFailureMeaning(c, ref, fallback, callOk);
    hide ResolveIssuer, Verdict;
  }

  // The branches for an issuer without a key pair cannot be taken after resolveIssuer.
  lemma ResolvedIssuerHasKeyPair(c: Cluster, ref: IssuerRef, fallback: string, callOk: bool)
    requires Coupled(c) && ResolveIssuer(c, ref, fallback, callOk).Ok?
    ensures ResolveIssuer(c, ref, fallback, callOk).value.GetKeyPair().Some?
  {
  }

  lemma IssuerOfKeyCoupled(c: Cluster, ref: IssuerRef, fallback: string, callOk: bool)
    requires Coupled(c) && ResolveIssuer(c, ref, fallback, callOk).Ok?
    ensures var issuer := ResolveIssuer(c, ref, fallback, callOk).value;
            issuer.IssuerSigningKey? ==> issuer.signingKey.status.Coupled()
  {
  }

  // All that later stages rely on.
  lemma ResolvedIssuer(c: Cluster, ref: IssuerRef, fallback: string, callOk: bool)
    requires Coupled(c) && ResolveIssuer(c, ref, fallback, callOk).Ok?
    ensures var issuer := ResolveIssuer(c, ref, fallback, callOk).value;
            && callOk && IssuerIs(c, ref, fallback, issuer) && IssuerReady(issuer) && issuer.GetKeyPair().Some?
            && (issuer.IssuerSigningKey? ==> issuer.signingKey.status.Coupled())
  {
    IssuerResolvesIff(c, ref, fallback, callOk);
    IssuerOfKeyCoupled(c, ref, fallback, callOk);
    ResolvedIssuerHasKeyPair(c, ref, fallback, callOk);
    hide ResolveIssuer, IssuerIs, IssuerReady;
  }

  /******* resolveSigningKeyOwner *******/

  datatype OwnerObject =
    | OwnedByOperator(key: Key, operator: Operator)
    | OwnedByAccount(key: Key, account: Account)
    | OwnedByOther

  function ResolveSigningKeyOwner(c: Cluster, sk: SigningKey, callOk: bool): Res<OwnerObject>
    requires sk.status.Coupled()
  {
    if !IsTrue(sk.status.owner) then
      Fail(TemporaryError(ConditionUncertain(NotReady, Plain(ObjectNotReady))))
    else
      var ref := sk.status.ownerRef.value;
      var key := Key(ref.ns, ref.name);
      if ref.kind == KindUnregistered then
        Fail(TemporaryError(ConditionFailed(InvalidSigningKeyOwner, Plain(WrongKind))))
      else if !callOk then
        Fail(ConditionUncertain(UnknownError, Wrap(Plain(ApiCallFailed))))
      else if ref.kind == KindOperator && key in c.operators then Ok(OwnedByOperator(key, c.operators[key]))
      else if ref.kind == KindAccount && key in c.accounts then Ok(OwnedByAccount(key, c.accounts[key]))
      else if ref.kind == KindOperator || ref.kind == KindAccount then
        Fail(TemporaryError(ConditionFailed(NotFound, Plain(ObjectMissing))))
      else Ok(OwnedByOther)
  }

  // The owner is looked up by the reference in the key's status, and by nothing else.
  lemma KeyOwnerIff(c: Cluster, sk: SigningKey, callOk: bool)
    requires sk.status.Coupled()
    ensures var r := ResolveSigningKeyOwner(c, sk, callOk);
            && (forall key, op :: r == Ok(OwnedByOperator(key, op)) <==>
                  && callOk && sk.status.ownerRef.Some? && sk.status.ownerRef.value.kind == KindOperator
                  && key.ns == sk.status.ownerRef.value.ns && key.name == sk.status.ownerRef.value.name
                  && key in c.operators && op == c.operators[key])
            && (forall key, acc :: r == Ok(OwnedByAccount(key, acc)) <==>
                  && callOk && sk.status.ownerRef.Some? && sk.status.ownerRef.value.kind == KindAccount
                  && key.ns == sk.status.ownerRef.value.ns && key.name == sk.status.ownerRef.value.name
                  && key in c.accounts && acc == c.accounts[key])
            && (r.Fail? ==> (AsResult(r.error) == (Requeue, None) <==>
                  sk.status.ownerRef.None? || sk.status.ownerRef.value.kind == KindUnregistered || callOk))
  {
  }

  /******* validateOperatorSelector and validateAccountSelector *******/

  function ValidateSelectors(c: Cluster, parentNs: string, nsSelector: Option<Selector>, selector: Option<Selector>,
                             childNs: string, childLabels: Labels, callOk: bool): Res<()>
  {
    if !callOk || childNs !in c.namespaces then
      Fail(TemporaryError(Wrap(Plain(ApiCallFailed))))
    else if nsSelector.Some? && nsSelector.value.Unparsable? then
      Fail(TerminalError(Wrap(Plain(SelectorInvalid))))
    else if !(if nsSelector.None? then parentNs == childNs else Matches(nsSelector.value, c.namespaces[childNs])) then
      Fail(TerminalError(ConditionFailed(NotAllowed, Plain(SelectorMismatch))))
    else if selector.None? then Ok(())
    else if selector.value.Unparsable? then
      Fail(TerminalError(Wrap(Plain(SelectorInvalid))))
    else if !Matches(selector.value, childLabels) then
      Fail(TerminalError(ConditionFailed(NotAllowed, Plain(SelectorMismatch))))
    else Ok(())
  }

  // No namespace selector means the parent's own namespace; no selector means any labels.
  predicate NamespaceAllowed(parentNs: string, selector: Option<Selector>, ns: string, labels: Labels) {
    match selector
    case None => ns == parentNs
    case Some(s) => Matches(s, labels)
  }

  predicate LabelsAllowed(selector: Option<Selector>, labels: Labels) {
    selector.Some? ==> Matches(selector.value, labels)
  }

  // A child is admitted exactly when its namespace and its labels are allowed; a refusal is never
  // retried, only a failure to read the namespace is. It is marked as a failure unless a selector that
  // does not parse comes first.
  lemma AdmittedIff(c: Cluster, parentNs: string, nsSelector: Option<Selector>, selector: Option<Selector>,
                    childNs: string, childLabels: Labels, callOk: bool)
    ensures var r := ValidateSelectors(c, parentNs, nsSelector, selector, childNs, childLabels, callOk);
            && (r.Ok? <==>
                  && callOk && childNs in c.namespaces
                  && NamespaceAllowed(parentNs, nsSelector, childNs, c.namespaces[childNs]) && LabelsAllowed(selector, childLabels))
            && (r.Fail? ==> AsResult(r.error) == (CtrlResult(!callOk || childNs !in c.namespaces), None))
            && (r.Fail? ==>
                  (Verdict(r.error).failure <==>
                     && callOk && childNs in c.namespaces && nsSelector != Some(Unparsable)
                     && (selector == Some(Unparsable) ==> !NamespaceAllowed(parentNs, nsSelector, childNs, c.namespaces[childNs]))))
            && (r.Fail? ==> Verdict(r.error).reason == if Verdict(r.error).failure then NotAllowed else UnknownError)
  {
  }

  /******* Issuer seeds *******/

  // The checks both loadIssuerSeed functions make once they hold the secret.
  function CheckIssuerSeed(s: Secret, wantPrefix: Prefix, wantKey: string): Res<Seed> {
    if SeedKey !in s.data then
      Fail(TerminalError(ConditionFailed(MalformedSeedSecret, Plain(FieldMissing))))
    else if !s.data[SeedKey].SeedBlob? then
      Fail(TerminalError(ConditionFailed(MalformedSeedSecret, Plain(FieldUnparsable))))
    else
      var seed := s.data[SeedKey].seed;
      if seed.prefix != wantPrefix then
        Fail(TerminalError(ConditionFailed(MalformedSeedSecret, Plain(WrongPrefix))))
      else if PublicKey(seed) != wantKey then
        Fail(TerminalError(ConditionFailed(PublicKeyMismatch, Plain(WrongKey))))
      else Ok(seed)
  }

  // BaseReconciler.loadIssuerSeed
  function LoadIssuerSeed(c: Cluster, issuer: KeyPairable, wantPrefix: Prefix, callOk: bool): Res<Seed> {
    if issuer.GetKeyPair().None? then
      Fail(ConditionFailed(UnknownError, Plain(FieldMissing)))
    else
      var kp := issuer.GetKeyPair().value;
      var key := Key(issuer.key.ns, kp.seedSecretName);
      if !callOk then Fail(ConditionUncertain(IssuerSeedError, Plain(ApiCallFailed)))
      else if key !in c.secrets then Fail(TemporaryError(ConditionFailed(NotFound, Plain(ObjectMissing))))
      else CheckIssuerSeed(c.secrets[key], wantPrefix, kp.publicKey)
  }

  // AccountReconciler.loadIssuerSeed, which shadows it; a nil error ends the reconcile quietly.
  function LoadAccountIssuerSeed(c: Cluster, issuer: KeyPairable, callOk: bool): Res<Seed> {
    if issuer.GetKeyPair().None? then
      Fail(TerminalError(ConditionFailed(UnknownError, Plain(FieldMissing))))
    else
      var kp := issuer.GetKeyPair().value;
      var key := Key(issuer.key.ns, kp.seedSecretName);
      if !callOk then Fail(ConditionUncertain(IssuerSeedError, Plain(ApiCallFailed)))
      else if key !in c.secrets then Fail(TerminalError(ConditionUncertain(IssuerSeedError, Plain(ObjectMissing))))
      else CheckIssuerSeed(c.secrets[key], PrefixOperator, kp.publicKey)
  }

  // The seed is the one in the secret that the issuer's status names, in the issuer's namespace; it loads
  // exactly when it is there, of the wanted kind, with the public key that the status publishes.
  predicate SeedOfIssuer(c: Cluster, issuer: KeyPairable, wantPrefix: Prefix, seed: Seed) {
    && issuer.GetKeyPair().Some?
    && var kp := issuer.GetKeyPair().value;
       var q := Key(issuer.key.ns, kp.seedSecretName);
    && q in c.secrets && SeedKey in c.secrets[q].data && c.secrets[q].data[SeedKey] == SeedBlob(seed)
    && seed.prefix == wantPrefix && PublicKey(seed) == kp.publicKey
  }

  lemma IssuerSeedLoadsIff(c: Cluster, issuer: KeyPairable, wantPrefix: Prefix, callOk: bool, seed: Seed)
    ensures LoadIssuerSeed(c, issuer, wantPrefix, callOk) == Ok(seed) <==> callOk && SeedOfIssuer(c, issuer, wantPrefix, seed)
    ensures LoadAccountIssuerSeed(c, issuer, callOk) == Ok(seed) <==> callOk && SeedOfIssuer(c, issuer, PrefixOperator, seed)
  {
  }

  // A seed secret that is there but does not load is final: the field or the kind of its seed is wrong, or
  // the seed is not the published one.
  lemma IssuerSeedRefused(c: Cluster, issuer: KeyPairable, wantPrefix: Prefix)
    requires issuer.GetKeyPair().Some? && Key(issuer.key.ns, issuer.GetKeyPair().value.seedSecretName) in c.secrets
    requires LoadIssuerSeed(c, issuer, wantPrefix, true).Fail?
    ensures var e, s := LoadIssuerSeed(c, issuer, wantPrefix, true).error, c.secrets[Key(issuer.key.ns, issuer.GetKeyPair().value.seedSecretName)];
            && AsResult(e) == (Done, None) && Verdict(e).failure
            && Verdict(e).reason == if SeedKey in s.data && s.data[SeedKey].SeedBlob? && s.data[SeedKey].seed.prefix == wantPrefix
                                    then PublicKeyMismatch else MalformedSeedSecret
    ensures wantPrefix == PrefixOperator ==> LoadAccountIssuerSeed(c, issuer, true) == LoadIssuerSeed(c, issuer, wantPrefix, true)
  {
  }

  // A seed that loads is of the wanted kind and is the one the issuer's status publishes.
  lemma LoadedSeedIsPublished(c: Cluster, issuer: KeyPairable, wantPrefix: Prefix, callOk: bool)
    ensures LoadIssuerSeed(c, issuer, wantPrefix, callOk).Ok? ==>
              var seed := LoadIssuerSeed(c, issuer, wantPrefix, callOk).value;
              issuer.GetKeyPair().Some? && seed.prefix == wantPrefix && PublicKey(seed) == issuer.GetKeyPair().value.publicKey
    ensures LoadAccountIssuerSeed(c, issuer, callOk).Ok? ==>
              var seed := LoadAccountIssuerSeed(c, issuer, callOk).value;
              issuer.GetKeyPair().Some? && seed.prefix == PrefixOperator && PublicKey(seed) == issuer.GetKeyPair().value.publicKey
  {
  }
}
