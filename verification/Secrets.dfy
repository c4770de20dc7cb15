/**
 Seeds, JWTs and the secrets that store them, with the builders under
 internal/controller/accounts/resources.

 A seed is a prefix and key material; its public key renders both. A JWT that
 decodes is a value holding its claims; anything else is malformed.
 */
module Secrets {
  import opened Texts
  import opened Lifecycles

  /******* nkeys *******/

  datatype Prefix = PrefixOperator | PrefixAccount | PrefixUser

  datatype Seed = Seed(prefix: Prefix, key: string)

  function Letter(p: Prefix): char {
    match p
    case PrefixOperator => 'O'
    case PrefixAccount => 'A'
    case PrefixUser => 'U'
  }

  function PublicKey(seed: Seed): string { [Letter(seed.prefix)] + seed.key }

  /******* JWTs *******/

  datatype ClaimsData = ClaimsData(id: string, issuedAt: int, issuer: string, subject: string, name: string)

  datatype Claims =
    | OperatorClaims(data: ClaimsData, signingKeyList: seq<string>, systemAccount: string, config: string)
    | AccountClaims(data: ClaimsData, signingKeys: set<string>, config: string)
    | UserClaims(data: ClaimsData, issuerAccount: string, limits: string, bearerToken: bool, permissions: string)

  datatype Jwt = Signed(claims: Claims) | Malformed(text: string)

  function Blanked(c: Claims): Claims {
    c.(data := c.data.(id := "", issuedAt := 0))
  }

  // nsc.Equality: claims that differ at most in their id and issue time.
  predicate Equivalent(a: Claims, b: Claims) {
    Blanked(a) == Blanked(b)
  }

  // Such claims say the same in every other field.
  lemma EquivalentSaysTheSame(a: Claims, b: Claims)
    requires Equivalent(a, b)
    ensures a.data.subject == b.data.subject && a.data.issuer == b.data.issuer && a.data.name == b.data.name
    ensures b.AccountClaims? ==> a.AccountClaims? && a.signingKeys == b.signingKeys && a.config == b.config
    ensures b.UserClaims? ==>
              && a.UserClaims? && a.issuerAccount == b.issuerAccount && a.limits == b.limits
              && a.bearerToken == b.bearerToken && a.permissions == b.permissions
    ensures b.OperatorClaims? ==>
              && a.OperatorClaims? && a.signingKeyList == b.signingKeyList && a.systemAccount == b.systemAccount && a.config == b.config
  {
    assert Blanked(a).data.name == a.data.name && Blanked(b).data.name == b.data.name;
    assert Blanked(a).data.subject == a.data.subject && Blanked(b).data.subject == b.data.subject;
    assert Blanked(a).data.issuer == a.data.issuer && Blanked(b).data.issuer == b.data.issuer;
  }

  // claims.Encode stamps the issuer, the issue time and the id.
  function Stamped(c: Claims, kp: Seed, iat: int, jti: string): Claims {
    c.(data := c.data.(issuer := PublicKey(kp), issuedAt := iat, id := jti))
  }

  /******* Secrets *******/

  datatype LabelKey =
    | LabelSecretType | LabelSecretJWTType | LabelSecretSeedType | LabelSubject
    | LabelOperatorName | LabelSigningKeyName | LabelAccountName | LabelUserName
    | OtherLabel(name: string)

  datatype DataKey = SeedKey | PublicKeyKey | JWTKey | CredsKey | CAKey | OtherKey(name: string)

  datatype Blob = SeedBlob(seed: Seed) | JwtBlob(jwt: Jwt) | CredsBlob(userJwt: Jwt, userSeed: Blob) | TextBlob(text: string)

  datatype OwnerRef = OwnerRef(kind: Kind, name: string, uid: string, controller: bool)

  datatype Finalizer = DeletionPrevention | AccountFinalizer | OtherFinalizer(name: string)

  // Name and namespace of a secret are its key in the store.
  datatype Secret = Secret(
    labels: map<LabelKey, string>,
    data: map<DataKey, Blob>,
    owners: seq<OwnerRef>,
    immutable: bool,
    finalizers: set<Finalizer>,
    deleting: bool)

  const EmptySecret: Secret := Secret(map[], map[], [], false, {}, false)

  // The object a secret is built for.
  datatype Owner = Owner(kind: Kind, key: Key, uid: string)

  /******* SetControllerReference *******/

  predicate SameObject(a: OwnerRef, b: OwnerRef) { a.kind == b.kind && a.name == b.name }

  function ControllerOf(refs: seq<OwnerRef>): Option<OwnerRef> {
    if refs == [] then None
    else if refs[0].controller then Some(refs[0])
    else ControllerOf(refs[1..])
  }

  function Upsert(refs: seq<OwnerRef>, r: OwnerRef): seq<OwnerRef> {
    if refs == [] then [r]
    else if SameObject(refs[0], r) then [r] + refs[1..]
    else [refs[0]] + Upsert(refs[1..], r)
  }

  function RefOf(o: Owner): OwnerRef { OwnerRef(o.kind, o.key.name, o.uid, true) }

  // Fails when another object controls the secret already.
  function SetController(o: Owner, refs: seq<OwnerRef>): Option<seq<OwnerRef>> {
    var c := ControllerOf(refs);
    if c.Some? && !SameObject(c.value, RefOf(o)) then None else Some(Upsert(refs, RefOf(o)))
  }

  lemma {:induction false} UpsertMeaning(refs: seq<OwnerRef>, r: OwnerRef)
    requires r.controller
    ensures Upsert(Upsert(refs, r), r) == Upsert(refs, r)
    ensures r in Upsert(refs, r)
    ensures ControllerOf(refs).None? || SameObject(ControllerOf(refs).value, r) ==>
              ControllerOf(Upsert(refs, r)).Some? && SameObject(ControllerOf(Upsert(refs, r)).value, r)
  {
    if refs != [] && !SameObject(refs[0], r) {
      UpsertMeaning(refs[1..], r);
    }
  }

  lemma SetControllerIdempotent(o: Owner, refs: seq<OwnerRef>)
    requires SetController(o, refs).Some?
    ensures SetController(o, SetController(o, refs).value) == SetController(o, refs)
    ensures RefOf(o) in SetController(o, refs).value
  {
    UpsertMeaning(refs, RefOf(o));
  }

  /******* Builders *******/

  function KindLabel(kind: Kind): Option<(LabelKey, string)> {
    match kind
    case KindOperator => Some((LabelOperatorName, "Operator"))
    case KindSigningKey => Some((LabelSigningKeyName, "SigningKey"))
    case KindAccount => Some((LabelAccountName, "Account"))
    case KindUser => Some((LabelUserName, "User"))
    case _ => None
  }

  // The options Immutable and WithDeletionPrevention come together, for Operators and Accounts.
  function Guarded(s: Secret, protect: bool): Secret {
    if protect then s.(immutable := true, finalizers := s.finalizers + {DeletionPrevention}) else s
  }

  function BuildSeedSecret(s: Secret, o: Owner, seed: Seed, protect: bool): Option<Secret> {
    var kind, owners := KindLabel(o.kind), SetController(o, s.owners);
    if kind.None? || owners.None? then None
    else
      Some(Guarded(s, protect).(
        labels := s.labels[LabelSecretType := "seed"][LabelSubject := PublicKey(seed)]
                          [LabelSecretSeedType := kind.value.1][kind.value.0 := o.key.name],
        data := map[SeedKey := SeedBlob(seed), PublicKeyKey := TextBlob(PublicKey(seed))],
        owners := owners.value))
  }

  function BuildJWTSecret(s: Secret, o: Owner, jwt: Jwt): Option<Secret> {
    var kind, owners := KindLabel(o.kind), SetController(o, s.owners);
    if kind.None? || o.kind == KindSigningKey || owners.None? then None
    else
      Some(s.(
        labels := s.labels[LabelSecretType := "jwt"][LabelSecretJWTType := kind.value.1][kind.value.0 := o.key.name],
        data := map[JWTKey := JwtBlob(jwt)],
        owners := owners.value))
  }

  function SubjectOf(seed: Blob): string {
    if seed.SeedBlob? then PublicKey(seed.seed) else ""
  }

  function BuildCredsSecret(s: Secret, o: Owner, jwt: Jwt, seed: Blob, ca: Blob): Option<Secret> {
    var owners := SetController(o, s.owners);
    if owners.None? then None
    else
      Some(s.(
        labels := s.labels[LabelSubject := SubjectOf(seed)][LabelSecretType := "credentials"][LabelSecretJWTType := "User"],
        data := map[CredsKey := CredsBlob(jwt, seed), CAKey := ca],
        owners := owners.value))
  }

  // A builder copies a secret and overwrites it in place.
  class SecretBuilder {
    var secret: Secret

    constructor ()
      ensures secret == EmptySecret
    {
      secret := EmptySecret;
    }

    constructor FromSecret(s: Secret)
      ensures secret == s
    {
      secret := s;
    }

    // KeyPairSecretBuilder.Build
    method BuildSeed(o: Owner, seed: Seed, protect: bool) returns (r: Option<Secret>)
      modifies this
      ensures r == BuildSeedSecret(old(secret), o, seed, protect)
      ensures r.Some? ==> secret == r.value
    {
      if protect {
        secret := secret.(immutable := true);
        secret := secret.(finalizers := secret.finalizers + {DeletionPrevention});
      }
      secret := secret.(labels := secret.labels[LabelSecretType := "seed"]);
      secret := secret.(labels := secret.labels[LabelSubject := PublicKey(seed)]);
      var kind := KindLabel(o.kind);
      if kind.None? { return None; }
      secret := secret.(labels := secret.labels[LabelSecretSeedType := kind.value.1]);
      secret := secret.(labels := secret.labels[kind.value.0 := o.key.name]);
      secret := secret.(data := map[SeedKey := SeedBlob(seed), PublicKeyKey := TextBlob(PublicKey(seed))]);
      var owners := SetController(o, secret.owners);
      if owners.None? { return None; }
      secret := secret.(owners := owners.value);
      return Some(secret);
    }

    // JWTSecretBuilder.Build
    method BuildJWT(o: Owner, jwt: Jwt) returns (r: Option<Secret>)
      modifies this
      ensures r == BuildJWTSecret(old(secret), o, jwt)
      ensures r.Some? ==> secret == r.value
    {
      secret := secret.(labels := secret.labels[LabelSecretType := "jwt"]);
      var kind := KindLabel(o.kind);
      if kind.None? || o.kind == KindSigningKey { return None; }
      secret := secret.(labels := secret.labels[LabelSecretJWTType := kind.value.1]);
      secret := secret.(labels := secret.labels[kind.value.0 := o.key.name]);
      secret := secret.(data := map[JWTKey := JwtBlob(jwt)]);
      var owners := SetController(o, secret.owners);
      if owners.None? { return None; }
      secret := secret.(owners := owners.value);
      return Some(secret);
    }

    // UserCredentialSecretBuilder.Build, for a JWT that formats
    method BuildCreds(o: Owner, jwt: Jwt, seed: Blob, ca: Blob) returns (r: Option<Secret>)
      modifies this
      ensures r == BuildCredsSecret(old(secret), o, jwt, seed, ca)
      ensures r.Some? ==> secret == r.value
    {
      secret := secret.(labels := secret.labels[LabelSubject := SubjectOf(seed)]);
      secret := secret.(labels := secret.labels[LabelSecretType := "credentials"]);
      secret := secret.(labels := secret.labels[LabelSecretJWTType := "User"]);
      secret := secret.(data := map[CredsKey := CredsBlob(jwt, seed), CAKey := ca]);
      var owners := SetController(o, secret.owners);
      if owners.None? { return None; }
      secret := secret.(owners := owners.value);
      return Some(secret);
    }
  }

  // Only the object itself may control the secret already.
  predicate Foreign(s: Secret, o: Owner) {
    ControllerOf(s.owners).Some? && (ControllerOf(s.owners).value.kind != o.kind || ControllerOf(s.owners).value.name != o.key.name)
  }

  // A label of the kind holds the object's name.
  predicate Named(labels: map<LabelKey, string>, o: Owner) {
    match o.kind
    case KindOperator => LabelOperatorName in labels && labels[LabelOperatorName] == o.key.name
    case KindSigningKey => LabelSigningKeyName in labels && labels[LabelSigningKeyName] == o.key.name
    case KindAccount => LabelAccountName in labels && labels[LabelAccountName] == o.key.name
    case KindUser => LabelUserName in labels && labels[LabelUserName] == o.key.name
    case _ => false
  }

  // and a label of the secret's type holds the kind.
  predicate Typed(labels: map<LabelKey, string>, l: LabelKey, kind: Kind) {
    l in labels && match kind
                   case KindOperator => labels[l] == "Operator"
                   case KindSigningKey => labels[l] == "SigningKey"
                   case KindAccount => labels[l] == "Account"
                   case KindUser => labels[l] == "User"
                   case _ => false
  }

  predicate Labelled(s: Secret, l: LabelKey, value: string) { l in s.labels && s.labels[l] == value }

  lemma ControllerSetIff(s: Secret, o: Owner)
    ensures SetController(o, s.owners).Some? <==> !Foreign(s, o)
    ensures SetController(o, s.owners).Some? ==> OwnerRef(o.kind, o.key.name, o.uid, true) in SetController(o, s.owners).value
  {
    UpsertMeaning(s.owners, RefOf(o));
  }

  // What a built seed secret holds: two fields, its labels, the guard if asked for, and its owner.
  lemma SeedSecretBuilt(s: Secret, o: Owner, seed: Seed, protect: bool)
    ensures BuildSeedSecret(s, o, seed, protect).Some? <==>
              !Foreign(s, o) && (o.kind == KindOperator || o.kind == KindSigningKey || o.kind == KindAccount || o.kind == KindUser)
    ensures BuildSeedSecret(s, o, seed, protect).Some? ==>
              var t := BuildSeedSecret(s, o, seed, protect).value;
              && t.data.Keys == {SeedKey, PublicKeyKey} && t.data[SeedKey] == SeedBlob(seed)
              && t.data[PublicKeyKey] == TextBlob([if seed.prefix == PrefixOperator then 'O' else if seed.prefix == PrefixAccount then 'A' else 'U'] + seed.key)
              && Labelled(t, LabelSecretType, "seed") && Labelled(t, LabelSubject, PublicKey(seed))
              && Named(t.labels, o) && Typed(t.labels, LabelSecretSeedType, o.kind)
              && (forall l :: l in s.labels ==> l in t.labels)
              && (protect ==> t.immutable && t.finalizers == s.finalizers + {DeletionPrevention})
              && (!protect ==> t.immutable == s.immutable && t.finalizers == s.finalizers)
              && OwnerRef(o.kind, o.key.name, o.uid, true) in t.owners && t.deleting == s.deleting
  {
    hide SetController, Foreign;
    ControllerSetIff(s, o);
  }

  lemma JWTSecretBuilt(s: Secret, o: Owner, jwt: Jwt)
    ensures BuildJWTSecret(s, o, jwt).Some? <==>
              !Foreign(s, o) && (o.kind == KindOperator || o.kind == KindAccount || o.kind == KindUser)
    ensures BuildJWTSecret(s, o, jwt).Some? ==>
              var t := BuildJWTSecret(s, o, jwt).value;
              && t.data.Keys == {JWTKey} && t.data[JWTKey] == JwtBlob(jwt)
              && Labelled(t, LabelSecretType, "jwt") && Named(t.labels, o) && Typed(t.labels, LabelSecretJWTType, o.kind)
              && (forall l :: l in s.labels ==> l in t.labels)
              && t.immutable == s.immutable && t.finalizers == s.finalizers && t.deleting == s.deleting
              && OwnerRef(o.kind, o.key.name, o.uid, true) in t.owners
  {
    hide SetController, Foreign;
    ControllerSetIff(s, o);
  }

  lemma CredsSecretBuilt(s: Secret, o: Owner, jwt: Jwt, seed: Blob, ca: Blob)
    ensures BuildCredsSecret(s, o, jwt, seed, ca).Some? <==> !Foreign(s, o)
    ensures BuildCredsSecret(s, o, jwt, seed, ca).Some? ==>
              var t := BuildCredsSecret(s, o, jwt, seed, ca).value;
              && t.data.Keys == {CredsKey, CAKey} && t.data[CredsKey] == CredsBlob(jwt, seed) && t.data[CAKey] == ca
              && Labelled(t, LabelSecretType, "credentials") && Typed(t.labels, LabelSecretJWTType, KindUser)
              && Labelled(t, LabelSubject, if seed.SeedBlob? then PublicKey(seed.seed) else "")
              && (forall l :: l in s.labels ==> l in t.labels)
              && t.immutable == s.immutable && t.finalizers == s.finalizers && t.deleting == s.deleting
              && OwnerRef(o.kind, o.key.name, o.uid, true) in t.owners
  {
    hide SetController, Foreign;
    ControllerSetIff(s, o);
  }

  // Rebuilding a built secret is the identity, so an update is never followed by another.
  lemma RebuildSeedSecret(s: Secret, o: Owner, seed: Seed, protect: bool)
    requires BuildSeedSecret(s, o, seed, protect).Some?
    ensures var t := BuildSeedSecret(s, o, seed, protect).value;
            BuildSeedSecret(t, o, seed, protect) == Some(t)
  {
    SetControllerIdempotent(o, s.owners);
    var t := BuildSeedSecret(s, o, seed, protect).value;
    var t' := BuildSeedSecret(t, o, seed, protect).value;
    assert t'.labels == t.labels;
    assert t'.finalizers == t.finalizers;
  }

  lemma RebuildCredsSecret(s: Secret, o: Owner, jwt: Jwt, seed: Blob, ca: Blob)
    requires BuildCredsSecret(s, o, jwt, seed, ca).Some?
    ensures var t := BuildCredsSecret(s, o, jwt, seed, ca).value;
            BuildCredsSecret(t, o, jwt, seed, ca) == Some(t)
  {
    SetControllerIdempotent(o, s.owners);
    var t := BuildCredsSecret(s, o, jwt, seed, ca).value;
    var t' := BuildCredsSecret(t, o, jwt, seed, ca).value;
    assert t'.labels == t.labels;
  }

  /******* The API server's secrets *******/

  type Store = map<Key, Secret>

  // The two stores agree on this secret.
  predicate SameAt(store: Store, store': Store, q: Key) {
    (q in store <==> q in store') && (q in store ==> store'[q] == store[q])
  }

  // Create refuses an existing name.
  predicate CanCreate(store: Store, key: Key, callOk: bool) { callOk && key !in store }

  // Delete only marks a secret that carries finalizers.
  function Deleted(store: Store, key: Key): Store
    requires key in store
  {
    if store[key].finalizers == {} then store - {key} else store[key := store[key].(deleting := true)]
  }
}
