/**
 The claims of pkg/nsc, built by successive assignments, and the key list of the Operator.
 Conversions of limits, exports and imports are folded into the opaque config.
 */
module ClaimsBuilders {
  import opened Texts
  import opened Lifecycles
  import opened Secrets
  import opened ClusterState
  import opened AccountController
  import opened OperatorController
  import opened UserController

  // CreateAccountClaims: the subject is the Account's key, the signing keys are added one by one.
  method CreateAccountClaims(name: string, spec: AccountSpec, pair: KeyPair, keys: seq<SigningKeyEntry>, signer: Seed, iat: int, jti: string)
    returns (claims: Claims)
    ensures claims.AccountClaims? && claims.data == ClaimsData(jti, iat, PublicKey(signer), pair.publicKey, name)
    ensures claims.config == spec.config
    ensures forall p :: p in claims.signingKeys <==> exists e :: e in keys && e.keyPair.publicKey == p
  {
    var data := ClaimsData("", 0, "", pair.publicKey, "");
    data := data.(name := name);
    var signingKeys: set<string> := {};
    for i := 0 to |keys|
      invariant signingKeys == PublicKeysOf(keys[..i])
    {
      assert keys[..i + 1] == keys[..i] + [keys[i]];
      signingKeys := signingKeys + {keys[i].keyPair.publicKey};
    }
    assert keys[..|keys|] == keys;
    claims := Stamped(AccountClaims(data, signingKeys, spec.config), signer, iat, jti);
  }

  // CreateOperatorClaims refuses a status without system account or key pair.
  method CreateOperatorClaims(name: string, spec: OperatorSpec, s: OperatorStatus, signer: Seed, iat: int, jti: string)
    returns (claims: Option<Claims>)
    ensures claims == OperatorClaimsOf(name, spec, s, signer, iat, jti)
    ensures claims.None? <==> s.systemAccount.None? || s.keyPair.None?
    ensures claims.Some? ==>
              && claims.value.OperatorClaims? && claims.value.data == ClaimsData(jti, iat, PublicKey(signer), s.keyPair.value.publicKey, name)
              && claims.value.systemAccount == s.systemAccount.value.publicKey && claims.value.config == spec.config
              && |claims.value.signingKeyList| == |s.signingKeys|
              && forall i :: 0 <= i < |s.signingKeys| ==> claims.value.signingKeyList[i] == s.signingKeys[i].keyPair.publicKey
  {
    if s.systemAccount.None? { return None; }
    if s.keyPair.None? { return None; }
    var keys := new string[|s.signingKeys|];
    for i := 0 to |s.signingKeys|
      invariant forall j :: 0 <= j < i ==> keys[j] == s.signingKeys[j].keyPair.publicKey
    {
      keys[i] := s.signingKeys[i].keyPair.publicKey;
    }
    assert keys[..] == PublicKeyList(s.signingKeys);
    var data := ClaimsData("", 0, "", s.keyPair.value.publicKey, name);
    claims := Some(Stamped(OperatorClaims(data, keys[..], s.systemAccount.value.publicKey, spec.config), signer, iat, jti));
  }

  // CreateUserClaims: permissions, when set, overwrite limits and bearer token; the issuer's account
  // is named only when the signer is not its own key.
  method CreateUserClaims(name: string, spec: UserSpec, s: UserStatus, acc: Account, signer: Seed, iat: int, jti: string) returns (claims: Claims)
    requires s.keyPair.Some?
    ensures claims == Stamped(UserClaimsOf(name, spec, s, acc, signer), signer, iat, jti)
    ensures claims.UserClaims? && claims.data == ClaimsData(jti, iat, PublicKey(signer), s.keyPair.value.publicKey, name)
    ensures spec.permissions.Some? ==> claims.permissions == spec.permissions.value && claims.limits == "" && !claims.bearerToken
    ensures spec.permissions.None? ==> claims.permissions == "" && claims.limits == spec.limits
    ensures spec.permissions.None? ==> (claims.bearerToken <==> spec.bearerToken == Some(true))
    ensures var pair := acc.status.keyPair;
            claims.issuerAccount == if pair.Some? && pair.value.publicKey != PublicKey(signer) then pair.value.publicKey else ""
  {
    var data := ClaimsData("", 0, "", s.keyPair.value.publicKey, "");
    data := data.(name := name);
    var limits, bearerToken, permissions, issuerAccount := spec.limits, false, "", "";
    if spec.bearerToken.Some? {
      bearerToken := spec.bearerToken.value;
    }
    if spec.permissions.Some? {
      permissions, limits, bearerToken := spec.permissions.value, "", false;
    }
    var account := acc.status.keyPair;
    if account.Some? && account.value.publicKey != PublicKey(signer) {
      issuerAccount := account.value.publicKey;
    }
    claims := Stamped(UserClaims(data, issuerAccount, limits, bearerToken, permissions), signer, iat, jti);
  }

  // The loop of the Operator's ensureSigningKeysUpdated.
  method CollectOperatorKeys(k: Key, sks: seq<SigningKey>) returns (keys: seq<SigningKeyEntry>)
    requires forall sk :: sk in sks ==> sk.status.Coupled()
    ensures keys == OperatorKeys(k, sks)
  {
    keys := [];
    for i := 0 to |sks|
      invariant forall sk :: sk in sks[..i] ==> sk.status.Coupled()
      invariant keys == OperatorKeys(k, sks[..i])
    {
      var sk := sks[i];
      assert sks[..i + 1][..i] == sks[..i] && sk in sks;
      if sk.status.Ready() && sk.status.ownerRef.value.ns == k.ns && sk.status.ownerRef.value.name == k.name {
        keys := keys + [SigningKeyEntry(sk.key.name, sk.status.keyPair.value)];
      }
    }
    assert sks[..|sks|] == sks;
  }
}
