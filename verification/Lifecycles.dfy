/**
 The statuses of the lifecycle files under api/accounts/v1alpha1: conditions paired with the fields that
 the controllers dereference after checking a condition.

 A status value holds one entry per dependent condition type. The classes LiveAccountStatus and
 LiveSigningKeyStatus hold the condition list itself and assign fields and conditions in the
 order of the source; each of their marks is proved to change the value as the function of the
 same name does. Readiness of a value is the happy condition of the list.
 */
module Lifecycles {
  import opened Texts
  import opened Conditions
  import opened ConditionLists
  import opened ConditionRuns

  datatype Key = Key(ns: string, name: string)

  datatype Kind = KindOperator | KindAccount | KindSigningKey | KindUser | KindOther | KindUnregistered

  datatype TypedRef = TypedRef(kind: Kind, ns: string, name: string, uid: string)

  datatype KeyPair = KeyPair(publicKey: string, seedSecretName: string)

  datatype SigningKeyEntry = SigningKeyEntry(name: string, keyPair: KeyPair)

  datatype KeyPairRef = KeyPairRef(key: Key, publicKey: string)

  /******* Entries *******/

  const Up: Entry := Entry(ConditionTrue, NoReason, NoMessage)

  function Counted(n: nat): Entry { Entry(ConditionTrue, KeysUpdated, FoundKeys(n)) }

  function Failed(reason: Reason, message: Message): Entry { Entry(ConditionFalse, reason, message) }

  function Unsure(reason: Reason, message: Message): Entry { Entry(ConditionUnknown, reason, message) }

  predicate IsTrue(e: Entry) { e.Entry? && e.status == ConditionTrue }

  // InitializeConditions on one entry, for lists where a happy True means nothing is missing.
  function Initial(e: Entry): Entry {
    if e.Missing? then Entry(ConditionUnknown, NoReason, NoMessage) else e
  }

  /******* AccountStatus *******/

  datatype AccountStatus = AccountStatus(
    seed: Entry, operator: Entry, issuer: Entry, keys: Entry, jwt: Entry, pushed: Entry,
    keyPair: Option<KeyPair>, signingKeys: seq<SigningKeyEntry>, operatorRef: Option<Key>)
  {
    // A condition is True exactly when the field the controllers read behind it is set.
    predicate Coupled() {
      && (IsTrue(seed) <==> keyPair.Some?)
      && (IsTrue(operator) <==> operatorRef.Some?)
      && (!IsTrue(keys) ==> signingKeys == [])
    }

    predicate Ready() {
      IsTrue(seed) && IsTrue(operator) && IsTrue(issuer) && IsTrue(keys) && IsTrue(jwt) && IsTrue(pushed)
    }

    function InitializeConditions(): (r: AccountStatus)
      ensures Coupled() ==> r.Coupled()
      ensures r.Ready() <==> Ready()
    {
      AccountStatus(Initial(seed), Initial(operator), Initial(issuer), Initial(keys), Initial(jwt), Initial(pushed),
                    keyPair, signingKeys, operatorRef)
    }

    function MarkSeedSecretReady(kp: KeyPair): (r: AccountStatus)
      ensures Coupled() ==> r.Coupled()
    {
      this.(keyPair := Some(kp), seed := Up)
    }

    function MarkSeedSecretFailed(reason: Reason, message: Message): (r: AccountStatus)
      ensures Coupled() ==> r.Coupled()
      ensures !r.Ready()
    {
      this.(keyPair := None, seed := Failed(reason, message))
    }

    function MarkSeedSecretUnknown(reason: Reason, message: Message): (r: AccountStatus)
      ensures Coupled() ==> r.Coupled()
      ensures !r.Ready()
    {
      this.(keyPair := None, seed := Unsure(reason, message))
    }

    function MarkOperatorResolved(ref: Key): (r: AccountStatus)
      ensures Coupled() ==> r.Coupled()
    {
      this.(operatorRef := Some(ref), operator := Up)
    }

    function MarkOperatorResolveFailed(reason: Reason, message: Message): (r: AccountStatus)
      ensures Coupled() ==> r.Coupled()
      ensures !r.Ready()
    {
      this.(operatorRef := None, operator := Failed(reason, message))
    }

    function MarkOperatorResolveUnknown(reason: Reason, message: Message): (r: AccountStatus)
      ensures Coupled() ==> r.Coupled()
      ensures !r.Ready()
    {
      this.(operatorRef := None, operator := Unsure(reason, message))
    }

    function MarkIssuerResolved(): (r: AccountStatus)
      ensures Coupled() ==> r.Coupled()
    {
      this.(issuer := Up)
    }

    function MarkIssuerResolveFailed(reason: Reason, message: Message): (r: AccountStatus)
      ensures Coupled() ==> r.Coupled()
      ensures !r.Ready()
    {
      this.(issuer := Failed(reason, message))
    }

    function MarkIssuerResolveUnknown(reason: Reason, message: Message): (r: AccountStatus)
      ensures Coupled() ==> r.Coupled()
      ensures !r.Ready()
    {
      this.(issuer := Unsure(reason, message))
    }

    function MarkSigningKeysUpdated(keys: seq<SigningKeyEntry>): (r: AccountStatus)
      ensures Coupled() ==> r.Coupled()
    {
      this.(signingKeys := keys, keys := Counted(|keys|))
    }

    function MarkSigningKeysUpdateFailed(reason: Reason, message: Message): (r: AccountStatus)
      ensures Coupled() ==> r.Coupled()
      ensures !r.Ready()
    {
      this.(signingKeys := [], keys := Failed(reason, message))
    }

    function MarkSigningKeysUpdateUnknown(reason: Reason, message: Message): (r: AccountStatus)
      ensures Coupled() ==> r.Coupled()
      ensures !r.Ready()
    {
      this.(signingKeys := [], keys := Unsure(reason, message))
    }

    function MarkJWTSecretReady(): (r: AccountStatus)
      ensures Coupled() ==> r.Coupled()
    {
      this.(jwt := Up)
    }

    function MarkJWTSecretFailed(reason: Reason, message: Message): (r: AccountStatus)
      ensures Coupled() ==> r.Coupled()
      ensures !r.Ready()
    {
      this.(jwt := Failed(reason, message))
    }

    function MarkJWTSecretUnknown(reason: Reason, message: Message): (r: AccountStatus)
      ensures Coupled() ==> r.Coupled()
      ensures !r.Ready()
    {
      this.(jwt := Unsure(reason, message))
    }

    function MarkJWTPushed(): (r: AccountStatus)
      ensures Coupled() ==> r.Coupled()
    {
      this.(pushed := Up)
    }

    function MarkJWTPushFailed(reason: Reason, message: Message): (r: AccountStatus)
      ensures Coupled() ==> r.Coupled()
      ensures !r.Ready()
    {
      this.(pushed := Failed(reason, message))
    }

    function MarkJWTPushUnknown(reason: Reason, message: Message): (r: AccountStatus)
      ensures Coupled() ==> r.Coupled()
      ensures !r.Ready()
    {
      this.(pushed := Unsure(reason, message))
    }
  }

  const NewAccountStatus: AccountStatus :=
    AccountStatus(Missing, Missing, Missing, Missing, Missing, Missing, None, [], None)

  /******* SigningKeyStatus *******/

  datatype SigningKeyStatus = SigningKeyStatus(seed: Entry, owner: Entry, keyPair: Option<KeyPair>, ownerRef: Option<TypedRef>)
  {
    predicate Coupled() {
      && (IsTrue(seed) <==> keyPair.Some?)
      && (IsTrue(owner) <==> ownerRef.Some?)
    }

    predicate Ready() { IsTrue(seed) && IsTrue(owner) }

    function InitializeConditions(): (r: SigningKeyStatus)
      ensures Coupled() ==> r.Coupled()
      ensures r.Ready() <==> Ready()
    {
      this.(seed := Initial(seed), owner := Initial(owner))
    }

    function MarkSeedSecretReady(publicKey: string, seedSecretName: string): (r: SigningKeyStatus)
      ensures Coupled() ==> r.Coupled()
    {
      this.(keyPair := Some(KeyPair(publicKey, seedSecretName)), seed := Up)
    }

    function MarkSeedSecretFailed(reason: Reason, message: Message): (r: SigningKeyStatus)
      ensures Coupled() ==> r.Coupled()
      ensures !r.Ready()
    {
      this.(keyPair := None, seed := Failed(reason, message))
    }

    function MarkSeedSecretUnknown(reason: Reason, message: Message): (r: SigningKeyStatus)
      ensures Coupled() ==> r.Coupled()
      ensures !r.Ready()
    {
      this.(keyPair := None, seed := Unsure(reason, message))
    }

    function MarkOwnerResolved(ref: TypedRef): (r: SigningKeyStatus)
      ensures Coupled() ==> r.Coupled()
    {
      this.(ownerRef := Some(ref), owner := Up)
    }

    function MarkOwnerResolveFailed(reason: Reason, message: Message): (r: SigningKeyStatus)
      ensures Coupled() ==> r.Coupled()
      ensures !r.Ready()
    {
      this.(ownerRef := None, owner := Failed(reason, message))
    }

    function MarkOwnerResolveUnknown(reason: Reason, message: Message): (r: SigningKeyStatus)
      ensures Coupled() ==> r.Coupled()
      ensures !r.Ready()
    {
      this.(ownerRef := None, owner := Unsure(reason, message))
    }
  }

  const NewSigningKeyStatus: SigningKeyStatus := SigningKeyStatus(Missing, Missing, None, None)

  /******* OperatorStatus *******/

  datatype OperatorStatus = OperatorStatus(
    seed: Entry, system: Entry, keys: Entry, jwt: Entry,
    keyPair: Option<KeyPair>, signingKeys: seq<SigningKeyEntry>, systemAccount: Option<KeyPairRef>)
  {
    predicate Coupled() {
      && (IsTrue(seed) <==> keyPair.Some?)
      && (IsTrue(system) <==> systemAccount.Some?)
      && (!IsTrue(keys) ==> signingKeys == [])
    }

    predicate Ready() { IsTrue(seed) && IsTrue(system) && IsTrue(keys) && IsTrue(jwt) }

    function InitializeConditions(): (r: OperatorStatus)
      ensures Coupled() ==> r.Coupled()
      ensures r.Ready() <==> Ready()
    {
      this.(seed := Initial(seed), system := Initial(system), keys := Initial(keys), jwt := Initial(jwt))
    }

    function MarkSeedSecretReady(kp: KeyPair): (r: OperatorStatus)
      ensures Coupled() ==> r.Coupled()
    {
      this.(keyPair := Some(kp), seed := Up)
    }

    function MarkSeedSecretFailed(reason: Reason, message: Message): (r: OperatorStatus)
      ensures Coupled() ==> r.Coupled()
      ensures !r.Ready()
    {
      this.(keyPair := None, seed := Failed(reason, message))
    }

    function MarkSeedSecretUnknown(reason: Reason, message: Message): (r: OperatorStatus)
      ensures Coupled() ==> r.Coupled()
      ensures !r.Ready()
    {
      this.(keyPair := None, seed := Unsure(reason, message))
    }

    function MarkSystemAccountResolved(ref: KeyPairRef): (r: OperatorStatus)
      ensures Coupled() ==> r.Coupled()
    {
      this.(systemAccount := Some(ref), system := Up)
    }

    function MarkSystemAccountResolveFailed(reason: Reason, message: Message): (r: OperatorStatus)
      ensures Coupled() ==> r.Coupled()
      ensures !r.Ready()
    {
      this.(systemAccount := None, system := Failed(reason, message))
    }

    function MarkSystemAccountResolveUnknown(reason: Reason, message: Message): (r: OperatorStatus)
      ensures Coupled() ==> r.Coupled()
      ensures !r.Ready()
    {
      this.(systemAccount := None, system := Unsure(reason, message))
    }

    function MarkSigningKeysUpdated(keys: seq<SigningKeyEntry>): (r: OperatorStatus)
      ensures Coupled() ==> r.Coupled()
    {
      this.(signingKeys := keys, keys := Counted(|keys|))
    }

    function MarkJWTSecretReady(): (r: OperatorStatus)
      ensures Coupled() ==> r.Coupled()
    {
      this.(jwt := Up)
    }

    function MarkJWTSecretFailed(reason: Reason, message: Message): (r: OperatorStatus)
      ensures Coupled() ==> r.Coupled()
      ensures !r.Ready()
    {
      this.(jwt := Failed(reason, message))
    }

    function MarkJWTSecretUnknown(reason: Reason, message: Message): (r: OperatorStatus)
      ensures Coupled() ==> r.Coupled()
      ensures !r.Ready()
    {
      this.(jwt := Unsure(reason, message))
    }
  }

  const NewOperatorStatus: OperatorStatus := OperatorStatus(Missing, Missing, Missing, Missing, None, [], None)

  /******* UserStatus *******/

  datatype UserStatus = UserStatus(
    seed: Entry, account: Entry, issuer: Entry, jwt: Entry, creds: Entry,
    keyPair: Option<KeyPair>, accountRef: Option<Key>)
  {
    predicate Coupled() {
      && (IsTrue(seed) <==> keyPair.Some?)
      && (IsTrue(account) <==> accountRef.Some?)
    }

    predicate Ready() { IsTrue(seed) && IsTrue(account) && IsTrue(issuer) && IsTrue(jwt) && IsTrue(creds) }

    function InitializeConditions(): (r: UserStatus)
      ensures Coupled() ==> r.Coupled()
      ensures r.Ready() <==> Ready()
    {
      this.(seed := Initial(seed), account := Initial(account), issuer := Initial(issuer),
            jwt := Initial(jwt), creds := Initial(creds))
    }

    function MarkSeedSecretReady(kp: KeyPair): (r: UserStatus)
      ensures Coupled() ==> r.Coupled()
    {
      this.(keyPair := Some(kp), seed := Up)
    }

    function MarkSeedSecretFailed(reason: Reason, message: Message): (r: UserStatus)
      ensures Coupled() ==> r.Coupled()
      ensures !r.Ready()
    {
      this.(keyPair := None, seed := Failed(reason, message))
    }

    function MarkSeedSecretUnknown(reason: Reason, message: Message): (r: UserStatus)
      ensures Coupled() ==> r.Coupled()
      ensures !r.Ready()
    {
      this.(keyPair := None, seed := Unsure(reason, message))
    }

    function MarkAccountResolved(ref: Key): (r: UserStatus)
      ensures Coupled() ==> r.Coupled()
    {
      this.(accountRef := Some(ref), account := Up)
    }

    function MarkAccountResolveFailed(reason: Reason, message: Message): (r: UserStatus)
      ensures Coupled() ==> r.Coupled()
      ensures !r.Ready()
    {
      this.(accountRef := None, account := Failed(reason, message))
    }

    function MarkAccountResolveUnknown(reason: Reason, message: Message): (r: UserStatus)
      ensures Coupled() ==> r.Coupled()
      ensures !r.Ready()
    {
      this.(accountRef := None, account := Unsure(reason, message))
    }

    function MarkIssuerResolved(): (r: UserStatus)
      ensures Coupled() ==> r.Coupled()
    {
      this.(issuer := Up)
    }

    function MarkIssuerResolveFailed(reason: Reason, message: Message): (r: UserStatus)
      ensures Coupled() ==> r.Coupled()
      ensures !r.Ready()
    {
      this.(issuer := Failed(reason, message))
    }

    function MarkIssuerResolveUnknown(reason: Reason, message: Message): (r: UserStatus)
      ensures Coupled() ==> r.Coupled()
      ensures !r.Ready()
    {
      this.(issuer := Unsure(reason, message))
    }

    function MarkJWTSecretReady(): (r: UserStatus)
      ensures Coupled() ==> r.Coupled()
    {
      this.(jwt := Up)
    }

    function MarkJWTSecretFailed(reason: Reason, message: Message): (r: UserStatus)
      ensures Coupled() ==> r.Coupled()
      ensures !r.Ready()
    {
      this.(jwt := Failed(reason, message))
    }

    function MarkJWTSecretUnknown(reason: Reason, message: Message): (r: UserStatus)
      ensures Coupled() ==> r.Coupled()
      ensures !r.Ready()
    {
      this.(jwt := Unsure(reason, message))
    }

    function MarkCredentialsSecretReady(): (r: UserStatus)
      ensures Coupled() ==> r.Coupled()
    {
      this.(creds := Up)
    }

    function MarkCredentialsSecretFailed(reason: Reason, message: Message): (r: UserStatus)
      ensures Coupled() ==> r.Coupled()
      ensures !r.Ready()
    {
      this.(creds := Failed(reason, message))
    }

    function MarkCredentialsSecretUnknown(reason: Reason, message: Message): (r: UserStatus)
      ensures Coupled() ==> r.Coupled()
      ensures !r.Ready()
    {
      this.(creds := Unsure(reason, message))
    }
  }

  const NewUserStatus: UserStatus := UserStatus(Missing, Missing, Missing, Missing, Missing, None, None)
}
