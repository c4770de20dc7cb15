/**
 Statuses as objects: the marks of account_lifecycle.go and signingkey_lifecycle.go over the
 condition list. Each mark assigns its field, then calls the condition manager.
 */
module LiveStatuses {
  import opened Texts
  import opened Conditions
  import opened ConditionLists
  import opened ConditionRuns
  import opened Lifecycles

  const READY: ConditionType := "Ready"
  const SEED_SECRET_READY: ConditionType := "SeedSecretReady"
  const OPERATOR_RESOLVED: ConditionType := "OperatorResolved"
  const ISSUER_RESOLVED: ConditionType := "IssuerResolved"
  const SIGNING_KEYS_UPDATED: ConditionType := "SigningKeysUpdated"
  const JWT_SECRET_READY: ConditionType := "JWTSecretReady"
  const JWT_PUSHED: ConditionType := "JWTPushed"
  const OWNER_RESOLVED: ConditionType := "OwnerResolved"
  const SYSTEM_ACCOUNT_RESOLVED: ConditionType := "SystemAccountResolved"

  // NewLivingConditionSet; the happy type is among the arguments, as in the source.
  function Living(types: seq<ConditionType>): ConditionSet {
    ConditionSet(READY, Dedup(READY, types))
  }

  /******* A condition set of n distinct types, one view entry each *******/

  ghost predicate DependsOn(cs: ConditionSet, types: seq<ConditionType>) {
    && cs.Valid() && types != [] && NoDuplicates(types)
    && forall t :: t in cs.dependents <==> t in types
  }

  function Entries(s: seq<Condition>, types: seq<ConditionType>): (r: seq<Entry>)
    ensures |r| == |types|
  {
    seq(|types|, i requires 0 <= i < |types| => EntryOf(s, types[i]))
  }

  lemma MarkEntries(cs: ConditionSet, types: seq<ConditionType>, s: seq<Condition>, i: nat, op: Op)
    requires DependsOn(cs, types) && Consistent(cs, s) && i < |types|
    requires op.Mark? && op.t == types[i]
    ensures Consistent(cs, Apply(cs, s, op))
    ensures Entries(Apply(cs, s, op), types) == Entries(s, types)[i := Entry(op.status, op.reason, op.message)]
  {
    assert types[i] in types;
    MarkMeaning(cs, s, op);
    var s' := Apply(cs, s, op);
    forall j | 0 <= j < |types| ensures Entries(s', types)[j] == Entries(s, types)[i := Entry(op.status, op.reason, op.message)][j] {
      assert types[j] in types;
      if j != i { assert Find(s', types[j]) == Find(s, types[j]); }
    }
  }

  // The three manager calls, as the marks below see them.

  method MarkTrue(m: ConditionManager, types: seq<ConditionType>, ghost i: nat, t: ConditionType, reason: Reason, message: Message, now: int)
    requires DependsOn(m.cs, types) && Consistent(m.cs, m.accessor.conditions) && i < |types| && types[i] == t
    modifies m.accessor
    ensures Consistent(m.cs, m.accessor.conditions)
    ensures Entries(m.accessor.conditions, types) == old(Entries(m.accessor.conditions, types))[i := Entry(ConditionTrue, reason, message)]
  {
    MarkEntries(m.cs, types, m.accessor.conditions, i, Mark(t, ConditionTrue, reason, message, now));
    m.MarkTrueWithReason(t, reason, message, now);
  }

  method MarkFalse(m: ConditionManager, types: seq<ConditionType>, ghost i: nat, t: ConditionType, reason: Reason, message: Message, now: int)
    requires DependsOn(m.cs, types) && Consistent(m.cs, m.accessor.conditions) && i < |types| && types[i] == t
    modifies m.accessor
    ensures Consistent(m.cs, m.accessor.conditions)
    ensures Entries(m.accessor.conditions, types) == old(Entries(m.accessor.conditions, types))[i := Failed(reason, message)]
  {
    MarkEntries(m.cs, types, m.accessor.conditions, i, Mark(t, ConditionFalse, reason, message, now));
    m.MarkFalse(t, reason, message, now);
  }

  method MarkUnknown(m: ConditionManager, types: seq<ConditionType>, ghost i: nat, t: ConditionType, reason: Reason, message: Message, now: int)
    requires DependsOn(m.cs, types) && Consistent(m.cs, m.accessor.conditions) && i < |types| && types[i] == t
    modifies m.accessor
    ensures Consistent(m.cs, m.accessor.conditions)
    ensures Entries(m.accessor.conditions, types) == old(Entries(m.accessor.conditions, types))[i := Unsure(reason, message)]
  {
    MarkEntries(m.cs, types, m.accessor.conditions, i, Mark(t, ConditionUnknown, reason, message, now));
    m.MarkUnknown(t, reason, message, now);
  }

  lemma InitializeEntries(cs: ConditionSet, types: seq<ConditionType>, s: seq<Condition>, now: int)
    requires DependsOn(cs, types) && Consistent(cs, s)
    ensures Consistent(cs, AfterInitialize(cs, s, now))
    ensures forall j :: 0 <= j < |types| ==> Entries(AfterInitialize(cs, s, now), types)[j] == Initial(Entries(s, types)[j])
  {
    assert types[0] in types;
    InitializeConsistent(cs, s, now);
    assert forall j :: 0 <= j < |types| ==> types[j] in cs.dependents;
  }

  // IsReady reads the happy condition; it holds exactly when every entry is True.
  lemma ReadyIsAllTrue(cs: ConditionSet, types: seq<ConditionType>, s: seq<Condition>)
    requires DependsOn(cs, types) && Consistent(cs, s)
    ensures HasStatus(s, cs.happy, ConditionTrue) <==> forall j :: 0 <= j < |types| ==> IsTrue(Entries(s, types)[j])
  {
    assert forall j :: 0 <= j < |types| ==> (IsTrue(Entries(s, types)[j]) <==> HasStatus(s, types[j], ConditionTrue));
    assert forall j :: 0 <= j < |types| ==> types[j] in cs.dependents;
    if forall j :: 0 <= j < |types| ==> IsTrue(Entries(s, types)[j]) {
      assert AllTrue(cs, s);
      assert types[0] in cs.dependents && Find(s, types[0]).Some?;
    } else {
      var j :| 0 <= j < |types| && !IsTrue(Entries(s, types)[j]);
      assert types[j] in cs.dependents && !HasStatus(s, types[j], ConditionTrue);
    }
  }

  /******* AccountStatus *******/

  const AccountTypes: seq<ConditionType> :=
    [SEED_SECRET_READY, OPERATOR_RESOLVED, ISSUER_RESOLVED, SIGNING_KEYS_UPDATED, JWT_SECRET_READY, JWT_PUSHED]

  const AccountSet: ConditionSet := Living([READY] + AccountTypes)

  lemma AccountSetTypes()
    ensures DependsOn(AccountSet, AccountTypes)
  {
    assert |READY| == 5 && |SEED_SECRET_READY| == 15 && |OPERATOR_RESOLVED| == 16 && |ISSUER_RESOLVED| == 14;
    assert |SIGNING_KEYS_UPDATED| == 18 && |JWT_SECRET_READY| == 14 && |JWT_PUSHED| == 9;
    assert ISSUER_RESOLVED[0] != JWT_SECRET_READY[0];
    assert forall t :: t in AccountTypes ==> |t| != 5;
    DedupMeaning(READY, [READY] + AccountTypes);
  }

  function AccountView(e: seq<Entry>, keyPair: Option<KeyPair>, signingKeys: seq<SigningKeyEntry>, operatorRef: Option<Key>): AccountStatus
    requires |e| == 6
  {
    AccountStatus(e[0], e[1], e[2], e[3], e[4], e[5], keyPair, signingKeys, operatorRef)
  }

  class LiveAccountStatus {
    const base: StatusConditions
    const manager: ConditionManager
    var keyPair: Option<KeyPair>
    var signingKeys: seq<SigningKeyEntry>
    var operatorRef: Option<Key>

    ghost predicate Valid()
      reads this, base
    {
      && manager.cs == AccountSet && manager.accessor == base
      && DependsOn(AccountSet, AccountTypes)
      && Consistent(AccountSet, base.conditions)
      && View().Coupled()
    }

    function View(): AccountStatus
      reads this, base
    {
      AccountView(Entries(base.conditions, AccountTypes), keyPair, signingKeys, operatorRef)
    }

    constructor ()
      ensures Valid() && fresh(base) && View() == NewAccountStatus
    {
      var b := new StatusConditions();
      base := b;
      manager := new ConditionManager(AccountSet, b);
      keyPair, signingKeys, operatorRef := None, [], None;
      new;
      AccountSetTypes();
    }

    method IsJWTSecretReady() returns (b: bool)
      requires Valid()
      ensures b <==> IsTrue(View().jwt)
    {
      var cond := manager.GetCondition(JWT_SECRET_READY);
      b := cond.Some? && cond.value.status == ConditionTrue;
    }

    method IsJWTPushed() returns (b: bool)
      requires Valid()
      ensures b <==> IsTrue(View().pushed)
    {
      var cond := manager.GetCondition(JWT_PUSHED);
      b := cond.Some? && cond.value.status == ConditionTrue;
    }

    // An update decodes the server's answer into the object.
    method Decode(other: LiveAccountStatus)
      requires Valid() && other.Valid() && other != this && other.base != base
      modifies this, base
      ensures Valid() && other.Valid() && View() == other.View() == old(other.View())
    {
      base.conditions := other.base.conditions;
      keyPair, signingKeys, operatorRef := other.keyPair, other.signingKeys, other.operatorRef;
    }

    method IsReady() returns (b: bool)
      requires Valid()
      ensures b <==> View().Ready()
    {
      ReadyIsAllTrue(AccountSet, AccountTypes, base.conditions);
      b := manager.IsHappy();
    }

    method InitializeConditions(now: int)
      requires Valid()
      modifies base
      ensures Valid() && View() == old(View()).InitializeConditions()
    {
      InitializeEntries(AccountSet, AccountTypes, base.conditions, now);
      manager.InitializeConditions(now);
    }

    method MarkSeedSecretReady(kp: KeyPair, now: int)
      requires Valid()
      modifies this, base
      ensures Valid() && View() == old(View()).MarkSeedSecretReady(kp)
    {
      keyPair := Some(kp);
      MarkTrue(manager, AccountTypes, 0, SEED_SECRET_READY, NoReason, NoMessage, now);
    }

    method MarkSeedSecretFailed(reason: Reason, message: Message, now: int)
      requires Valid()
      modifies this, base
      ensures Valid() && View() == old(View()).MarkSeedSecretFailed(reason, message)
    {
      keyPair := None;
      MarkFalse(manager, AccountTypes, 0, SEED_SECRET_READY, reason, message, now);
    }

    method MarkSeedSecretUnknown(reason: Reason, message: Message, now: int)
      requires Valid()
      modifies this, base
      ensures Valid() && View() == old(View()).MarkSeedSecretUnknown(reason, message)
    {
      keyPair := None;
      MarkUnknown(manager, AccountTypes, 0, SEED_SECRET_READY, reason, message, now);
    }

    method MarkOperatorResolved(ref: Key, now: int)
      requires Valid()
      modifies this, base
      ensures Valid() && View() == old(View()).MarkOperatorResolved(ref)
    {
      operatorRef := Some(ref);
      MarkTrue(manager, AccountTypes, 1, OPERATOR_RESOLVED, NoReason, NoMessage, now);
    }

    method MarkOperatorResolveFailed(reason: Reason, message: Message, now: int)
      requires Valid()
      modifies this, base
      ensures Valid() && View() == old(View()).MarkOperatorResolveFailed(reason, message)
    {
      operatorRef := None;
      MarkFalse(manager, AccountTypes, 1, OPERATOR_RESOLVED, reason, message, now);
    }

    method MarkOperatorResolveUnknown(reason: Reason, message: Message, now: int)
      requires Valid()
      modifies this, base
      ensures Valid() && View() == old(View()).MarkOperatorResolveUnknown(reason, message)
    {
      operatorRef := None;
      MarkUnknown(manager, AccountTypes, 1, OPERATOR_RESOLVED, reason, message, now);
    }

    method MarkIssuerResolved(now: int)
      requires Valid()
      modifies base
      ensures Valid() && View() == old(View()).MarkIssuerResolved()
    {
      MarkTrue(manager, AccountTypes, 2, ISSUER_RESOLVED, NoReason, NoMessage, now);
    }

    method MarkIssuerResolveFailed(reason: Reason, message: Message, now: int)
      requires Valid()
      modifies base
      ensures Valid() && View() == old(View()).MarkIssuerResolveFailed(reason, message)
    {
      MarkFalse(manager, AccountTypes, 2, ISSUER_RESOLVED, reason, message, now);
    }

    method MarkIssuerResolveUnknown(reason: Reason, message: Message, now: int)
      requires Valid()
      modifies base
      ensures Valid() && View() == old(View()).MarkIssuerResolveUnknown(reason, message)
    {
      MarkUnknown(manager, AccountTypes, 2, ISSUER_RESOLVED, reason, message, now);
    }

    method MarkSigningKeysUpdated(keys: seq<SigningKeyEntry>, now: int)
      requires Valid()
      modifies this, base
      ensures Valid() && View() == old(View()).MarkSigningKeysUpdated(keys)
    {
      signingKeys := keys;
      MarkTrue(manager, AccountTypes, 3, SIGNING_KEYS_UPDATED, KeysUpdated, FoundKeys(|keys|), now);
    }

    method MarkSigningKeysUpdateFailed(reason: Reason, message: Message, now: int)
      requires Valid()
      modifies this, base
      ensures Valid() && View() == old(View()).MarkSigningKeysUpdateFailed(reason, message)
    {
      signingKeys := [];
      MarkFalse(manager, AccountTypes, 3, SIGNING_KEYS_UPDATED, reason, message, now);
    }

    method MarkSigningKeysUpdateUnknown(reason: Reason, message: Message, now: int)
      requires Valid()
      modifies this, base
      ensures Valid() && View() == old(View()).MarkSigningKeysUpdateUnknown(reason, message)
    {
      signingKeys := [];
      MarkUnknown(manager, AccountTypes, 3, SIGNING_KEYS_UPDATED, reason, message, now);
    }

    method MarkJWTSecretReady(now: int)
      requires Valid()
      modifies base
      ensures Valid() && View() == old(View()).MarkJWTSecretReady()
    {
      MarkTrue(manager, AccountTypes, 4, JWT_SECRET_READY, NoReason, NoMessage, now);
    }

    method MarkJWTSecretFailed(reason: Reason, message: Message, now: int)
      requires Valid()
      modifies base
      ensures Valid() && View() == old(View()).MarkJWTSecretFailed(reason, message)
    {
      MarkFalse(manager, AccountTypes, 4, JWT_SECRET_READY, reason, message, now);
    }

    method MarkJWTSecretUnknown(reason: Reason, message: Message, now: int)
      requires Valid()
      modifies base
      ensures Valid() && View() == old(View()).MarkJWTSecretUnknown(reason, message)
    {
      MarkUnknown(manager, AccountTypes, 4, JWT_SECRET_READY, reason, message, now);
    }

    method MarkJWTPushed(now: int)
      requires Valid()
      modifies base
      ensures Valid() && View() == old(View()).MarkJWTPushed()
    {
      MarkTrue(manager, AccountTypes, 5, JWT_PUSHED, NoReason, NoMessage, now);
    }

    method MarkJWTPushFailed(reason: Reason, message: Message, now: int)
      requires Valid()
      modifies base
      ensures Valid() && View() == old(View()).MarkJWTPushFailed(reason, message)
    {
      MarkFalse(manager, AccountTypes, 5, JWT_PUSHED, reason, message, now);
    }

    method MarkJWTPushUnknown(reason: Reason, message: Message, now: int)
      requires Valid()
      modifies base
      ensures Valid() && View() == old(View()).MarkJWTPushUnknown(reason, message)
    {
      MarkUnknown(manager, AccountTypes, 5, JWT_PUSHED, reason, message, now);
    }
  }

  /******* SigningKeyStatus *******/

  const SigningKeyTypes: seq<ConditionType> := [SEED_SECRET_READY, OWNER_RESOLVED]

  const SigningKeySet: ConditionSet := Living([READY] + SigningKeyTypes)

  lemma SigningKeySetTypes()
    ensures DependsOn(SigningKeySet, SigningKeyTypes)
  {
    assert |READY| == 5 && |SEED_SECRET_READY| == 15 && |OWNER_RESOLVED| == 13;
    DedupMeaning(READY, [READY] + SigningKeyTypes);
  }

  class LiveSigningKeyStatus {
    const base: StatusConditions
    const manager: ConditionManager
    var keyPair: Option<KeyPair>
    var ownerRef: Option<TypedRef>

    ghost predicate Valid()
      reads this, base
    {
      && manager.cs == SigningKeySet && manager.accessor == base
      && DependsOn(SigningKeySet, SigningKeyTypes)
      && Consistent(SigningKeySet, base.conditions)
      && View().Coupled()
    }

    function View(): SigningKeyStatus
      reads this, base
    {
      var e := Entries(base.conditions, SigningKeyTypes);
      SigningKeyStatus(e[0], e[1], keyPair, ownerRef)
    }

    constructor ()
      ensures Valid() && fresh(base) && View() == NewSigningKeyStatus
    {
      var b := new StatusConditions();
      base := b;
      manager := new ConditionManager(SigningKeySet, b);
      keyPair, ownerRef := None, None;
      new;
      SigningKeySetTypes();
    }

    // An update decodes the server's answer into the object.
    method Decode(other: LiveSigningKeyStatus)
      requires Valid() && other.Valid() && other != this && other.base != base
      modifies this, base
      ensures Valid() && other.Valid() && View() == other.View() == old(other.View())
    {
      base.conditions := other.base.conditions;
      keyPair, ownerRef := other.keyPair, other.ownerRef;
    }

    method IsReady() returns (b: bool)
      requires Valid()
      ensures b <==> View().Ready()
    {
      ReadyIsAllTrue(SigningKeySet, SigningKeyTypes, base.conditions);
      b := manager.IsHappy();
    }

    method InitializeConditions(now: int)
      requires Valid()
      modifies base
      ensures Valid() && View() == old(View()).InitializeConditions()
    {
      InitializeEntries(SigningKeySet, SigningKeyTypes, base.conditions, now);
      manager.InitializeConditions(now);
    }

    method MarkSeedSecretReady(publicKey: string, seedSecretName: string, now: int)
      requires Valid()
      modifies this, base
      ensures Valid() && View() == old(View()).MarkSeedSecretReady(publicKey, seedSecretName)
    {
      keyPair := Some(KeyPair(publicKey, seedSecretName));
      MarkTrue(manager, SigningKeyTypes, 0, SEED_SECRET_READY, NoReason, NoMessage, now);
    }

    method MarkSeedSecretFailed(reason: Reason, message: Message, now: int)
      requires Valid()
      modifies this, base
      ensures Valid() && View() == old(View()).MarkSeedSecretFailed(reason, message)
    {
      keyPair := None;
      MarkFalse(manager, SigningKeyTypes, 0, SEED_SECRET_READY, reason, message, now);
    }

    method MarkSeedSecretUnknown(reason: Reason, message: Message, now: int)
      requires Valid()
      modifies this, base
      ensures Valid() && View() == old(View()).MarkSeedSecretUnknown(reason, message)
    {
      keyPair := None;
      MarkUnknown(manager, SigningKeyTypes, 0, SEED_SECRET_READY, reason, message, now);
    }

    method MarkOwnerResolved(ref: TypedRef, now: int)
      requires Valid()
      modifies this, base
      ensures Valid() && View() == old(View()).MarkOwnerResolved(ref)
    {
      ownerRef := Some(ref);
      MarkTrue(manager, SigningKeyTypes, 1, OWNER_RESOLVED, NoReason, NoMessage, now);
    }

    method MarkOwnerResolveFailed(reason: Reason, message: Message, now: int)
      requires Valid()
      modifies this, base
      ensures Valid() && View() == old(View()).MarkOwnerResolveFailed(reason, message)
    {
      ownerRef := None;
      MarkFalse(manager, SigningKeyTypes, 1, OWNER_RESOLVED, reason, message, now);
    }

    method MarkOwnerResolveUnknown(reason: Reason, message: Message, now: int)
      requires Valid()
      modifies this, base
      ensures Valid() && View() == old(View()).MarkOwnerResolveUnknown(reason, message)
    {
      ownerRef := None;
      MarkUnknown(manager, SigningKeyTypes, 1, OWNER_RESOLVED, reason, message, now);
    }
  }

  /******* The set of the Operator *******/

  const OperatorTypes: seq<ConditionType> :=
    [SEED_SECRET_READY, SYSTEM_ACCOUNT_RESOLVED, SIGNING_KEYS_UPDATED, JWT_SECRET_READY]

  // operator_lifecycle.go passes the seed type twice, under two names.
  const OperatorSet: ConditionSet := Living([READY] + OperatorTypes + [SEED_SECRET_READY])

  lemma OperatorSetTypes()
    ensures DependsOn(OperatorSet, OperatorTypes)
  {
    assert |READY| == 5 && |SEED_SECRET_READY| == 15 && |SYSTEM_ACCOUNT_RESOLVED| == 21;
    assert |SIGNING_KEYS_UPDATED| == 18 && |JWT_SECRET_READY| == 14;
    DedupMeaning(READY, [READY] + OperatorTypes + [SEED_SECRET_READY]);
  }
}
