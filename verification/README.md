# NATS account operator: a verified model

The NATS account operator is a Kubernetes controller for NATS operators, accounts, users and signing
keys. This project models its three stacked state machines in Dafny and proves what holds of them over
every input, every combination of API outcomes, and every run.

1. **Conditions** (`Conditions`, `ConditionLists`, `ConditionRuns`). The condition manager keeps a sorted
   list of typed conditions behind an accessor. It is a class whose methods replace that list; each method
   is proved equal to a function on lists, and over every run the happy condition is the aggregate of
   its dependents.
2. **Statuses, merge, errors** (`Lifecycles`, `LiveStatuses`, `SigningKeys`, `Errors`). A status pairs
   conditions with the fields the controllers dereference. `LiveAccountStatus` and
   `LiveSigningKeyStatus` mark the condition list in place; each mark is proved to change the status
   value as the function of the same name does. The signing-key merge runs its three loops through a
   mutable map whose iteration order is left open.
3. **Reconcilers** (`Secrets`, `ClusterState`, `SecretStages`, the four `*Controller` modules and the
   theorems about them). One reconcile is one step on the cluster: API objects, secrets and the request
   sent to the NATS account server. An oracle gives the outcome of every API call, fresh key material,
   the stamp of a new JWT and the order of the merge. The `*Reconcilers`, `SecretClients` and
   `ClaimsBuilders` modules run the same reconciles imperatively (the Account's on a live condition list)
   and are proved equal to those steps.

Seeds are a prefix and key material, and a public key renders both; a JWT is signed claims or malformed
text; decoding and seed round trips are constructors. Claims are compared up to `jti` and `iat`
(sections 4.1.7 and 4.1.6 of RFC 7519). Reasons and messages are constructors, since no code branches on
their text.

## Main results

- **Bootstrap.** An Operator and its system Account wait on each other. From any statuses and any subset
  of their four secrets, in any interleaving and whatever becomes of the pushes, every reconcile lowers a
  rank or changes nothing but what is said of the push; unless the rank is zero one of the two always
  lowers it; at zero the Operator is Ready, the Account lacks at most its push, and their JWTs agree down to
  the stored seeds. Eight stretches in which both get a turn are enough from any start.
- **Convergence.** An Account whose surroundings are in place is Ready after at most five reconciles, and
  from then on a reconcile writes nothing. A User is Ready after at most five, and then completes without
  a write.
- **Runs.** With an adversarial world in between: the finalizer protocol; statuses coupled in every
  reachable state; seeds of Operators, Accounts, Users and SigningKeys never mutated by any of the four
  controllers;
  every user JWT written belongs to the Account resolved for it.
- **Admission and issuance.** Whatever the API calls return, an Account gets past its operator stage, and a
  User past its account stage, only for the Ready issuer that the spec names and an Operator or Account
  behind it whose selectors allow the object; a refused object stops there. What is pushed is sound, what is
  stored carries the spec's claims, and credentials are a fixpoint.
- **Signing keys end to end.** A SigningKey reconciled for an Account records that Account's UID, and every
  later update of the Account's list holds exactly the keys that count for it.
- **Outcomes.** For each exit of each controller: which condition is marked, what is returned, and exactly
  when a failure is final; a status that did not reach the server is never lost.
- **The condition invariant** over every run, with the cardinality test proved against plain membership.

## Where the code does less than one would expect

Each entry names the exact condition and an input that shows it; the larger clusters are in `Specimens`.

- `finalizeAccount` dereferences `OperatorRef` and `KeyPair` after checking two conditions that do not
  imply them. `FinalizePanicsIff` says exactly when it panics and `FinalizeSafe` when it cannot;
  `PanicIsReachable` and `SecondPanicIsReachable` exhibit a Ready Account, a failed reconcile and a
  deletion for either field.
- A JWT can stay on the NATS server after its Account is gone. `RevokedIff` says exactly when a deletion
  removes it, `LeftBehindIff` when the Account is let go without a removal, and `SentJwtIsLeftBehind` shows
  a JWT that was sent and is left: the push reported an error, or the status could not be stored. A removal
  that failed is made good by the retry iff it was not the connection's options that failed
  (`FailedRemovalIff`): that failure marks the JWT as not pushed, and the retry lets the Account go
  (`FailedOptionsLeaveJwt`).
- A User whose seed secret shares its name with its JWT or credentials secret loses its seed:
  `UserSeedLostIff` is exact, `UserSeedKept` gives the names that are safe, `SharedWithJwtLosesSeed` and
  `SharedWithCredsLosesSeed` the two losses.
- Some failures after the fetch mark nothing, so that a Ready object stays Ready. The theorem of each
  controller says exactly when it is Ready after each such exit.
  - User (`UserStepMeaning`): the account behind a signing key is not ready, the label cannot be written, the
    CA cannot be read (`UnreadyAccountStaysReady`, `LabelFailureStaysReady`, `CAFailureStaysReady`).
  - Operator (`OperatorStepMeaning`): the signing keys cannot be listed (`OperatorListFailureStaysReady`).
  - Account (`StepMeaning`): the finalizer or the label cannot be written, the signing keys cannot be listed
    (`AccountListFailureStaysReady`).
  - SigningKey (`KeyStepMeaning`): the label cannot be written, the pair cannot be had
    (`KeySecretFailureStaysReady`).
- A SigningKey publishes the public-key field of an existing secret unchecked: `PublishedKeyIff`,
  `WrongKeyPublished`.
- `MarkFalse` and `MarkUnknown` on the happy type itself can break the aggregate (`HappyMarkBreaksIt`, with
  the exact condition in `HappyMarkIff`); the count test needs the dedup of the condition set
  (`CountTestNeedsDedup`).
- The Operator takes SigningKeys by the owner's namespace and name, whatever the owner's kind
  (`OperatorKeysMeaning`, `OperatorListsForeignKey`).

## Model

| member | source | states |
|---|---|---|
| `Conditions.NewConditionSet` | pkg/apis/condition_set.go:112-125 | the dependents are those given without the happy type, each once |
| `Conditions.ConditionManager.SetCondition` | pkg/apis/condition_set.go:188-210 | the list becomes the sorted list with this type replaced, unchanged if it differs only in its transition time |
| `Conditions.ConditionManager.ClearCondition` | pkg/apis/condition_set.go:230-255 | a non-terminal type is removed, a terminal one is refused |
| `Conditions.ConditionManager.FindUnhappyDependent` | pkg/apis/condition_set.go:304-351 | filter in place, sort by time, count test: equal to the list function |
| `Conditions.ConditionManager.FilterTerminal` | pkg/apis/condition_set.go:310-320 | the in-place filter leaves exactly the dependents in a prefix of the array |
| `Conditions.ConditionManager.RecomputeHappiness` | pkg/apis/condition_set.go:284-302 | the happy condition is set from the unhappy dependent, or to True |
| `Conditions.ConditionManager.MarkTrueWithReason` | pkg/apis/condition_set.go:271-281 | the new list is that of the mark followed by the recomputation |
| `Conditions.ConditionManager.MarkFalse` | pkg/apis/condition_set.go:396-413 | the new list has this type False, and the happy one with it iff the type is a dependent |
| `Conditions.ConditionManager.MarkUnknown` | pkg/apis/condition_set.go:355-393 | Unknown reaches the happy condition only when no dependent is False |
| `Conditions.ConditionManager.InitializeConditions` | pkg/apis/condition_set.go:417-437 | fills in the happy type and each dependent that is missing |
| `ConditionLists.SetMeaning` | pkg/apis/condition_set.go:188-210 | sorted and unique before and after; the type set reads as given, every other type as before |
| `ConditionLists.ClearMeaning` | pkg/apis/condition_set.go:230-255 | removes this type only |
| `ConditionLists.CountTest` | pkg/apis/condition_set.go:343-349 | on well-formed lists the count of present dependents is short exactly when some dependent is missing |
| `ConditionLists.UnhappyMeaning` | pkg/apis/condition_set.go:304-351 | nothing iff every dependent is present and True; else a False one of maximal time, else an Unknown one of maximal time, else a bare Unknown |
| `ConditionLists.CountTestNeedsDedup` | pkg/apis/condition_set.go:112-125 | with a duplicate dependent the count test reports a complete set as short |
| `ConditionRuns.MarkMeaning` | pkg/apis/condition_set.go:259-302 | a mark changes only its own type and the happy type, and keeps the invariant |
| `ConditionRuns.RunConsistent` | pkg/apis/condition_set.go:230-302 | over every run from the empty list the happy condition is the aggregate of the dependents, and absent only while no dependent is present |
| `ConditionRuns.HappyMarkBreaksIt` | pkg/apis/condition_set.go:396-413 | a False mark on the happy type itself contradicts dependents that are all True |
| `ConditionRuns.HappyMarkIff` | pkg/apis/condition_set.go:259-302 | exactly when a mark on the happy type leaves it at the aggregate, for all three statuses |
| `ConditionRuns.MarksCommute` | pkg/apis/condition_set.go:188-210 | marks on distinct dependents commute on all statuses |
| `ConditionRuns.MarkRepeats` | pkg/apis/condition_set.go:188-210 | repeating a mark leaves the list unchanged, times included |
| `ConditionRuns.MarkUnknownRepeats` | pkg/apis/condition_set.go:355-393 | the same for the mark with its own search |
| `ConditionRuns.InitializeMeaning` | pkg/apis/condition_set.go:417-451 | only adds: present conditions untouched, afterwards all present |
| `ConditionRuns.InitializeIdempotent` | pkg/apis/condition_set.go:417-451 | a second initialization changes nothing |
| `ConditionRuns.InitializeRestores` | pkg/apis/condition_set.go:417-451 | from a list where happy True means present dependents True, afterwards happy True means every dependent True |
| `LiveStatuses.LiveAccountStatus.MarkSeedSecretReady` | api/accounts/v1alpha1/account_lifecycle.go:103-107 | field and condition list change together as the value does; conditions stay the aggregate, fields stay coupled |
| `LiveStatuses.LiveAccountStatus.MarkOperatorResolveFailed` | api/accounts/v1alpha1/account_lifecycle.go:49-53 | the operator reference is cleared with its condition |
| `LiveStatuses.LiveAccountStatus.MarkSigningKeysUpdated` | api/accounts/v1alpha1/account_lifecycle.go:73-77 | keys and condition are set together |
| `LiveStatuses.LiveAccountStatus.InitializeConditions` | api/accounts/v1alpha1/account_lifecycle.go:39-41 | missing entries become Unknown, fields untouched |
| `LiveStatuses.LiveAccountStatus.IsReady` | api/accounts/v1alpha1/account_lifecycle.go:34-36 | the happy condition of the list is True iff all six entries are |
| `LiveStatuses.LiveSigningKeyStatus.MarkOwnerResolved` | api/accounts/v1alpha1/signingkey_lifecycle.go:57-61 | the owner reference is set with its condition |
| `LiveStatuses.LiveSigningKeyStatus.MarkSeedSecretReady` | api/accounts/v1alpha1/signingkey_lifecycle.go:36-43 | the key pair is set with its condition |
| `LiveStatuses.OperatorSetTypes` | api/accounts/v1alpha1/operator_lifecycle.go:13-20 | the set built with a duplicate has each of its four dependents once |
| `SigningKeys.NextSigningKeys` | pkg/helpers/signingkeys.go:16-64 | for every map order: each eligible key once with its fresh pair, survivors first in their old order |
| `SigningKeys.FreshKeysSource` | pkg/helpers/signingkeys.go:26-39 | a listed name comes from an item of that name with both conditions True and this owner's UID, and carries its pair |
| `SigningKeys.FreshKeysListed` | pkg/helpers/signingkeys.go:26-39 | every such item without a later namesake of the kind is listed with its pair |
| `SigningKeys.MergeFixpoint` | pkg/helpers/signingkeys.go:16-64 | a merged list has only itself as its next merge |
| `SigningKeys.MergeIdempotent` | pkg/helpers/signingkeys.go:16-64 | merging the result again is the identity, whatever the orders |
| `SigningKeys.NeverSwap` | pkg/helpers/signingkeys.go:16-64 | over a run of successive lists two keys that stay eligible keep their order |
| `Errors.MarkCondition` | internal/controller/accounts/errors.go:32-38 | exactly one mark call, the verdict of the chain |
| `Errors.OutermostResultDecides` | internal/controller/accounts/errors.go:18-28 | the outermost result wrapper alone decides requeue |
| `Errors.OutermostConditionDecides` | internal/controller/accounts/errors.go:46-79 | the outermost condition wrapper alone decides the mark, with the innermost fault as text |
| `Errors.NoWrapperFallsThrough` | internal/controller/accounts/errors.go:18-38 | an error without a result wrapper goes to the runtime; one without a condition wrapper marks Unknown |
| `Secrets.SecretBuilder.BuildSeed` | internal/controller/accounts/resources/keypairsecret.go:34-90 | labels, name, data and owner overwritten in place equal the built secret; refuses a foreign controller |
| `Secrets.SecretBuilder.BuildJWT` | internal/controller/accounts/resources/jwtsecret.go:33-73 | the same for a JWT secret |
| `Secrets.SecretBuilder.BuildCreds` | internal/controller/accounts/resources/usercredentialsecret.go:37-70 | the same for a credentials secret |
| `Secrets.SeedSecretBuilt` | internal/controller/accounts/resources/keypairsecret.go:34-90 | built iff nobody else controls the secret; then two fields, the labels of kind, name and subject, the guard if asked for, and the owner |
| `Secrets.JWTSecretBuilt` | internal/controller/accounts/resources/jwtsecret.go:33-73 | built iff nobody else controls it and the kind has JWTs; then one field, the labels and the owner, and no guard |
| `Secrets.CredsSecretBuilt` | internal/controller/accounts/resources/usercredentialsecret.go:37-70 | built iff nobody else controls it; then credentials and CA, the labels and the owner |
| `Secrets.RebuildSeedSecret` | internal/controller/accounts/resources/keypairsecret.go:34-90 | rebuilding a built secret is the identity |
| `Secrets.RebuildCredsSecret` | internal/controller/accounts/resources/usercredentialsecret.go:37-70 | rebuilding built credentials is the identity |
| `ClusterState.ResolvedIssuerHasKeyPair` | internal/controller/accounts/base_controller.go:219-283 | under coupling a resolved issuer has a key pair, so the nil branches of both loadIssuerSeed are dead; which object it is says IssuerResolvesIff |
| `ClusterState.IssuerResolvesIff` | internal/controller/accounts/base_controller.go:219-283 | a reference resolves iff the call succeeds and the object of that kind and name, in the namespace given or else the referring object's, is there and Ready; and to that object |
| `ClusterState.IssuerFailureMeaning` | internal/controller/accounts/base_controller.go:219-283 | a kind that cannot issue is final, a failed call goes to the runtime, a missing or unready issuer is retried; each with its mark |
| `ClusterState.KeyOwnerIff` | internal/controller/accounts/base_controller.go:285-327 | the owner of a SigningKey is looked up by kind, namespace and name in its status, and by nothing else |
| `ClusterState.IssuerSeedLoadsIff` | internal/controller/accounts/base_controller.go:329-394 | a seed loads iff it is in the secret that the issuer's status names, in the issuer's namespace, of the wanted kind, with the published key |
| `ClusterState.IssuerSeedRefused` | internal/controller/accounts/base_controller.go:352-394 | a secret that is there but does not load is final, with the reason for its field, kind or key |
| `ClusterState.ListKeysMeaning` | internal/controller/accounts/account_controller.go:292-310 | the list holds exactly the SigningKeys of the namespace that the selector admits |
| `ClusterState.ListKeysInOrder` | internal/controller/accounts/account_controller.go:292-310 | in the order, and as often, as they stand |
| `ClusterState.LoadedSeedIsPublished` | internal/controller/accounts/base_controller.go:329-394 | a seed that loads has the wanted prefix and the public key of the issuer's status |
| `ClusterState.AdmittedIff` | internal/controller/accounts/account_controller.go:218-248 | a child is admitted iff its namespace and its labels are allowed; a refusal is marked as one and final, only a failed read of the namespace is retried |
| `SecretStages.SeedStageMeaning` | internal/controller/accounts/base_controller.go:36-137 | a success reports the stored seed, new or kept, leaves the secret as built, writes iff it was not, touches nothing else |
| `SecretStages.SeedStageOkIff` | internal/controller/accounts/base_controller.go:36-137 | it succeeds iff its calls do and a secret that is there holds a seed and is the object's |
| `SecretStages.SeedFailureMeaning` | internal/controller/accounts/base_controller.go:36-137 | a failure is final iff the secret that is there cannot be used, and marked with its reason |
| `SecretStages.SeedStageSettled` | internal/controller/accounts/base_controller.go:59-103 | a secret as built passes without a write |
| `SecretStages.JwtStageMeaning` | internal/controller/accounts/base_controller.go:139-212 | whatever was stored, a success leaves the wanted claims up to stamps and returns the stored JWT; it writes iff that was not yet so |
| `SecretStages.JwtStageOkIff` | internal/controller/accounts/base_controller.go:139-212 | it succeeds iff its calls do and what is stored may be kept, replaced or updated; a failure is final iff the secret there is not the object's |
| `SecretStages.JwtStageSettled` | internal/controller/accounts/base_controller.go:156-212 | a second run with later stamps writes nothing |
| `SecretStages.SeedStageKeepsSeeds` | internal/controller/accounts/base_controller.go:36-103 | the seed stage of any object keeps every stored seed |
| `SecretStages.JwtStageKeepsSeeds` | internal/controller/accounts/base_controller.go:156-212 | the JWT stage of any object keeps guarded seeds even under a shared name |
| `SecretClients.SecretClient.ReconcileSeedSecret` | internal/controller/accounts/base_controller.go:36-57 | the running method ends as the stage says, store, writes and requeue |
| `SecretClients.SecretClient.ReplaceJWTSecret` | internal/controller/accounts/base_controller.go:159-179 | the loop over owner references deletes and recreates iff one has the owner's UID |
| `SecretClients.SecretClient.ReconcileJWTSecret` | internal/controller/accounts/base_controller.go:156-212 | the running method ends as the stage says |
| `ClaimsBuilders.CreateAccountClaims` | pkg/nsc/createaccount.go:12-50 | subject is the Account's key, issuer the signer's; the set holds exactly the listed public keys |
| `ClaimsBuilders.CreateOperatorClaims` | pkg/nsc/createoperator.go:13-49 | refuses a status without system account or key pair; else subject, issuer, name, system account, config and the list of keys in order |
| `ClaimsBuilders.CreateUserClaims` | pkg/nsc/createuser.go:12-79 | field by field: name, subject and issuer; permissions when set, without limits and bearer token, else those of the spec; the account's key unless it is the signer's own |
| `ClaimsBuilders.CollectOperatorKeys` | internal/controller/accounts/operator_controller.go:183-191 | the loop lists the Operator's own ready keys in order |
| `AccountReconcilers.AccountReconciler.EnsureJWTPushed` | internal/controller/accounts/account_controller.go:434-477 | pushes and marks on the live list as the step says |
| `AccountReconcilers.AccountReconciler.ReconcileJWTSecret` | internal/controller/accounts/account_controller.go:328-351 | claims, JWT secret, marks and push as the step says |
| `AccountReconcilers.AccountReconciler.EnsureSigningKeysUpdated` | internal/controller/accounts/account_controller.go:289-326 | the status gets an outcome of the merge of its old keys |
| `AccountReconcilers.AccountReconciler.FinalizeAccount` | internal/controller/accounts/account_controller.go:479-574 | the check chain on the live list, with its two unchecked dereferences |
| `AccountReconcilers.AccountReconciler.Reconcile` | internal/controller/accounts/account_controller.go:73-216 | the whole reconcile on a live condition list is the step, for some outcome of the merge; what the step does say StepMeaning, AdmissionNeeded and RefusedStops |
| `AccountTheorems.PrepareMeaning` | internal/controller/accounts/account_controller.go:131-196 | an early end is coupled, not Ready after a failure and pushes nothing; otherwise every stage passed without a write and the status records what it found; whom it found says OperatorFoundIff |
| `AccountTheorems.OperatorFoundIff` | internal/controller/accounts/account_controller.go:218-287 | an Operator is found iff it is the issuer, or the owner in the issuing SigningKey's status, is there, and both its selectors allow the Account |
| `AccountTheorems.AccountKeysIff` | internal/controller/accounts/account_controller.go:289-326 | the updated list holds name and pair of exactly the SigningKeys of the namespace that the selector admits, with both conditions True and the Account's UID |
| `AccountTheorems.StoreJWTMeaning` | internal/controller/accounts/account_controller.go:198-215 | what is pushed is the stored JWT and carries the wanted claims |
| `AccountTheorems.StepMeaning` | internal/controller/accounts/account_controller.go:73-216 | for every outcome: Pushed ends Ready, every marked failure not Ready, after an unmarked one Ready iff the stored conditions not marked on the way are True; a pushed JWT is the stored one, carries name, config, key and key set, is signed by the operator seed of the Ready issuer that the spec names, and goes out only for an Account that the recorded Operator admits, with the finalizer and without a deletion |
| `AccountOutcomes.AdmissionNeeded` | internal/controller/accounts/account_controller.go:147-215 | whatever the outcome, a reconcile that gets past the operator stage or sends anything has a Ready issuer as named, and an Operator behind it that admits the Account |
| `AccountOutcomes.RefusedStops` | internal/controller/accounts/account_controller.go:147-165 | an Account that no Operator behind its issuer admits stops there: no Operator recorded, not Ready, nothing sent; a refusal proper is NotAllowed and final |
| `AccountOutcomes.PrepareEnds` | internal/controller/accounts/account_controller.go:131-196 | every early exit with the marks it leaves and what it returns |
| `AccountOutcomes.AccountReturns` | internal/controller/accounts/account_controller.go:73-216 | for every exit whether the reconcile comes again, hands an error to the runtime, or is final, and exactly when; a failed push is retried |
| `AccountOutcomes.DeletionReturns` | internal/controller/accounts/account_controller.go:110-129 | a deletion that fails hands its error to the runtime until the finalizer is gone |
| `AccountOutcomes.StatusNotLost` | internal/controller/accounts/account_controller.go:83-99 | a status that did not reach the server leaves the old one and is written again |
| `AccountOutcomes.WrittenAccountSeed` | internal/controller/accounts/account_controller.go:131-145 | a seed secret written is the Account's own and guarded, and holds the seed that was there or a new account seed |
| `Specimens.AccountListFailureStaysReady` | internal/controller/accounts/account_controller.go:176-182 | a Ready Account whose signing keys cannot be listed stays Ready |
| `AccountTheorems.StepFrames` | internal/controller/accounts/account_controller.go:87-99 | a step changes nothing but this Account's labels, finalizers and status, and secrets; all statuses stay coupled |
| `AccountTheorems.FinalizePanicsIff` | internal/controller/accounts/account_controller.go:479-574 | the nil dereference happens iff both conditions are True and the reference, or the key pair where the removal is reached, is missing |
| `AccountTheorems.FinalizeSafe` | internal/controller/accounts/account_controller.go:479-574 | with OperatorResolved and SeedSecretReady True it never panics |
| `AccountTheorems.DeletedAfterOperatorFailurePanics` | internal/controller/accounts/account_controller.go:482-502 | a pushed Account whose Operator then cannot be resolved panics on deletion, however other calls end |
| `AccountTheorems.PanicIsReachable` | internal/controller/accounts/account_controller.go:482-502 | a concrete Ready Account from which that happens |
| `AccountTheorems.DeletedAfterSeedFailurePanics` | internal/controller/accounts/account_controller.go:567-571 | a pushed Account whose seed stage then fails panics on deletion once the removal is reached |
| `AccountTheorems.RevokedIff` | internal/controller/accounts/account_controller.go:479-574 | a deletion removes the JWT iff both conditions and both fields are there, the Operator and its seed are readable and the removal succeeds |
| `AccountTheorems.LeftBehindIff` | internal/controller/accounts/account_controller.go:482-547 | the Account is let go without a removal iff the update succeeds and a condition is not True, or the Operator or its system account is gone |
| `AccountTheorems.SentThenLeftBehind` | internal/controller/accounts/account_controller.go:466-492 | a JWT sent by a reconcile that the stored condition does not record stays when the Account is then deleted |
| `Specimens.SentJwtIsLeftBehind` | internal/controller/accounts/account_controller.go:466-492 | a concrete Account whose JWT is sent and left, both for a push that reports an error and for a status that is not stored |
| `AccountOutcomes.FailedRemovalIff` | internal/controller/accounts/account_controller.go:534-571 | a removal that failed is made good by a second attempt iff it was not the connection's options that failed |
| `Specimens.FailedOptionsLeaveJwt` | internal/controller/accounts/account_controller.go:549-556 | a concrete Account whose JWT stays because the options failed once |
| `Specimens.SecondPanicIsReachable` | internal/controller/accounts/account_controller.go:567-571 | a concrete Ready Account for the second dereference |
| `AccountTheorems.StepKeepsSeeds` | internal/controller/accounts/account_controller.go:131-215 | a step keeps every guarded seed, and the Account's own seed even while unguarded |
| `AccountRuns.EventMeaning` | internal/controller/accounts/account_controller.go:101-129 | a push needs the finalizer and no deletion timestamp, a removal a deletion; the finalizer goes only by finalization |
| `AccountRuns.NoPushOnceDeleting` | internal/controller/accounts/account_controller.go:101-129 | over every run no push follows the start of deletion |
| `AccountRuns.RemovedStaysRemoved` | internal/controller/accounts/account_controller.go:110-129 | a JWT removed by finalization is never put back |
| `AccountRuns.PushedIsHeld` | internal/controller/accounts/account_controller.go:101-126 | an object that has pushed loses its finalizer only through a finalization |
| `AccountConvergence.Progress` | internal/controller/accounts/account_controller.go:101-209 | with calls succeeding every reconcile at a positive measure requeues and lowers it |
| `AccountConvergence.PushStep` | internal/controller/accounts/account_controller.go:198-215 | at measure zero a reconcile pushes and settles the status |
| `AccountConvergence.Converges` | internal/controller/accounts/account_controller.go:73-216 | after more reconciles than the measure the Account is settled and Ready |
| `AccountConvergence.SettledIsQuiet` | internal/controller/accounts/account_controller.go:83-99 | a further reconcile writes nothing and leaves the cluster as it is |
| `AccountConvergence.WantedIsDue` | pkg/nsc/createaccount.go:12-50 | the wanted claims depend only on the cluster, not on the merge's order |
| `AccountConvergence.SurroundedIff` | internal/controller/accounts/account_controller.go:147-196 | the surroundings are in place iff there is a Ready issuer as named, an Operator behind it that admits the Account, and its operator seed |
| `OperatorTheorems.OperatorStepMeaning` | internal/controller/accounts/operator_controller.go:66-139 | for every outcome: completion has a stored JWT signed by the Operator's own stored seed, with its name, config and keys, and as system account the Account that the spec names with the public key in that one's status; it is Ready iff the keys were listed now or before; a marked failure is on the condition of its stage; after a failure to list the keys Ready iff keys and JWT were |
| `OperatorTheorems.SystemAccountFoundIff` | internal/controller/accounts/operator_controller.go:204-230 | the system account is found iff the Account of that name in the Operator's namespace has its seed; the reference is its name and its public key |
| `OperatorTheorems.OperatorStepReturns` | internal/controller/accounts/operator_controller.go:66-139 | for every exit what is returned, and exactly when a failure is final; a status that did not reach the server is written again |
| `OperatorTheorems.WrittenOperatorSeed` | internal/controller/accounts/operator_controller.go:94-107 | a seed secret written is the Operator's own and guarded, and holds the seed that was there or a new operator seed |
| `OperatorTheorems.ListedKeysServe` | internal/controller/accounts/operator_controller.go:173-201 | the list holds exactly the ready SigningKeys of the namespace whose owner has this namespace and name |
| `Specimens.OperatorListFailureStaysReady` | internal/controller/accounts/operator_controller.go:116-127 | a Ready Operator whose signing keys cannot be listed stays Ready |
| `OperatorTheorems.OperatorKeysMeaning` | internal/controller/accounts/operator_controller.go:183-191 | the list holds exactly the ready keys whose owner has this namespace and name |
| `Specimens.OperatorListsForeignKey` | internal/controller/accounts/operator_controller.go:183-191 | an Operator lists the key of an Account that has its name |
| `OperatorTheorems.OperatorStepKeepsSeeds` | internal/controller/accounts/operator_controller.go:94-139 | a step keeps every guarded seed and the Operator's own |
| `OperatorReconcilers.OperatorReconciler.EnsureSystemAccountResolved` | internal/controller/accounts/operator_controller.go:204-230 | the Account need not be ready; its key pair is safely dereferenced and its public key recorded |
| `OperatorReconcilers.OperatorReconciler.Reconcile` | internal/controller/accounts/operator_controller.go:66-139 | the running reconcile is the step, of which OperatorStepMeaning says what it leaves |
| `BootstrapOperator.OperatorStepLowers` | internal/controller/accounts/operator_controller.go:94-139 | an Operator's reconcile lowers the rank, or is idle and changes nothing |
| `BootstrapAccount.AccountStepLowers` | internal/controller/accounts/account_controller.go:101-215 | an Account's reconcile lowers the rank, or is idle and changes only what is said of the push |
| `BootstrapTheorem.BothIdle` | internal/controller/accounts/operator_controller.go:198-230 | if neither has anything to do, the rank is zero and the Operator Ready |
| `BootstrapTheorem.NoDeadlock` | internal/controller/accounts/base_controller.go:269-282 | at a positive rank every succeeding reconcile of one of the two lowers it |
| `BootstrapTheorem.SettledAccount` | internal/controller/accounts/operator_controller.go:198-203 | at rank zero the Operator is Ready and the Account Ready iff pushed |
| `BootstrapTheorem.SettledAgree` | internal/controller/accounts/operator_controller.go:198-230 | at rank zero the two agree down to the stored seeds: the Operator's JWT and status name the public key of the Account's seed, the Account's JWT is signed by the Operator's seed for its own |
| `Bootstrap.AdmitsIff` | internal/controller/accounts/account_controller.go:218-248 | admission in the setting means that both selectors allow the Account and the label selector does not look at the controller's own label |
| `BootstrapTheorem.RankNeverRises` | internal/controller/accounts/operator_controller.go:94-139 | over any interleaving the rank plus the number of turns that found work never exceeds the rank at the start |
| `BootstrapTheorem.BootstrapCompletes` | internal/controller/accounts/operator_controller.go:198-230 | after as many fair stretches as the rank says the Operator is Ready and all is settled |
| `BootstrapTheorem.TurnRaises` | internal/controller/accounts/operator_controller.go:94-139 | no turn lowers the level, and the turn a level waits for raises it |
| `BootstrapTheorem.BootstrapCompletesInTime` | internal/controller/accounts/operator_controller.go:198-230 | eight fair stretches are enough from any start, one for each level still to come |
| `BootstrapTheorem.FreshClusterBoots` | internal/controller/accounts/operator_controller.go:198-203 | two new objects that name each other are such a start |
| `BootstrapTheorem.BootedConverges` | internal/controller/accounts/account_controller.go:198-215 | at rank zero the Account meets every assumption of convergence at measure zero, so one successful push makes it Ready for good |
| `UserTheorems.UserStepMeaning` | internal/controller/accounts/user_controller.go:68-165 | for every outcome: completion ends Ready, marked failures are on the condition of their stage, after an unmarked failure Ready iff the stored conditions not marked on the way are True; the stored JWT carries name and permissions of the spec and is signed by the account seed of the Ready issuer that the spec names, for the Ready Account behind it, which admits the User; credentials are built from the stored JWT and seed and the CA |
| `UserTheorems.AccountFoundIff` | internal/controller/accounts/user_controller.go:202-250 | the account is found iff it is the issuer, or the owner in the issuing SigningKey's status, and is there and Ready |
| `UserOutcomes.UserAdmissionNeeded` | internal/controller/accounts/user_controller.go:112-164 | whatever the outcome, a reconcile that gets past the account stage has a Ready issuer as named, and a Ready Account behind it that admits the User |
| `UserOutcomes.RefusedUserStops` | internal/controller/accounts/user_controller.go:112-133 | a User that no Account behind its issuer admits stops there; a refusal proper is NotAllowed and final |
| `UserOutcomes.UserReturns` | internal/controller/accounts/user_controller.go:68-165 | for every exit what is returned, and exactly when a failure is final; a status that did not reach the server is written again |
| `UserOutcomes.WrittenUserSeed` | internal/controller/accounts/user_controller.go:96-109 | a seed secret written is the User's own, and holds the seed that was there or a new user seed |
| `Specimens.UnreadyAccountStaysReady` | internal/controller/accounts/user_controller.go:228-240 | a Ready User whose signing key's account is not ready stays Ready |
| `Specimens.LabelFailureStaysReady` | internal/controller/accounts/user_controller.go:421-445 | a Ready User whose label cannot be written stays Ready |
| `Specimens.CAFailureStaysReady` | internal/controller/accounts/user_controller.go:325-335 | a Ready User whose CA cannot be read stays Ready |
| `UserTheorems.StoreUserJWTMeaning` | internal/controller/accounts/user_controller.go:252-284 | the stored JWT was issued to the User's name and key, with the spec's permissions or limits, by the signer for the account |
| `UserTheorems.LimitsCarryOverIff` | pkg/nsc/createuser.go:20-59 | limits and bearer token carry over iff no permissions are set or they are at their defaults |
| `UserTheorems.FoundAccountHasKeyPair` | internal/controller/accounts/user_controller.go:202-250 | a resolved account has a key pair |
| `UserTheorems.UserLabelSticks` | internal/controller/accounts/user_controller.go:421-445 | the label written is the account's name, and no other label changes |
| `UserFixpoint.StagesSettle` | internal/controller/accounts/user_controller.go:96-164 | a reconcile completes iff seed, account, label, JWT and credentials are current, and then writes no secret |
| `UserFixpoint.CompletedIsQuiet` | internal/controller/accounts/user_controller.go:386-404 | after a completed reconcile the next one writes nothing, whatever its stamps |
| `UserConvergence.Progress` | internal/controller/accounts/user_controller.go:96-164 | with calls succeeding every reconcile at a positive measure over seed, label, JWT and credentials requeues and lowers it |
| `UserConvergence.Completes` | internal/controller/accounts/user_controller.go:398-404 | at measure zero a reconcile completes and finishes the User, and writes nothing if it was finished |
| `UserConvergence.UserConverges` | internal/controller/accounts/user_controller.go:68-165 | after more reconciles than the measure the User is finished and Ready |
| `UserConvergence.FinishedIsQuiet` | internal/controller/accounts/user_controller.go:76-94 | a further reconcile writes nothing and leaves the cluster as it is |
| `UserSeeds.UserSeedLostIff` | internal/controller/accounts/user_controller.go:96-164 | exactly on which inputs a reconcile loses the seed: its name is that of the JWT secret and a JWT is due, or that of the credentials, the JWT is current and they can be written |
| `Specimens.SharedWithJwtLosesSeed` | internal/controller/accounts/base_controller.go:159-175 | a concrete User whose seed has the name of its JWT secret loses it |
| `Specimens.SharedWithCredsLosesSeed` | internal/controller/accounts/user_controller.go:386-418 | a concrete User whose seed has the name of its credentials loses it |
| `UserSeeds.UserSeedKept` | internal/controller/accounts/user_controller.go:96-164 | with the three names apart the seed is kept by every reconcile |
| `UserSeeds.UserStepKeepsGuarded` | internal/controller/accounts/user_controller.go:325-419 | no reconcile of a User harms the seed of an Operator or Account |
| `UserSeeds.UserStepKeepsOwned` | internal/controller/accounts/user_controller.go:68-165 | no reconcile of another User, nor of the holder with its names apart, harms the seed of a User or SigningKey |
| `UserSeeds.UserOwnsSeed` | internal/controller/accounts/base_controller.go:36-137 | after its seed stage a User owns its seed, whether the secret was created or found without another owner |
| `UserReconcilers.UserReconciler.ReconcileUserCredentialSecret` | internal/controller/accounts/user_controller.go:325-357 | the running method ends as the stage says |
| `UserReconcilers.UserReconciler.Reconcile` | internal/controller/accounts/user_controller.go:68-165 | the running reconcile is the step |
| `SigningKeyController.KeyStepMeaning` | internal/controller/accounts/signingkey_controller.go:75-120 | the owner recorded is kind, namespace, name and UID of the object that the spec names, whose selector admits the key; a missing or refusing owner ends unresolved; statuses stay coupled, Ready iff the owner's kind is supported once a pair is there, after an unmarked failure iff also the pair was marked before; no existing secret changes |
| `SigningKeyController.OwnerFoundIff` | internal/controller/accounts/signingkey_controller.go:192-276 | an owner is found iff the object of that kind and name in the key's namespace is there and its selector admits the key; a refusal is final |
| `SigningKeyController.KeyReturns` | internal/controller/accounts/signingkey_controller.go:75-120 | for every exit what is returned: a write comes again, a refusal is final, every other failure goes to the runtime |
| `SigningKeyController.KeyStatusNotLost` | internal/controller/accounts/signingkey_controller.go:84-101 | a status that did not reach the server leaves the old one and is written again |
| `ControllerRuns.ReconciledKeyServes` | internal/controller/accounts/signingkey_controller.go:234-241 | a SigningKey of an Account reconciled to the end carries that Account's UID and counts for it |
| `ControllerRuns.ReconciledKeyIsListed` | pkg/helpers/signingkeys.go:26-39 | and every later update of the Account's keys lists it with its pair |
| `Specimens.KeySecretFailureStaysReady` | internal/controller/accounts/signingkey_controller.go:180-182 | a Ready SigningKey whose secret cannot be read stays Ready |
| `SigningKeyController.CreatedKeySeedIsOwned` | internal/controller/accounts/signingkey_controller.go:122-179 | the secret made for a SigningKey holds a new seed of its owner's kind, published as it is, immutable, labelled and owned by it alone |
| `SigningKeyController.KeyLabelSticks` | internal/controller/accounts/signingkey_controller.go:278-320 | the owner's name goes under the label of its kind, other labels stay, and the next reconcile passes on to the key pair |
| `SigningKeyController.PublishedKeyIff` | internal/controller/accounts/signingkey_controller.go:183-187 | the published key is the stored seed's iff the secret's two fields agree |
| `SigningKeyController.WrongKeyPublished` | internal/controller/accounts/signingkey_controller.go:183-187 | a secret without the field makes it publish an empty key |
| `SigningKeyController.CreatedPairIsFound` | internal/controller/accounts/signingkey_controller.go:122-190 | a pair the controller made is published again without a write |
| `SigningKeyReconcilers.SigningKeyReconciler.Reconcile` | internal/controller/accounts/signingkey_controller.go:75-120 | the whole reconcile on a live condition list is the step, of which KeyStepMeaning says what it leaves |
| `ControllerRuns.StatusesStayCoupled` | api/accounts/v1alpha1/account_lifecycle.go:43-119 | in every state reachable by the four controllers a condition is True exactly when its field is set |
| `ControllerRuns.SeedsSurvive` | internal/controller/accounts/base_controller.go:54-103 | over every run of the four controllers the seed of an Operator or Account stays what it was |
| `ControllerRuns.OwnedSeedsSurvive` | internal/controller/accounts/base_controller.go:54-103 | over every run of the four controllers the seed of a User with its names apart, or of a SigningKey, stays what it was, whatever names other objects use |
| `ControllerRuns.UserIssuance` | pkg/nsc/createuser.go:61-71 | the effective account of every user JWT written is the resolved Account's public key |
| `ControllerRuns.IssuanceOverRuns` | pkg/nsc/createuser.go:61-71 | the same for every user JWT written along any run from a cluster without statuses |
| `ControllerRuns.RunKeepsReal` | internal/controller/accounts/base_controller.go:99-102 | over every run public keys in Account statuses are never empty |

## Left out

- The statuses of Operators and Users are marked as values; only the Account's and the SigningKey's are also marked on a live condition list, as the others repeat the same few lines.
- The order of conditions with equal transition time is a fixed function of the list, where Go's sort is unstable.
- A status is compared with the stored one up to transition times.
- Status-update conflicts end the step as the code does, but retries, cache staleness and partial writes within a reconcile are not modelled: a reconcile is one atomic step on its snapshot.
- NATS I/O, TLS options and the system account loader: outcomes of an oracle; the request sent is recorded.
- The CA bundle for credentials (`getCAIfExists`) and whether credentials format are outcomes of an oracle.
- Conversions of limits, exports, imports and permissions: one opaque text per claim.
- Cryptography of nkeys and JWTs, and what the API server does beyond finalizers, names and owner references.
- `updateOperatorJWTSigningKeys` and `isEqualUnordered`, which nothing calls.
- Watch mappings, events, logging and setup.
- AccountController.Push: a push that reports an error may or may not have reached the server; the model records it as sent.
