/**
 An Operator and its system Account wait on each other: the Operator's JWT names the Account's
 public key, and the Account's JWT is signed by the Operator once that is Ready.

 Each reconcile brings parts of the state to the value that the rest of the state calls for. The
 parts form a line in which each depends only on earlier ones, so that a step which changes
 anything settles the earliest part it changes, and a binary count of the parts that are not
 settled goes down.
 */
module Bootstrap {
  import opened Texts
  import opened Conditions
  import opened ConditionRuns
  import opened Lifecycles
  import opened Errors
  import opened Secrets
  import opened SigningKeys
  import opened ClusterState
  import opened SecretStages
  import opened OperatorController
  import opened AccountController
  import opened AccountConvergence
  import Operators = OperatorTheorems
  import Accounts = AccountTheorems

  /******* The setting *******/

  function OpSeedKey(c: Cluster, o: Key): Key
    requires o in c.operators
  {
    Operators.OperatorSeedKey(c, o)
  }

  function OpJwtKey(c: Cluster, o: Key): Key
    requires o in c.operators
  {
    Operators.OperatorJwtKey(c, o)
  }

  // The Operator's seed secret is missing or holds an operator seed, and nobody else controls it.
  predicate OpSeedFree(c: Cluster, o: Key)
    requires o in c.operators
  {
    var q := OpSeedKey(c, o);
    q in c.secrets ==>
      && SeedKey in c.secrets[q].data && c.secrets[q].data[SeedKey].SeedBlob?
      && c.secrets[q].data[SeedKey].seed.prefix == PrefixOperator
      && SetController(OperatorOwner(o, c.operators[o]), c.secrets[q].owners).Some?
  }

  predicate OpJwtFree(c: Cluster, o: Key)
    requires o in c.operators
  {
    var q := OpJwtKey(c, o);
    q in c.secrets ==>
      if JWTKey in c.secrets[q].data then SetController(OperatorOwner(o, c.operators[o]), c.secrets[q].owners).Some?
      else OwnedBy(c.secrets[q], c.operators[o].uid) && c.secrets[q].finalizers == {}
  }

  predicate FourNames(c: Cluster, o: Key, a: Key)
    requires o in c.operators && a in c.accounts
  {
    var q1, q2, q3, q4 := OpSeedKey(c, o), OpJwtKey(c, o), Accounts.SeedSecretKey(c, a), Accounts.JwtKey(c, a);
    q1 != q2 && q1 != q3 && q1 != q4 && q2 != q3 && q2 != q4 && q3 != q4
  }

  // The Operator's selectors admit the Account, whatever the controller's own label says.
  predicate Admits(c: Cluster, o: Key, a: Key)
    requires o in c.operators && a in c.accounts
  {
    var spec := c.operators[o].spec;
    && ValidateSelectors(c, o.ns, spec.accountsNamespaceSelector, spec.accountsSelector, a.ns, c.accounts[a].labels, true).Ok?
    && (spec.accountsSelector.Some? ==> Blind(spec.accountsSelector.value))
  }

  lemma AdmitsIff(c: Cluster, o: Key, a: Key)
    requires o in c.operators && a in c.accounts
    ensures Admits(c, o, a) <==>
              && Accounts.AdmittedBy(c, a, o)
              && (c.operators[o].spec.accountsSelector.Some? ==> Blind(c.operators[o].spec.accountsSelector.value))
  {
    var spec := c.operators[o].spec;
    AdmittedIff(c, o.ns, spec.accountsNamespaceSelector, spec.accountsSelector, a.ns, c.accounts[a].labels, true);
    hide ValidateSelectors, NamespaceAllowed, LabelsAllowed, Blind;
  }

  // Each names the other.
  predicate Mutual(c: Cluster, o: Key, a: Key)
    requires o in c.operators && a in c.accounts
  {
    && a == Key(o.ns, c.operators[o].spec.systemAccount)
    && c.accounts[a].spec.issuer.kind == KindOperator && o.name == c.accounts[a].spec.issuer.name
    && o.ns == (if c.accounts[a].spec.issuer.ns == "" then a.ns else c.accounts[a].spec.issuer.ns)
    && c.accounts[a].spec.signingKeysSelector != Some(Unparsable)
    && !c.accounts[a].deleting
  }

  // Any statuses, any of the four secrets present or missing.
  ghost predicate Boot(c: Cluster, o: Key, a: Key) {
    && Coupled(c) && o in c.operators && a in c.accounts
    && Mutual(c, o, a) && Admits(c, o, a) && FourNames(c, o, a)
    && OpSeedFree(c, o) && OpJwtFree(c, o) && SeedNameFree(c, a) && JwtNameFree(c, a)
  }

  /******* Succeeding calls *******/

  predicate OperatorSucceeds(x: OperatorOracle) {
    && x.fetchOk && x.accountOk && x.list == Listed && x.encodeOk && x.status == StatusStored
    && x.seed.getOk && x.seed.newKey.Some? && x.seed.createOk && x.seed.updateOk
    && x.jwt.getOk && x.jwt.deleteOk && x.jwt.createOk && x.jwt.update == Updated
  }

  // Everything but the push, which may end in any way.
  ghost predicate AccountSucceeds(c: Cluster, a: Key, x: AccountOracle)
    requires a in c.accounts
  {
    Succeeds(c, a, x.(push := PushSucceeds))
  }

  /******* The parts *******/

  predicate OperatorMissing(s: OperatorStatus) {
    s.seed.Missing? || s.system.Missing? || s.keys.Missing? || s.jwt.Missing?
  }

  predicate AccountMissing(s: AccountStatus) {
    s.seed.Missing? || s.operator.Missing? || s.issuer.Missing? || s.keys.Missing? || s.jwt.Missing? || s.pushed.Missing?
  }

  predicate OpSeedDone(c: Cluster, o: Key)
    requires o in c.operators
  {
    SeedBuilt(c.secrets, OperatorOwner(o, c.operators[o]), c.operators[o].spec.seedSecretName, true)
  }

  function SeedAt(store: Store, key: Key): Seed
    requires key in store && SeedKey in store[key].data && store[key].data[SeedKey].SeedBlob?
  {
    store[key].data[SeedKey].seed
  }

  function OpPair(c: Cluster, o: Key): KeyPair
    requires o in c.operators && OpSeedDone(c, o)
  {
    KeyPair(PublicKey(SeedAt(c.secrets, OpSeedKey(c, o))), c.operators[o].spec.seedSecretName)
  }

  function AccPair(c: Cluster, a: Key): KeyPair
    requires a in c.accounts && SeedDone(c, a)
  {
    KeyPair(PublicKey(SeedAt(c.secrets, Accounts.SeedSecretKey(c, a))), c.accounts[a].spec.seedSecretName)
  }

  // A part of a status is settled when marking it once more changes nothing.
  predicate OpPairRight(c: Cluster, o: Key)
    requires o in c.operators
  {
    OpSeedDone(c, o) && c.operators[o].status == c.operators[o].status.MarkSeedSecretReady(OpPair(c, o))
  }

  predicate AccPairRight(c: Cluster, a: Key)
    requires a in c.accounts
  {
    SeedDone(c, a) && c.accounts[a].status == c.accounts[a].status.MarkSeedSecretReady(AccPair(c, a))
  }

  function SystemMark(s: OperatorStatus, found: Res<KeyPairRef>): OperatorStatus {
    match found
    case Ok(ref) => s.MarkSystemAccountResolved(ref)
    case Fail(e) => MarkSystemAccount(s, Verdict(e))
  }

  predicate SystemRight(c: Cluster, o: Key)
    requires Coupled(c) && o in c.operators
  {
    c.operators[o].status == SystemMark(c.operators[o].status, FindSystemAccount(c, o, true))
  }

  predicate OpKeysRight(c: Cluster, o: Key)
    requires Coupled(c) && o in c.operators
  {
    c.operators[o].status == c.operators[o].status.MarkSigningKeysUpdated(ListedKeys(c, o))
  }

  predicate OpJwtRight(c: Cluster, o: Key)
    requires o in c.operators
  {
    && OpSeedDone(c, o) && OpJwtKey(c, o) in c.secrets
    && OpStores(c, o, c.operators[o].status)
  }

  // The stored JWT says what this status calls for.
  predicate OpStores(c: Cluster, o: Key, s: OperatorStatus)
    requires o in c.operators && OpSeedDone(c, o) && OpJwtKey(c, o) in c.secrets
  {
    var due := OperatorClaimsOf(o.name, c.operators[o].spec, s, SeedAt(c.secrets, OpSeedKey(c, o)), 0, "");
    due.Some? && Stores(c.secrets[OpJwtKey(c, o)], due.value)
  }

  predicate OpJwtUp(c: Cluster, o: Key)
    requires o in c.operators
  {
    c.operators[o].status == c.operators[o].status.MarkJWTSecretReady()
  }

  function IssuerMark(s: AccountStatus, c: Cluster, a: Key): AccountStatus
    requires a in c.accounts
  {
    match ResolveIssuer(c, c.accounts[a].spec.issuer, a.ns, true)
    case Fail(e) => MarkIssuer(s, Verdict(e))
    case Ok(issuer) =>
      match LoadAccountIssuerSeed(c, issuer, true)
      case Fail(e) => MarkIssuer(s, Verdict(e))
      case Ok(_) => s.MarkIssuerResolved()
  }

  predicate IssuerRight(c: Cluster, a: Key)
    requires a in c.accounts
  {
    c.accounts[a].status == IssuerMark(c.accounts[a].status, c, a)
  }

  predicate OperatorRight(c: Cluster, o: Key, a: Key)
    requires a in c.accounts
  {
    c.accounts[a].status == c.accounts[a].status.MarkOperatorResolved(o)
  }

  predicate LabelRight(c: Cluster, o: Key, a: Key)
    requires a in c.accounts
  {
    LabelOf(c.accounts[a].labels) == o.name
  }

  ghost predicate KeysRight(c: Cluster, a: Key)
    requires a in c.accounts
  {
    var s := c.accounts[a].status;
    && s == s.MarkSigningKeysUpdated(s.signingKeys)
    && AllCoupled(Candidates(c, a))
    && IsNext(s.signingKeys, c.accounts[a].uid, s.signingKeys, Candidates(c, a))
  }

  // The claims that the Operator's status, the Account's stored seed and the SigningKeys call for.
  function BootClaims(c: Cluster, o: Key, a: Key): Claims
    requires Coupled(c) && o in c.operators && a in c.accounts && c.operators[o].status.keyPair.Some? && SeedDone(c, a)
  {
    CandidatesCoupled(c, a);
    AccountClaims(ClaimsData("", 0, c.operators[o].status.keyPair.value.publicKey, AccPair(c, a).publicKey, a.name),
                  KeySet(c, a), c.accounts[a].spec.config)
  }

  predicate AccJwtRight(c: Cluster, o: Key, a: Key)
    requires Coupled(c) && o in c.operators && a in c.accounts
  {
    && c.operators[o].status.keyPair.Some? && SeedDone(c, a)
    && Accounts.JwtKey(c, a) in c.secrets && Stores(c.secrets[Accounts.JwtKey(c, a)], BootClaims(c, o, a))
  }

  // The secret that the Operator's status names as its seed secret.
  function NamedSeed(c: Cluster, o: Key): Option<Key>
    requires o in c.operators
  {
    var pair := c.operators[o].status.keyPair;
    if pair.None? then None else Some(Key(o.ns, pair.value.seedSecretName))
  }

  // A status from before a renaming may name the Account's JWT secret, which then still holds a seed.
  predicate Misread(c: Cluster, o: Key, a: Key)
    requires o in c.operators && a in c.accounts
  {
    var q := Accounts.JwtKey(c, a);
    NamedSeed(c, o) == Some(q) && q in c.secrets && SeedKey in c.secrets[q].data
  }

  predicate AccJwtUp(c: Cluster, a: Key)
    requires a in c.accounts
  {
    c.accounts[a].status == c.accounts[a].status.MarkJWTSecretReady()
  }

  /******* The rank *******/

  // Which parts are not settled, the earliest first.
  ghost function Open(c: Cluster, o: Key, a: Key): (bits: seq<bool>)
    requires Coupled(c) && o in c.operators && a in c.accounts
    ensures |bits| == 18
  {
    [OperatorMissing(c.operators[o].status),
     AccountMissing(c.accounts[a].status),
     !OpSeedDone(c, o),
     AccountFinalizer !in c.accounts[a].finalizers,
     !SeedDone(c, a),
     !OpPairRight(c, o),
     !AccPairRight(c, a),
     !SystemRight(c, o),
     !OpKeysRight(c, o),
     !OpJwtRight(c, o),
     !OpJwtUp(c, o),
     Misread(c, o, a),
     !IssuerRight(c, a),
     !OperatorRight(c, o, a),
     !LabelRight(c, o, a),
     !KeysRight(c, a),
     !AccJwtRight(c, o, a),
     !AccJwtUp(c, a)]
  }

  function Value(bits: seq<bool>): nat {
    if bits == [] then 0 else (if bits[0] then Power(|bits| - 1) else 0) + Value(bits[1..])
  }

  function Power(n: nat): nat { if n == 0 then 1 else 2 * Power(n - 1) }

  ghost function BootRank(c: Cluster, o: Key, a: Key): nat
    requires Coupled(c) && o in c.operators && a in c.accounts
  {
    Value(Open(c, o, a))
  }

  lemma {:induction false} ValueBounded(bits: seq<bool>)
    ensures Value(bits) < Power(|bits|)
  {
    if bits != [] { ValueBounded(bits[1..]); }
  }

  // Clearing one bit while setting none before it lowers the value, whatever comes after.
  lemma {:induction false} ClearingLowers(b: seq<bool>, b': seq<bool>, i: nat)
    requires |b| == |b'| && i < |b| && b[i] && !b'[i]
    requires forall j :: 0 <= j < i ==> (b'[j] ==> b[j])
    ensures Value(b') < Value(b)
  {
    if i == 0 {
      ValueBounded(b'[1..]);
    } else {
      assert b'[0] ==> b[0];
      forall j | 0 <= j < i - 1 ensures b'[1..][j] ==> b[1..][j] {
        assert b'[j + 1] ==> b[j + 1];
      }
      ClearingLowers(b[1..], b'[1..], i - 1);
    }
  }
}
