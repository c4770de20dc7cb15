/**
 The stable merge of pkg/helpers/signingkeys.go.
 */
module SigningKeys {
  import opened Texts
  import opened Lifecycles

  // A listed SigningKey, as far as the merge reads it.
  datatype ListedKey = ListedKey(name: string, status: SigningKeyStatus)

  // Ready, and owned by the resource with this UID.
  predicate Eligible(uid: string, sk: ListedKey)
    requires sk.status.Coupled()
  {
    sk.status.Ready() && sk.status.ownerRef.value.uid == uid
  }

  predicate AllCoupled(items: seq<ListedKey>) {
    forall sk :: sk in items ==> sk.status.Coupled()
  }

  // The eligible keys by name; of two items with one name the later counts.
  function FreshKeys(uid: string, items: seq<ListedKey>): (m: map<string, SigningKeyEntry>)
    requires AllCoupled(items)
    ensures forall n :: n in m ==> m[n].name == n
  {
    if items == [] then map[]
    else
      var m, sk := FreshKeys(uid, items[..|items| - 1]), items[|items| - 1];
      if Eligible(uid, sk) then m[sk.name := SigningKeyEntry(sk.name, sk.status.keyPair.value)] else m
  }

  // A name is listed only for an eligible item of that name,
  lemma {:induction false} FreshKeysSource(uid: string, items: seq<ListedKey>, n: string) returns (i: nat)
    requires AllCoupled(items) && n in FreshKeys(uid, items)
    ensures i < |items| && items[i].name == n && IsTrue(items[i].status.owner) && IsTrue(items[i].status.seed)
    ensures items[i].status.ownerRef.Some? && items[i].status.ownerRef.value.uid == uid
    ensures items[i].status.keyPair == Some(FreshKeys(uid, items)[n].keyPair)
  {
    var last := items[|items| - 1];
    if Eligible(uid, last) && last.name == n {
      i := |items| - 1;
    } else {
      i := FreshKeysSource(uid, items[..|items| - 1], n);
    }
  }

  // and every eligible item without a later eligible namesake is listed with its key pair.
  lemma {:induction false} FreshKeysListed(uid: string, items: seq<ListedKey>, i: nat)
    requires AllCoupled(items) && i < |items| && IsTrue(items[i].status.owner) && IsTrue(items[i].status.seed)
    requires items[i].status.ownerRef.value.uid == uid
    requires forall j :: i < j < |items| && items[j].name == items[i].name ==>
                         !IsTrue(items[j].status.owner) || !IsTrue(items[j].status.seed) || items[j].status.ownerRef.value.uid != uid
    ensures items[i].name in FreshKeys(uid, items)
    ensures items[i].status.keyPair == Some(FreshKeys(uid, items)[items[i].name].keyPair)
  {
    if i < |items| - 1 {
      FreshKeysListed(uid, items[..|items| - 1], i);
    }
  }

  // A name with an eligible item is listed in any case.
  lemma {:induction false} EligibleIsListed(uid: string, items: seq<ListedKey>, i: nat)
    requires AllCoupled(items) && i < |items| && Eligible(uid, items[i])
    ensures items[i].name in FreshKeys(uid, items)
  {
    if i < |items| - 1 { EligibleIsListed(uid, items[..|items| - 1], i); }
  }

  // Where a name first stands; the length of the list if nowhere.
  function FirstIndex(s: seq<SigningKeyEntry>, name: string): (i: nat)
    ensures i <= |s|
  {
    if s == [] || s[0].name == name then 0 else 1 + FirstIndex(s[1..], name)
  }

  lemma {:induction false} FirstIndexMeaning(s: seq<SigningKeyEntry>, name: string, k: nat)
    requires k < |s|
    ensures k < FirstIndex(s, name) ==> s[k].name != name
    ensures k == FirstIndex(s, name) ==> s[k].name == name
  {
    if s[0].name != name && k > 0 { FirstIndexMeaning(s[1..], name, k - 1); }
  }

  predicate DistinctNames(s: seq<SigningKeyEntry>) {
    forall i, j :: 0 <= i < j < |s| ==> s[i].name != s[j].name
  }

  predicate InOrderOf(current: seq<SigningKeyEntry>, next: seq<SigningKeyEntry>) {
    forall i, j :: 0 <= i < j < |next| ==> FirstIndex(current, next[i].name) <= FirstIndex(current, next[j].name)
  }

  lemma AppendInOrder(current: seq<SigningKeyEntry>, next: seq<SigningKeyEntry>, e: SigningKeyEntry)
    requires InOrderOf(current, next)
    requires forall k :: 0 <= k < |next| ==> FirstIndex(current, next[k].name) <= FirstIndex(current, e.name)
    ensures InOrderOf(current, next + [e])
  {
  }

  // Every eligible key once with its fresh key pair; keys of the old list first, in its order.
  ghost predicate IsMerge(next: seq<SigningKeyEntry>, current: seq<SigningKeyEntry>, eligible: map<string, SigningKeyEntry>) {
    && DistinctNames(next)
    && (forall e :: e in next ==> e.name in eligible && eligible[e.name] == e)
    && (forall n :: n in eligible ==> eligible[n] in next)
    && InOrderOf(current, next)
  }

  ghost predicate IsNext(next: seq<SigningKeyEntry>, uid: string, current: seq<SigningKeyEntry>, items: seq<ListedKey>)
    requires AllCoupled(items)
  {
    IsMerge(next, current, FreshKeys(uid, items))
  }

  /******* The three loops *******/

  method NextSigningKeys(uid: string, current: seq<SigningKeyEntry>, items: seq<ListedKey>) returns (next: seq<SigningKeyEntry>)
    requires AllCoupled(items)
    ensures IsNext(next, uid, current, items)
  {
    var byName := CollectEligible(uid, items);
    var rest;
    next, rest := TakeExisting(current, byName);
    next := DrainRest(current, byName, next, rest);
  }

  method CollectEligible(uid: string, items: seq<ListedKey>) returns (byName: map<string, SigningKeyEntry>)
    requires AllCoupled(items)
    ensures byName == FreshKeys(uid, items)
  {
    byName := map[];
    for i := 0 to |items|
      invariant AllCoupled(items[..i]) && byName == FreshKeys(uid, items[..i])
    {
      var sk := items[i];
      assert items[..i + 1][..i] == items[..i] && sk in items;
      if !sk.status.Ready() || sk.status.ownerRef.value.uid != uid { continue; }
      byName := byName[sk.name := SigningKeyEntry(sk.name, sk.status.keyPair.value)];
    }
    assert items[..|items|] == items;
  }

  predicate Named(m: map<string, SigningKeyEntry>) {
    forall n :: n in m ==> m[n].name == n
  }

  // What has been appended and what remains make up the eligible keys.
  ghost predicate Partial(next: seq<SigningKeyEntry>, eligible: map<string, SigningKeyEntry>, rest: map<string, SigningKeyEntry>) {
    && DistinctNames(next)
    && (forall e :: e in next ==> e.name in eligible && eligible[e.name] == e && e.name !in rest)
    && (forall n :: n in rest ==> n in eligible && rest[n] == eligible[n])
    && (forall n :: n in eligible ==> n in rest || eligible[n] in next)
  }

  // Keys of the old list that are still eligible, in its order; each is removed from the map.
  method TakeExisting(current: seq<SigningKeyEntry>, byName: map<string, SigningKeyEntry>)
    returns (next: seq<SigningKeyEntry>, rest: map<string, SigningKeyEntry>)
    requires Named(byName)
    ensures Partial(next, byName, rest) && InOrderOf(current, next)
    ensures forall n :: n in rest ==> FirstIndex(current, n) == |current|
  {
    next, rest := [], byName;
    for i := 0 to |current|
      invariant Partial(next, byName, rest) && InOrderOf(current, next)
      invariant forall k :: 0 <= k < |next| ==> FirstIndex(current, next[k].name) < i
      invariant forall n :: n in rest ==> i <= FirstIndex(current, n)
    {
      var name := current[i].name;
      forall n | n in rest && n != name ensures i != FirstIndex(current, n) { FirstIndexMeaning(current, n, i); }
      if name !in rest { continue; }
      FirstIndexMeaning(current, name, i);
      AppendInOrder(current, next, byName[name]);
      next, rest := Append(next, byName, rest, name);
    }
  }

  // Go's map iteration order is unspecified.
  method DrainRest(current: seq<SigningKeyEntry>, ghost byName: map<string, SigningKeyEntry>,
                   taken: seq<SigningKeyEntry>, remaining: map<string, SigningKeyEntry>)
    returns (next: seq<SigningKeyEntry>)
    requires Named(byName) && Partial(taken, byName, remaining) && InOrderOf(current, taken)
    requires forall n :: n in remaining ==> FirstIndex(current, n) == |current|
    ensures IsMerge(next, current, byName)
  {
    next := taken;
    var rest := remaining;
    while rest.Keys != {}
      invariant Partial(next, byName, rest) && InOrderOf(current, next)
      invariant forall n :: n in rest ==> FirstIndex(current, n) == |current|
      decreases |rest|
    {
      var name :| name in rest.Keys;
      AppendInOrder(current, next, byName[name]);
      next, rest := Append(next, byName, rest, name);
    }
  }

  method Append(next: seq<SigningKeyEntry>, ghost byName: map<string, SigningKeyEntry>, rest: map<string, SigningKeyEntry>, name: string)
    returns (next': seq<SigningKeyEntry>, rest': map<string, SigningKeyEntry>)
    requires Named(byName) && Partial(next, byName, rest) && name in rest
    ensures Partial(next', byName, rest')
    ensures next' == next + [byName[name]] && rest' == rest - {name} && |rest'| < |rest|
  {
    assert rest[name] == byName[name];
    next' := next + [rest[name]];
    rest' := rest - {name};
    assert rest'.Keys == rest.Keys - {name};
    assert forall i :: 0 <= i < |next| ==> next[i] in next;
  }

  /******* Running the merge again *******/

  lemma IndexOfOwn(s: seq<SigningKeyEntry>, k: nat)
    requires DistinctNames(s) && k < |s|
    ensures FirstIndex(s, s[k].name) == k
  {
    var i := FirstIndex(s, s[k].name);
    FirstIndexMeaning(s, s[k].name, k);
    if i < k { FirstIndexMeaning(s, s[k].name, i); }
  }

  lemma {:induction false} CountEntries(s: seq<SigningKeyEntry>)
    requires DistinctNames(s)
    ensures |(set e | e in s)| == |s|
  {
    if s != [] {
      var init, last := s[..|s| - 1], s[|s| - 1];
      CountEntries(init);
      assert s == init + [last];
      assert (set e | e in s) == (set e | e in init) + {last};
    }
  }

  predicate WalksThrough(s: seq<SigningKeyEntry>, t: seq<SigningKeyEntry>) {
    && |t| == |s|
    && (forall i :: 0 <= i < |t| ==> FirstIndex(s, t[i].name) < |s|)
    && (forall i, j :: 0 <= i < j < |t| ==> FirstIndex(s, t[i].name) < FirstIndex(s, t[j].name))
  }

  // A strictly increasing walk through all places of a list visits place k at step k.
  lemma {:induction false} WalkFromBelow(s: seq<SigningKeyEntry>, t: seq<SigningKeyEntry>, k: nat)
    requires WalksThrough(s, t) && k < |t|
    ensures FirstIndex(s, t[k].name) >= k
  {
    if k > 0 { WalkFromBelow(s, t, k - 1); }
  }

  lemma {:induction false} WalkFromAbove(s: seq<SigningKeyEntry>, t: seq<SigningKeyEntry>, k: nat)
    requires WalksThrough(s, t) && k < |t|
    ensures FirstIndex(s, t[k].name) <= k
    decreases |t| - k
  {
    if k + 1 < |t| { WalkFromAbove(s, t, k + 1); }
  }

  lemma PlaceInOwn(keys: seq<SigningKeyEntry>, eligible: map<string, SigningKeyEntry>, e: SigningKeyEntry)
    requires IsMerge(keys, keys, eligible) && e.name in eligible && eligible[e.name] == e
    ensures FirstIndex(keys, e.name) < |keys| && keys[FirstIndex(keys, e.name)] == e
  {
    var k :| 0 <= k < |keys| && keys[k] == e;
    IndexOfOwn(keys, k);
  }

  lemma SameSize(keys: seq<SigningKeyEntry>, eligible: map<string, SigningKeyEntry>, again: seq<SigningKeyEntry>)
    requires IsMerge(keys, keys, eligible) && IsMerge(again, keys, eligible)
    ensures |again| == |keys|
  {
    assert (set e | e in keys) == (set e | e in again);
    CountEntries(keys);
    CountEntries(again);
  }

  lemma MergeOfOwn(keys: seq<SigningKeyEntry>, eligible: map<string, SigningKeyEntry>, again: seq<SigningKeyEntry>)
    requires IsMerge(keys, keys, eligible) && IsMerge(again, keys, eligible)
    ensures WalksThrough(keys, again)
  {
    SameSize(keys, eligible, again);
    forall i | 0 <= i < |again| ensures FirstIndex(keys, again[i].name) < |keys| && keys[FirstIndex(keys, again[i].name)] == again[i] {
      assert again[i] in again;
      PlaceInOwn(keys, eligible, again[i]);
    }
  }

  // A list that a merge gives back for itself is the only one the merge can give.
  lemma MergeFixpoint(keys: seq<SigningKeyEntry>, eligible: map<string, SigningKeyEntry>, again: seq<SigningKeyEntry>)
    requires IsMerge(keys, keys, eligible) && IsMerge(again, keys, eligible)
    ensures again == keys
  {
    MergeOfOwn(keys, eligible, again);
    forall k | 0 <= k < |keys| ensures again[k] == keys[k] {
      WalkFromBelow(keys, again, k);
      WalkFromAbove(keys, again, k);
      FirstIndexMeaning(keys, again[k].name, k);
      assert again[k] in again && keys[k] in keys;
    }
  }

  lemma MergeReachesFixpoint(current: seq<SigningKeyEntry>, eligible: map<string, SigningKeyEntry>, next: seq<SigningKeyEntry>)
    requires IsMerge(next, current, eligible)
    ensures IsMerge(next, next, eligible)
  {
    forall i, j | 0 <= i < j < |next| ensures FirstIndex(next, next[i].name) <= FirstIndex(next, next[j].name) {
      IndexOfOwn(next, i);
      IndexOfOwn(next, j);
    }
  }

  // Merging a merged list again with the same keys gives the same list, whatever the map order.
  lemma MergeIdempotent(uid: string, current: seq<SigningKeyEntry>, items: seq<ListedKey>, next: seq<SigningKeyEntry>, again: seq<SigningKeyEntry>)
    requires AllCoupled(items) && IsNext(next, uid, current, items) && IsNext(again, uid, next, items)
    ensures again == next
  {
    MergeReachesFixpoint(current, FreshKeys(uid, items), next);
    MergeFixpoint(next, FreshKeys(uid, items), again);
  }

  /******* Successive merges *******/

  predicate Precedes(s: seq<SigningKeyEntry>, a: string, b: string) {
    FirstIndex(s, a) < FirstIndex(s, b) < |s|
  }

  lemma MergeLists(current: seq<SigningKeyEntry>, eligible: map<string, SigningKeyEntry>, next: seq<SigningKeyEntry>, n: string)
    requires Named(eligible) && IsMerge(next, current, eligible) && n in eligible
    ensures FirstIndex(next, n) < |next| && next[FirstIndex(next, n)] == eligible[n]
  {
    var i :| 0 <= i < |next| && next[i] == eligible[n];
    IndexOfOwn(next, i);
  }

  lemma MergeKeepsOrder(current: seq<SigningKeyEntry>, eligible: map<string, SigningKeyEntry>, next: seq<SigningKeyEntry>, a: string, b: string)
    requires Named(eligible) && IsMerge(next, current, eligible) && a in eligible && b in eligible
    requires Precedes(current, a, b)
    ensures Precedes(next, a, b)
  {
    MergeLists(current, eligible, next, a);
    MergeLists(current, eligible, next, b);
  }

  ghost predicate IsHistory(uid: string, lists: seq<seq<SigningKeyEntry>>, items: seq<seq<ListedKey>>) {
    && |lists| == |items| + 1
    && forall k :: 0 <= k < |items| ==> AllCoupled(items[k]) && IsNext(lists[k + 1], uid, lists[k], items[k])
  }

  // Over any run of updates, two keys that stay eligible never swap.
  lemma {:induction false} NeverSwap(uid: string, lists: seq<seq<SigningKeyEntry>>, items: seq<seq<ListedKey>>, a: string, b: string, k: nat)
    requires IsHistory(uid, lists, items) && k <= |items|
    requires Precedes(lists[0], a, b)
    requires forall i :: 0 <= i < k ==> a in FreshKeys(uid, items[i]) && b in FreshKeys(uid, items[i])
    ensures Precedes(lists[k], a, b)
  {
    if k > 0 {
      NeverSwap(uid, lists, items, a, b, k - 1);
      NextKeepsOrder(uid, lists[k - 1], items[k - 1], lists[k - 1 + 1], a, b);
    }
  }

  lemma NextKeepsOrder(uid: string, current: seq<SigningKeyEntry>, items: seq<ListedKey>, next: seq<SigningKeyEntry>, a: string, b: string)
    requires AllCoupled(items) && IsNext(next, uid, current, items)
    requires a in FreshKeys(uid, items) && b in FreshKeys(uid, items)
    requires Precedes(current, a, b)
    ensures Precedes(next, a, b)
  {
    MergeKeepsOrder(current, FreshKeys(uid, items), next, a, b);
  }
}
