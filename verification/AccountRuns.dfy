/**
 Runs of one Account object: reconciles interleaved with whatever the world does to the cluster.
 */
module AccountRuns {
  import opened Texts
  import opened Lifecycles
  import opened Errors
  import opened Secrets
  import opened ClusterState
  import opened SecretStages
  import opened AccountController
  import opened AccountTheorems

  // One reconcile of the Account, or any change by others.
  datatype Event = Sync(x: AccountOracle) | World(next: Cluster)

  // The object with this UID is on the server.
  predicate Present(c: Cluster, k: Key, uid: string) {
    k in c.accounts && c.accounts[k].uid == uid
  }

  // and nobody has asked for its deletion.
  predicate Live(c: Cluster, k: Key, uid: string) {
    Present(c, k, uid) && !c.accounts[k].deleting
  }

  predicate Finalizing(c: Cluster, k: Key, uid: string) {
    Present(c, k, uid) && AccountFinalizer in c.accounts[k].finalizers
  }

  // What the API server guarantees, and the one restraint on others: they leave the finalizer
  // alone. A UID is not used twice, a deletion timestamp stays, finalizers hold an object.
  ghost predicate Permitted(c: Cluster, next: Cluster, k: Key, uid: string) {
    && Coupled(next)
    && (Present(next, k, uid) ==> Present(c, k, uid))
    && (Live(next, k, uid) ==> Live(c, k, uid))
    && (Finalizing(next, k, uid) <==> Finalizing(c, k, uid))
  }

  function Next(c: Cluster, k: Key, e: Event): Cluster
    requires Coupled(c)
  {
    match e
    case Sync(x) => Reconcile(c, k, x).c
    case World(next) => next
  }

  ghost predicate Allowed(c: Cluster, k: Key, uid: string, e: Event) {
    e.World? ==> Permitted(c, e.next, k, uid)
  }

  lemma NextCoupled(c: Cluster, k: Key, uid: string, e: Event)
    requires Coupled(c) && Allowed(c, k, uid, e)
    ensures Coupled(Next(c, k, e))
  {
    hide Coupled, Reconcile;
    if e.Sync? { StepFrames(c, k, e.x); }
  }

  ghost predicate Legal(c: Cluster, k: Key, uid: string, events: seq<Event>)
    requires Coupled(c)
    decreases |events|
  {
    events == [] ||
    (&& Allowed(c, k, uid, events[0])
     && (NextCoupled(c, k, uid, events[0]);
         Legal(Next(c, k, events[0]), k, uid, events[1..])))
  }

  function Final(c: Cluster, k: Key, uid: string, events: seq<Event>): Cluster
    requires Coupled(c) && Legal(c, k, uid, events)
    decreases |events|
  {
    if events == [] then c
    else
      NextCoupled(c, k, uid, events[0]);
      Final(Next(c, k, events[0]), k, uid, events[1..])
  }

  // What this object's reconcile sends to NATS, and how it exits.
  datatype Trace = Quiet | Trace(nats: NatsCall, exit: Exit)

  function TraceOf(c: Cluster, k: Key, uid: string, e: Event): Trace
    requires Coupled(c)
  {
    if e.Sync? && Present(c, k, uid) then Trace(Reconcile(c, k, e.x).nats, Reconcile(c, k, e.x).exit) else Quiet
  }

  function Traces(c: Cluster, k: Key, uid: string, events: seq<Event>): (r: seq<Trace>)
    requires Coupled(c) && Legal(c, k, uid, events)
    ensures |r| == |events|
    decreases |events|
  {
    if events == [] then []
    else
      NextCoupled(c, k, uid, events[0]);
      [TraceOf(c, k, uid, events[0])] + Traces(Next(c, k, events[0]), k, uid, events[1..])
  }

  predicate Pushes(t: Trace) { t.Trace? && t.nats.PushSent? }

  predicate Revokes(t: Trace) { t.Trace? && t.nats.Revoked? }

  predicate Finalizes(t: Trace) { t.Trace? && t.exit == Finalized }

  lemma SyncKeepsLife(c: Cluster, k: Key, uid: string, x: AccountOracle)
    requires Coupled(c)
    ensures var st := Reconcile(c, k, x);
            && Coupled(st.c)
            && (Present(st.c, k, uid) ==> Present(c, k, uid))
            && (Live(st.c, k, uid) ==> Live(c, k, uid))
            && (Finalizing(c, k, uid) && !Finalizing(st.c, k, uid) ==> st.exit == Finalized)
            && (st.exit == Finalized ==> k in c.accounts && c.accounts[k].deleting)
  {
    hide Stages, SoundPush, AccountStatus.Coupled, AccountStatus.Ready;
    StepFrames(c, k, x);
    if x.fetchOk && k in c.accounts {
      StagesMeaning(c, k, c.accounts[k].status.InitializeConditions(), x);
    }
  }

  // One event: it never revives the object, and it speaks to NATS only as the state allows.
  lemma EventMeaning(c: Cluster, k: Key, uid: string, e: Event)
    requires Coupled(c) && Allowed(c, k, uid, e)
    ensures var t := TraceOf(c, k, uid, e);
            && Coupled(Next(c, k, e))
            && (Live(Next(c, k, e), k, uid) ==> Live(c, k, uid))
            && (Pushes(t) ==> Live(c, k, uid) && Finalizing(c, k, uid))
            && (Revokes(t) ==> !Live(c, k, uid))
            && (Finalizing(c, k, uid) ==> Finalizing(Next(c, k, e), k, uid) || Finalizes(t))
            && (Finalizes(t) ==> !Live(c, k, uid))
  {
    hide Reconcile, StoredJwt, SignedByIssuer, HoldsKeyPair, Names;
    if e.Sync? {
      SyncKeepsLife(c, k, uid, e.x);
      StepMeaning(c, k, e.x);
    }
  }

  // Once deletion has begun nothing is pushed any more, whatever happens afterwards.
  lemma {:induction false} NoPushOnceDeleting(c: Cluster, k: Key, uid: string, events: seq<Event>, j: nat)
    requires Coupled(c) && Legal(c, k, uid, events) && j < |events|
    requires !Live(c, k, uid)
    ensures !Pushes(Traces(c, k, uid, events)[j])
    decreases |events|
  {
    hide TraceOf, Next, Live, Finalizing;
    EventMeaning(c, k, uid, events[0]);
    if j > 0 {
      NoPushOnceDeleting(Next(c, k, events[0]), k, uid, events[1..], j - 1);
    }
  }

  // A JWT that finalization removed is never put back, and a finalized object never pushes.
  lemma {:induction false} RemovedStaysRemoved(c: Cluster, k: Key, uid: string, events: seq<Event>, i: nat, j: nat)
    requires Coupled(c) && Legal(c, k, uid, events) && i <= j < |events|
    requires Revokes(Traces(c, k, uid, events)[i]) || Finalizes(Traces(c, k, uid, events)[i])
    ensures !Pushes(Traces(c, k, uid, events)[j])
    decreases |events|
  {
    hide TraceOf, Next, Live, Finalizing;
    EventMeaning(c, k, uid, events[0]);
    if i == 0 {
      NoPushOnceDeleting(c, k, uid, events, j);
    } else {
      RemovedStaysRemoved(Next(c, k, events[0]), k, uid, events[1..], i - 1, j - 1);
    }
  }

  // An object that has pushed keeps its finalizer until it is finalized: it cannot slip away.
  lemma {:induction false} HeldUntilFinalized(c: Cluster, k: Key, uid: string, events: seq<Event>)
    requires Coupled(c) && Legal(c, k, uid, events)
    requires Finalizing(c, k, uid) && !Finalizing(Final(c, k, uid, events), k, uid)
    ensures exists i :: 0 <= i < |events| && Finalizes(Traces(c, k, uid, events)[i])
    decreases |events|
  {
    hide TraceOf, Next, Live, Finalizing;
    if events != [] {
      EventMeaning(c, k, uid, events[0]);
      var t := Traces(c, k, uid, events);
      if Finalizes(t[0]) {
      } else {
        HeldUntilFinalized(Next(c, k, events[0]), k, uid, events[1..]);
        var i :| 0 <= i < |events| - 1 && Finalizes(Traces(Next(c, k, events[0]), k, uid, events[1..])[i]);
        assert Finalizes(t[i + 1]);
      }
    }
  }

  lemma {:induction false} PushedIsHeld(c: Cluster, k: Key, uid: string, events: seq<Event>, i: nat)
    requires Coupled(c) && Legal(c, k, uid, events) && i < |events|
    requires Pushes(Traces(c, k, uid, events)[i]) && !Finalizing(Final(c, k, uid, events), k, uid)
    ensures exists j :: i < j < |events| && Finalizes(Traces(c, k, uid, events)[j])
    decreases |events|
  {
    hide TraceOf, Next, Live, Finalizing;
    EventMeaning(c, k, uid, events[0]);
    var rest := Traces(Next(c, k, events[0]), k, uid, events[1..]);
    var t := Traces(c, k, uid, events);
    if i == 0 {
      HeldUntilFinalized(c, k, uid, events);
      var j :| 0 <= j < |events| && Finalizes(t[j]);
    } else {
      PushedIsHeld(Next(c, k, events[0]), k, uid, events[1..], i - 1);
      var j :| i - 1 < j < |rest| && Finalizes(rest[j]);
      assert Finalizes(t[j + 1]);
    }
  }
}
