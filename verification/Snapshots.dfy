/** Snapshots, the policy that paces them, and the store that only ever moves forwards. */
module Snapshots {
  import opened Options
  import opened EventLog

  datatype SnapshotPolicy = Always | EveryNEvents(n: nat) | Never

  predicate ShouldSnapshot(policy: SnapshotPolicy, eventsSince: nat) {
    match policy
    case Always => true
    case EveryNEvents(n) => eventsSince >= n
    case Never => false
  }

  /** How many events a policy lets accumulate. `every(0)` persists as eagerly as `always`. */
  function Span(policy: SnapshotPolicy): Option<nat> {
    match policy
    case Always => Some(1)
    case EveryNEvents(n) => Some(if n == 0 then 1 else n)
    case Never => None
  }

  /** A policy is due once as many events as its span have gathered; without a span it never is. */
  lemma DueExactlyWhen(policy: SnapshotPolicy, eventsSince: nat)
    requires eventsSince > 0
    ensures ShouldSnapshot(policy, eventsSince) <==> Span(policy).Some? && eventsSince >= Span(policy).value
    ensures Span(policy).None? <==> policy.Never?
    ensures policy.Always? ==> Span(policy) == Some(1)
    ensures policy.EveryNEvents? && policy.n > 0 ==> Span(policy) == Some(policy.n)
  {
  }

  datatype Snapshot<P> = Snapshot(position: Checkpoint, data: P)

  datatype Offer = Stored | Declined | Failed

  /** The store's content after an offer that reaches it. */
  function AfterOffer<P>(policy: SnapshotPolicy, stored: Option<Snapshot<P>>, eventsSince: nat,
      offered: Snapshot<P>): Option<Snapshot<P>> {
    if ShouldSnapshot(policy, eventsSince) && (stored.None? || Less(stored.value.position, offered.position))
    then Some(offered) else stored
  }

  /**
   The snapshots of one key. The in-memory map entry and the Postgres upsert agree: a
   snapshot replaces the stored one only when it is strictly ahead. `available` says
   whether the storage answers.
   */
  class SnapshotStore<P> {
    const policy: SnapshotPolicy
    var stored: Option<Snapshot<P>>

    constructor (policy: SnapshotPolicy)
      ensures this.policy == policy && stored == None
    {
      this.policy := policy;
      this.stored := None;
    }

    method OfferSnapshot(eventsSince: nat, offered: Snapshot<P>, available: bool) returns (offer: Offer)
      modifies this
      ensures stored == if available then AfterOffer(policy, old(stored), eventsSince, offered) else old(stored)
      ensures offer.Stored? <==> available && ShouldSnapshot(policy, eventsSince)
                                 && (old(stored).None? || Less(old(stored).value.position, offered.position))
      ensures offer.Failed? <==> !available && ShouldSnapshot(policy, eventsSince)
      ensures offer.Stored? ==> stored == Some(offered)
      ensures offer != Stored ==> stored == old(stored)
    {
      if !ShouldSnapshot(policy, eventsSince) {
        return Declined;
      }
      if !available {
        return Failed;
      }
      if stored.Some? && AtMost(offered.position, stored.value.position) {
        return Declined;
      }
      stored := Some(offered);
      offer := Stored;
    }
  }
}
