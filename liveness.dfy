/**
 * The liveness aggregator (`ServiceStateCombiner`): it keeps the latest status
 * each of its dependencies reported and derives one status, the logical AND of
 * them all. Subscribers receive the derived value when they subscribe and again
 * whenever it changes.
 */
module Liveness {

  /** The AND of a list of statuses; an empty list is active. */
  function AllActive(statuses: seq<bool>): (r: bool)
    ensures r <==> forall i :: 0 <= i < |statuses| ==> statuses[i]
  {
    if statuses == [] then true
    else statuses[0] && AllActive(statuses[1..])
  }

  /** One dependency going down drives the derived status down. */
  lemma {:induction false} OneDownIsDown(statuses: seq<bool>, i: nat)
    requires i < |statuses|
    ensures !AllActive(statuses[i := false])
  {
    assert statuses[i := false][i] == false;
  }

  /** The derived status is up again only once every dependency is up. */
  lemma {:induction false} UpOnlyWhenAllUp(statuses: seq<bool>, i: nat, status: bool)
    requires i < |statuses|
    ensures AllActive(statuses[i := status]) <==>
            status && forall j :: 0 <= j < |statuses| && j != i ==> statuses[j]
  {
    var s := statuses[i := status];
    assert s[i] == status;
    assert forall j :: 0 <= j < |statuses| && j != i ==> s[j] == statuses[j];
  }

  class ServiceStateCombiner {
    /** The latest status reported by each dependency, in the order given at construction. */
    var statuses: seq<bool>

    constructor (initial: seq<bool>)
      ensures statuses == initial
    {
      statuses := initial;
    }

    /** The derived status pushed to subscribers. */
    function Active(): bool
      reads this
    {
      AllActive(statuses)
    }

    /** Dependency `i` reports `status`; `changed` says whether subscribers are notified. */
    method Update(i: nat, status: bool) returns (changed: bool)
      requires i < |statuses|
      modifies this
      ensures statuses == old(statuses)[i := status]
      ensures Active() <==> forall j :: 0 <= j < |statuses| ==> statuses[j]
      ensures changed <==> Active() != old(Active())
    {
      var before := AllActive(statuses);
      statuses := statuses[i := status];
      changed := AllActive(statuses) != before;
    }
  }
}
