/**
 * Record identifiers (`unique_id`): random 16-character ids over `[0-9a-z]`,
 * retried until one is not in the process's set of ids already handed out.
 * The random generator is modelled by the sequence of its successive outputs.
 */
module Ids {
  import opened Wrappers

  const Alphabet := "0123456789abcdefghijklmnopqrstuvwxyz"
  const IdSize := 16

  /** What the generator produces: `IdSize` characters of `Alphabet`. */
  predicate IsNanoId(s: string) {
    |s| == IdSize && forall i :: 0 <= i < |s| ==> s[i] in Alphabet
  }

  /** The position of the first draw that is not in `seen`, if any. */
  function FirstFresh(draws: seq<string>, seen: set<string>): (k: Option<nat>)
    ensures k.Some? ==> k.value < |draws| && draws[k.value] !in seen
    ensures k.Some? ==> forall j :: 0 <= j < k.value ==> draws[j] in seen
    ensures k.None? ==> forall j :: 0 <= j < |draws| ==> draws[j] in seen
  {
    if draws == [] then None
    else if draws[0] !in seen then Some(0)
    else
      match FirstFresh(draws[1..], seen)
      case None => None
      case Some(j) => Some(j + 1)
  }

  /** The set `seen` that `unique_id` mutates. */
  class SeenIds {
    var ids: set<string>

    constructor ()
      ensures ids == {}
    {
      ids := {};
    }

    /**
     * `unique_id(seen)`: tries the draws in order, adds the first one not yet
     * seen and returns it. `None` means every available draw was already seen
     * (where the source would keep drawing).
     */
    method UniqueId(draws: seq<string>) returns (uid: Option<string>)
      requires forall k :: 0 <= k < |draws| ==> IsNanoId(draws[k])
      modifies this
      ensures uid.Some? <==> FirstFresh(draws, old(ids)).Some?
      ensures uid.Some? ==> uid.value == draws[FirstFresh(draws, old(ids)).value]
      ensures uid.Some? ==> IsNanoId(uid.value) && uid.value !in old(ids)
      ensures uid.Some? ==> ids == old(ids) + {uid.value}
      ensures uid.None? ==> ids == old(ids)
    {
      var k := 0;
      while k < |draws|
        invariant 0 <= k <= |draws|
        invariant ids == old(ids)
        invariant forall j :: 0 <= j < k ==> draws[j] in ids
      {
        var candidate := draws[k];
        if candidate !in ids {
          FirstFreshIsFirst(draws, ids, k);
          ids := ids + {candidate};
          return Some(candidate);
        }
        k := k + 1;
      }
      FirstFreshIsFirst(draws, ids, |draws|);
      return None;
    }
  }

  /** `FirstFresh` finds exactly the first draw not in `seen`. */
  lemma {:induction false} FirstFreshIsFirst(draws: seq<string>, seen: set<string>, k: nat)
    requires k <= |draws|
    requires forall j :: 0 <= j < k ==> draws[j] in seen
    requires k < |draws| ==> draws[k] !in seen
    ensures k < |draws| ==> FirstFresh(draws, seen) == Some(k)
    ensures k == |draws| ==> FirstFresh(draws, seen) == None
  {
    if k > 0 {
      FirstFreshIsFirst(draws[1..], seen, k - 1);
    }
  }

  /** Two ids handed out one after the other by the same `SeenIds` are different. */
  method TwoDistinctIds(draws1: seq<string>, draws2: seq<string>)
    returns (first: Option<string>, second: Option<string>)
    requires forall k :: 0 <= k < |draws1| ==> IsNanoId(draws1[k])
    requires forall k :: 0 <= k < |draws2| ==> IsNanoId(draws2[k])
    ensures first.Some? && second.Some? ==> first.value != second.value
  {
    var seen := new SeenIds();
    first := seen.UniqueId(draws1);
    second := seen.UniqueId(draws2);
  }
}
