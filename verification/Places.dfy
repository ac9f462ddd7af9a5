/** Some elements of a sequence picked out by their places, in order. */
module Places {
  predicate Increasing(places: seq<nat>) { forall i, j | 0 <= i < j < |places| :: places[i] < places[j] }

  /** The elements of `s` at these places, in order. */
  ghost predicate Picks<T>(r: seq<T>, s: seq<T>, places: seq<nat>) {
    && |places| == |r| && Increasing(places)
    && forall k | 0 <= k < |r| :: places[k] < |s| && r[k] == s[places[k]]
  }

  /** Exactly those whose place is to be kept. */
  ghost predicate PicksThose<T>(r: seq<T>, s: seq<T>, places: seq<nat>, keep: nat -> bool) {
    Picks(r, s, places) && forall i: nat | i < |s| :: i in places <==> keep(i)
  }

  lemma NonePicked<T>(keep: nat -> bool)
    ensures PicksThose<T>([], [], [], keep)
  {
  }

  lemma PlacesInside<T>(r: seq<T>, s: seq<T>, places: seq<nat>)
    requires Picks(r, s, places)
    ensures forall i | i in places :: i < |s|
  {
  }

  lemma PassedOver<T>(r: seq<T>, s: seq<T>, places: seq<nat>, x: T)
    requires Picks(r, s, places)
    ensures Picks(r, s + [x], places)
  {
  }

  lemma PickedToo<T>(r: seq<T>, s: seq<T>, places: seq<nat>, x: T)
    requires Picks(r, s, places)
    ensures Picks(r + [x], s + [x], places + [|s|])
  {
    var more := places + [|s|];
    assert forall k | 0 <= k < |places| :: more[k] == places[k] && places[k] < |s|;
  }

  lemma OneMember(places: seq<nat>, n: nat)
    ensures forall i: nat :: i in places + [n] <==> i in places || i == n
  {
  }

  /** One more element, picked or passed over. */
  lemma PickNext<T>(r: seq<T>, s: seq<T>, places: seq<nat>, keep: nat -> bool, x: T) returns (more: seq<nat>)
    requires PicksThose(r, s, places, keep)
    ensures PicksThose(if keep(|s|) then r + [x] else r, s + [x], more, keep)
  {
    hide Picks;
    PlacesInside(r, s, places);
    if keep(|s|) {
      more := places + [|s|];
      PickedToo(r, s, places, x);
      OneMember(places, |s|);
    } else {
      more := places;
      PassedOver(r, s, places, x);
    }
  }
}
