/** Sublists: some of the items of a list, in their order. */
module Selection {

  ghost predicate Rising(at: seq<nat>) {
    forall j, k :: 0 <= j < k < |at| ==> at[j] < at[k]
  }

  /** `picked` holds the items of `s` at the positions `at`, from front to back. */
  ghost predicate Picks<T>(s: seq<T>, picked: seq<T>, at: seq<nat>) {
    && |at| == |picked| && Rising(at)
    && forall k :: 0 <= k < |at| ==> at[k] < |s| && s[at[k]] == picked[k]
  }

  lemma PicksNothing<T>(s: seq<T>)
    ensures Picks(s, [], [])
  {
  }

  /** One more item at the end, picked or not. */
  lemma PicksSnoc<T>(s: seq<T>, picked: seq<T>, at: seq<nat>, x: T, pick: bool) returns (more: seq<nat>)
    requires Picks(s, picked, at)
    ensures Picks(s + [x], picked + if pick then [x] else [], more)
    ensures forall i :: i in more <==> i in at || (pick && i == |s|)
  {
    more := at + if pick then [|s|] else [];
    forall i ensures i in more <==> i in at || (pick && i == |s|) {
    }
  }
}
