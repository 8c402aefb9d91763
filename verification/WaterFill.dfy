/** The capped water-fill that hands out edges to sources by weight (to_zipfian in src/mem_edges.cc).
 *
 * Each round shares what is left among the sources below the cap in proportion to their weights,
 * rounding down; a round in which every share rounds to zero hands out one edge each, in order.
 * Weights are reals, so rounding inside the shares is not modelled.
 */
module WaterFill {

  const SIZE_MAX := 0xFFFF_FFFF_FFFF_FFFF

  datatype Outcome = Counts | CapacityOverflow | CapTooSmall | RanOut

  // ---------------------------------------------------------------------------
  // Shares

  function Sum(counts: seq<nat>): nat {
    if counts == [] then 0 else Sum(counts[..|counts| - 1]) + counts[|counts| - 1]
  }

  function Min(a: nat, b: nat): nat {
    if a <= b then a else b
  }

  ghost predicate NonNegative(weights: seq<real>) {
    forall i :: 0 <= i < |weights| ==> weights[i] >= 0.0
  }

  ghost predicate InRange(idxs: seq<nat>, n: nat) {
    forall k :: 0 <= k < |idxs| ==> idxs[k] < n
  }

  ghost predicate Increasing(idxs: seq<nat>) {
    forall j, k :: 0 <= j < k < |idxs| ==> idxs[j] < idxs[k]
  }

  /** The weight of those of `idxs` that are below the cap. */
  function Weight(weights: seq<real>, counts: seq<nat>, cap: nat, idxs: seq<nat>): real
    requires |counts| == |weights| && InRange(idxs, |weights|)
  {
    if idxs == [] then 0.0
    else
      var i := idxs[|idxs| - 1];
      Weight(weights, counts, cap, idxs[..|idxs| - 1]) + if counts[i] < cap then weights[i] else 0.0
  }

  /** One more source adds its weight if it is below the cap. */
  lemma WeightNext(weights: seq<real>, counts: seq<nat>, cap: nat, idxs: seq<nat>, i: nat)
    requires |counts| == |weights| && InRange(idxs, |weights|) && i < |weights|
    ensures InRange(idxs + [i], |weights|) && Weight(weights, counts, cap, []) == 0.0
    ensures Weight(weights, counts, cap, idxs + [i])
         == Weight(weights, counts, cap, idxs) + if counts[i] < cap then weights[i] else 0.0
  {
    assert (idxs + [i])[..|idxs|] == idxs;
  }

  /** What a weight is due of `remaining` edges, rounded down. */
  function Share(weight: real, sum: real, remaining: nat): (n: nat)
    requires weight >= 0.0 && sum > 0.0
  {
    ShareBound(weight, sum, remaining);
    (weight / sum * remaining as real).Floor
  }

  lemma ShareBound(weight: real, sum: real, remaining: nat)
    requires weight >= 0.0 && sum > 0.0
    ensures weight / sum >= 0.0
    ensures weight / sum * remaining as real >= 0.0
    ensures weight / sum * remaining as real * sum == weight * remaining as real
  {
    var q := weight / sum;
    assert q * sum == weight;
    Shuffle(q, remaining as real, sum);
  }

  lemma Shuffle(q: real, r: real, s: real)
    ensures q * r * s == q * s * r
  {
  }

  lemma ShareFits(weight: real, sum: real, remaining: nat)
    requires weight >= 0.0 && sum > 0.0
    ensures Share(weight, sum, remaining) as real * sum <= weight * remaining as real
  {
    ShareBound(weight, sum, remaining);
    Grow(Share(weight, sum, remaining) as real, weight / sum * remaining as real, sum);
  }

  /** One edge more would be too much. */
  lemma ShareTight(weight: real, sum: real, remaining: nat)
    requires weight >= 0.0 && sum > 0.0
    ensures (Share(weight, sum, remaining) + 1) as real * sum > weight * remaining as real
  {
    ShareBound(weight, sum, remaining);
    var x := weight / sum * remaining as real;
    var next := (Share(weight, sum, remaining) + 1) as real;
    assert x < next;
    GrowMore(x, next, sum);
    assert x * sum == weight * remaining as real;
  }

  lemma GrowMore(a: real, b: real, s: real)
    requires a < b && s > 0.0
    ensures a * s < b * s
  {
  }

  lemma Grow(a: real, b: real, s: real)
    requires a <= b && s >= 0.0
    ensures a * s <= b * s
  {
  }

  lemma Shrink(a: real, b: real, s: real)
    requires a * s <= b * s && s > 0.0
    ensures a <= b
  {
  }

  /** A heavier source is due no less. */
  lemma ShareGrows(light: real, heavy: real, sum: real, remaining: nat)
    requires 0.0 <= light <= heavy && sum > 0.0
    ensures Share(light, sum, remaining) <= Share(heavy, sum, remaining)
  {
    ShareBound(light, sum, remaining);
    ShareBound(heavy, sum, remaining);
    Shrink(light / sum * remaining as real, heavy / sum * remaining as real, sum) by {
      Grow(light, heavy, remaining as real);
    }
  }

  // ---------------------------------------------------------------------------
  // Sums

  lemma {:induction false} SumAdds(counts: seq<nat>, i: nat, add: nat)
    requires i < |counts|
    ensures Sum(counts[i := counts[i] + add]) == Sum(counts) + add
  {
    var last := |counts| - 1;
    var more := counts[i := counts[i] + add];
    if i == last {
      assert more[..last] == counts[..last];
    } else {
      SumAdds(counts[..last], i, add);
      assert more[..last] == counts[..last][i := counts[i] + add];
    }
  }

  /** Below the total capacity somebody has room. */
  lemma {:induction false} SomeRoom(counts: seq<nat>, cap: nat) returns (i: nat)
    requires Sum(counts) < |counts| * cap
    ensures i < |counts| && counts[i] < cap
  {
    var last := |counts| - 1;
    if counts[last] < cap {
      i := last;
    } else {
      assert |counts| * cap == last * cap + cap;
      i := SomeRoom(counts[..last], cap);
    }
  }

  lemma {:induction false} SumOfZeros(counts: seq<nat>)
    requires forall i :: 0 <= i < |counts| ==> counts[i] == 0
    ensures Sum(counts) == 0
  {
    if counts != [] {
      SumOfZeros(counts[..|counts| - 1]);
    }
  }

  lemma {:induction false} WeightNonNegative(weights: seq<real>, counts: seq<nat>, cap: nat, idxs: seq<nat>)
    requires |counts| == |weights| && InRange(idxs, |weights|) && NonNegative(weights)
    ensures Weight(weights, counts, cap, idxs) >= 0.0
  {
    if idxs != [] {
      WeightNonNegative(weights, counts, cap, idxs[..|idxs| - 1]);
    }
  }

  /** The weight of a prefix with one more source behind it is part of the whole. */
  lemma {:induction false} WeightPrefix(weights: seq<real>, counts: seq<nat>, cap: nat, idxs: seq<nat>, j: nat, k: nat)
    requires |counts| == |weights| && InRange(idxs, |weights|) && NonNegative(weights)
    requires j <= k < |idxs| && counts[idxs[k]] < cap
    ensures Weight(weights, counts, cap, idxs[..j]) + weights[idxs[k]] <= Weight(weights, counts, cap, idxs)
    decreases |idxs|
  {
    var last := |idxs| - 1;
    var init := idxs[..last];
    if k == last {
      WeightMonotone(weights, counts, cap, init, j);
      assert init[..j] == idxs[..j];
    } else {
      WeightPrefix(weights, counts, cap, init, j, k);
      assert init[..j] == idxs[..j];
    }
  }

  lemma {:induction false} WeightMonotone(weights: seq<real>, counts: seq<nat>, cap: nat, idxs: seq<nat>, j: nat)
    requires |counts| == |weights| && InRange(idxs, |weights|) && NonNegative(weights)
    requires j <= |idxs|
    ensures Weight(weights, counts, cap, idxs[..j]) <= Weight(weights, counts, cap, idxs)
    decreases |idxs|
  {
    if j == |idxs| {
      assert idxs[..j] == idxs;
    } else {
      var init := idxs[..|idxs| - 1];
      WeightMonotone(weights, counts, cap, init, j);
      assert init[..j] == idxs[..j];
    }
  }

  // ---------------------------------------------------------------------------
  // One round

  /** The active weight, summed front to back. */
  method ActiveWeight(weights: seq<real>, counts: array<nat>, cap: nat, active: seq<nat>) returns (sum: real)
    requires counts.Length == |weights| && InRange(active, |weights|)
    ensures sum == Weight(weights, counts[..], cap, active)
  {
    sum := 0.0;
    for k := 0 to |active|
      invariant sum == Weight(weights, counts[..], cap, active[..k])
    {
      assert active[..k + 1][..k] == active[..k];
      if counts[active[k]] < cap {
        sum := sum + weights[active[k]];
      }
    }
    assert active[..|active|] == active;
  }

  /** What a round makes of the count of one active source. */
  function Filled(weights: seq<real>, was: seq<nat>, cap: nat, sum: real, remaining: nat, i: nat): nat
    requires |was| == |weights| && i < |weights| && NonNegative(weights) && sum > 0.0
  {
    Min(cap, was[i] + Share(weights[i], sum, remaining))
  }

  /** `added` edges are what falls to `weight` out of `sum`, rounded down, or as many of them
   *  as there was room for. */
  predicate Due(added: nat, full: bool, weight: real, sum: real, remaining: nat) {
    && added as real * sum <= weight * remaining as real
    && (full || (added + 1) as real * sum > weight * remaining as real)
  }

  lemma FilledIsDue(weights: seq<real>, was: seq<nat>, cap: nat, sum: real, remaining: nat, i: nat)
    requires |was| == |weights| && i < |weights| && NonNegative(weights) && sum > 0.0 && was[i] <= cap
    ensures var now := Filled(weights, was, cap, sum, remaining, i);
      was[i] <= now <= cap && Due(now - was[i], now == cap, weights[i], sum, remaining)
  {
    hide Share;
    var share := Share(weights[i], sum, remaining);
    ShareFits(weights[i], sum, remaining);
    ShareTight(weights[i], sum, remaining);
    Grow((Filled(weights, was, cap, sum, remaining, i) - was[i]) as real, share as real, sum);
  }

  function Times(a: real, b: real): real {
    a * b
  }

  /** `given` is no more than the part of `remaining` that falls to `weight` out of `sum`. */
  predicate Within(given: nat, sum: real, weight: real, remaining: nat) {
    Times(given as real, sum) <= Times(weight, remaining as real)
  }

  lemma TimesAdds(a: real, b: real, s: real)
    ensures Times(a + b, s) == Times(a, s) + Times(b, s)
  {
  }

  lemma TimesSign(a: real, s: real)
    requires s > 0.0
    ensures Times(a, s) > 0.0 <==> a > 0.0
    ensures Times(a, s) == 0.0 <==> a == 0.0
  {
  }

  lemma TimesGrows(a: real, b: real, s: real)
    requires s > 0.0
    ensures a <= b <==> Times(a, s) <= Times(b, s)
  {
    hide Times;
    TimesAdds(a, b - a, s);
    TimesSign(b - a, s);
    assert a + (b - a) == b;
  }

  lemma TimesCommutes(a: real, b: real)
    ensures Times(a, b) == Times(b, a)
  {
  }

  lemma WithinAdds(given: nat, sum: real, before: real, add: nat, weight: real, remaining: nat)
    requires Within(given, sum, before, remaining) && Within(add, sum, weight, remaining)
    ensures Within(given + add, sum, before + weight, remaining)
  {
    hide Times;
    TimesAdds(given as real, add as real, sum);
    TimesAdds(before, weight, remaining as real);
  }

  lemma WithinWhole(given: nat, sum: real, weight: real, remaining: nat)
    requires Within(given, sum, weight, remaining) && weight <= sum && sum > 0.0
    ensures given <= remaining
  {
    hide Times;
    var rest := remaining as real;
    TimesCommutes(rest, sum);
    TimesGrows(given as real, rest, sum);
    if remaining > 0 {
      TimesGrows(weight, sum, rest);
    } else {
      NoTimes(weight);
      NoTimes(sum);
    }
  }

  lemma NoTimes(a: real)
    ensures Times(a, 0.0) == 0.0
  {
  }

  lemma ShareWithin(weight: real, sum: real, remaining: nat, add: nat)
    requires weight >= 0.0 && sum > 0.0 && add <= Share(weight, sum, remaining)
    ensures Within(add, sum, weight, remaining)
  {
    hide Share;
    ShareFits(weight, sum, remaining);
    Grow(add as real, Share(weight, sum, remaining) as real, sum);
  }

  /** Handing a source its share keeps the round within its weight. */
  lemma ShareStays(given: nat, before: real, weight: real, sum: real, remaining: nat, add: nat)
    requires weight >= 0.0 && sum > 0.0 && before + weight <= sum
    requires Within(given, sum, before, remaining) && add <= Share(weight, sum, remaining)
    ensures Within(given + add, sum, before + weight, remaining)
    ensures given + Share(weight, sum, remaining) <= remaining
  {
    hide Share, Within;
    var share := Share(weight, sum, remaining);
    ShareWithin(weight, sum, remaining, add);
    WithinAdds(given, sum, before, add, weight, remaining);
    ShareWithin(weight, sum, remaining, share);
    WithinAdds(given, sum, before, share, weight, remaining);
    WithinWhole(given + share, sum, before + weight, remaining);
  }

  /** Once everything is handed out, nobody further back was due anything. */
  lemma NothingDue(before: real, weight: real, sum: real, remaining: nat)
    requires weight >= 0.0 && sum > 0.0 && before + weight <= sum && remaining > 0
    requires Within(remaining, sum, before, remaining)
    ensures Share(weight, sum, remaining) == 0
  {
    hide Times;
    TimesCommutes(sum, remaining as real);
    TimesGrows(sum, before, remaining as real);
    assert weight == 0.0;
    ShareBound(weight, sum, remaining);
    Weightless(sum, remaining);
  }

  lemma Weightless(sum: real, remaining: nat)
    requires sum > 0.0
    ensures Share(0.0, sum, remaining) == 0
  {
  }

  /** The first `k` active sources have been served: who holds what, and who is still below the cap. */
  ghost predicate Served(weights: seq<real>, was: seq<nat>, now: seq<nat>, cap: nat, sum: real, remaining: nat,
                         done: seq<nat>, next: seq<nat>)
  {
    && |was| == |weights| == |now| && NonNegative(weights) && sum > 0.0
    && (forall i: nat :: i < |now| ==> now[i] == if i in done then Filled(weights, was, cap, sum, remaining, i) else was[i])
    && (forall x :: x in next ==> x in done && x < |now| && now[x] < cap)
    && (forall x :: x in done && x < |now| && now[x] < cap ==> x in next)
    && Increasing(next)
  }

  lemma IncreasingSnoc(next: seq<nat>, i: nat)
    requires Increasing(next) && forall x :: x in next ==> x < i
    ensures Increasing(next + [i])
  {
    assert forall k :: 0 <= k < |next| ==> next[k] in next;
  }

  /** Serving one more. */
  lemma ServeOne(weights: seq<real>, was: seq<nat>, now: seq<nat>, cap: nat, sum: real, remaining: nat,
                 done: seq<nat>, next: seq<nat>, i: nat, now': seq<nat>, next': seq<nat>)
    requires Served(weights, was, now, cap, sum, remaining, done, next)
    requires i < |now| && forall x :: x in done ==> x < i
    requires now' == now[i := Filled(weights, was, cap, sum, remaining, i)]
    requires next' == if now'[i] < cap then next + [i] else next
    ensures Served(weights, was, now', cap, sum, remaining, done + [i], next')
  {
    hide Filled, NonNegative, Increasing;
    assert forall x: nat :: x < |now'| && x != i ==> now'[x] == now[x];
    assert forall x :: x in done + [i] <==> x in done || x == i;
    assert next' == next + [i] ==> forall x :: x in next' <==> x in next || x == i;
    IncreasingSnoc(next, i);
  }

  /** With everything handed out, the sources not reached are due nothing. */
  lemma NotReached(weights: seq<real>, was: seq<nat>, cap: nat, sum: real, remaining: nat, active: seq<nat>, k: nat, j: nat)
    requires |was| == |weights| && InRange(active, |weights|) && NonNegative(weights) && sum > 0.0 && remaining > 0
    requires sum == Weight(weights, was, cap, active) && k <= j < |active| && was[active[j]] <= cap
    requires Within(remaining, sum, Weight(weights, was, cap, active[..k]), remaining)
    ensures Filled(weights, was, cap, sum, remaining, active[j]) == was[active[j]]
  {
    hide Weight, Share, Within;
    if was[active[j]] < cap {
      WeightPrefix(weights, was, cap, active, k, j);
      NothingDue(Weight(weights, was, cap, active[..k]), weights[active[j]], sum, remaining);
    }
  }

  lemma RoundStart(weights: seq<real>, was: seq<nat>, cap: nat, sum: real, remaining: nat, active: seq<nat>)
    requires |was| == |weights| && NonNegative(weights) && sum > 0.0 && InRange(active, |weights|)
    ensures Served(weights, was, was, cap, sum, remaining, active[..0], [])
    ensures Within(0, sum, Weight(weights, was, cap, active[..0]), remaining)
  {
  }

  lemma Unserved(weights: seq<real>, was: seq<nat>, now: seq<nat>, cap: nat, sum: real, remaining: nat,
                 active: seq<nat>, k: nat, next: seq<nat>)
    requires Increasing(active) && k < |active| && InRange(active, |weights|)
    requires Served(weights, was, now, cap, sum, remaining, active[..k], next)
    ensures forall x :: x in active[..k] ==> x < active[k]
    ensures now[active[k]] == was[active[k]]
  {
    hide Filled;
  }

  lemma WeightStep(weights: seq<real>, was: seq<nat>, cap: nat, active: seq<nat>, k: nat)
    requires |was| == |weights| && InRange(active, |weights|) && NonNegative(weights) && k < |active|
    ensures Weight(weights, was, cap, active[..k + 1])
         == Weight(weights, was, cap, active[..k]) + if was[active[k]] < cap then weights[active[k]] else 0.0
  {
    assert active[..k + 1][..k] == active[..k];
  }

  /** What a source with `held` edges and some weight receives. */
  function Add(held: nat, cap: nat, share: nat, left: nat): nat
    requires held <= cap
  {
    if cap - held == 0 then 0 else Min(Min(cap - held, share), left)
  }

  /** What one source receives, and that the cut to what is left never bites. */
  lemma OneShare(weights: seq<real>, was: seq<nat>, cap: nat, active: seq<nat>, k: nat, given: nat, sum: real, remaining: nat)
    requires |was| == |weights| && InRange(active, |weights|) && NonNegative(weights) && sum > 0.0
    requires k < |active| && sum == Weight(weights, was, cap, active) && was[active[k]] <= cap && given <= remaining
    requires Within(given, sum, Weight(weights, was, cap, active[..k]), remaining)
    ensures
      var i := active[k];
      var add := Add(was[i], cap, Share(weights[i], sum, remaining), remaining - given);
      && given + add <= remaining
      && was[i] + add == Filled(weights, was, cap, sum, remaining, i)
      && Within(given + add, sum, Weight(weights, was, cap, active[..k + 1]), remaining)
  {
    hide Share, Weight, Within;
    var i := active[k];
    WeightStep(weights, was, cap, active, k);
    if was[i] < cap {
      WeightPrefix(weights, was, cap, active, k, k);
      ShareStays(given, Weight(weights, was, cap, active[..k]), weights[i], sum, remaining,
                 Min(cap - was[i], Share(weights[i], sum, remaining)));
    }
  }

  lemma RoundEnd(weights: seq<real>, was: seq<nat>, now: seq<nat>, cap: nat, sum: real, remaining: nat,
                 active: seq<nat>, k: nat, given: nat, next: seq<nat>)
    requires InRange(active, |weights|) && k <= |active| && remaining > 0
    requires Served(weights, was, now, cap, sum, remaining, active[..k], next)
    requires sum == Weight(weights, was, cap, active)
    requires forall i :: 0 <= i < |was| ==> was[i] <= cap
    requires Within(given, sum, Weight(weights, was, cap, active[..k]), remaining)
    requires k == |active| || given == remaining
    ensures forall i: nat :: i < |now| ==> now[i] == if i in active then Filled(weights, was, cap, sum, remaining, i) else was[i]
    ensures given < remaining ==> forall x :: x in active && now[x] < cap ==> x in next
    ensures forall x :: x in next ==> x in active && now[x] < cap
  {
    hide Weight, Filled, Within;
    assert k == |active| ==> active[..k] == active;
    forall i: nat | i < |now|
      ensures now[i] == if i in active then Filled(weights, was, cap, sum, remaining, i) else was[i]
    {
      if i in active && i !in active[..k] {
        var j :| 0 <= j < |active| && active[j] == i;
        assert forall m :: 0 <= m < k ==> active[m] in active[..k];
        NotReached(weights, was, cap, sum, remaining, active, k, j);
      }
    }
    assert forall x :: x in active[..k] ==> x in active;
  }

  lemma NextIncreases(weights: seq<real>, was: seq<nat>, now: seq<nat>, cap: nat, sum: real, remaining: nat,
                      done: seq<nat>, next: seq<nat>)
    requires Served(weights, was, now, cap, sum, remaining, done, next)
    ensures Increasing(next)
  {
  }

  method FillRound(weights: seq<real>, counts: array<nat>, cap: nat, active: seq<nat>, sum: real, remaining: nat)
    returns (given: nat, next: seq<nat>)
    requires counts.Length == |weights| && InRange(active, |weights|) && Increasing(active) && NonNegative(weights)
    requires sum == Weight(weights, counts[..], cap, active) && sum > 0.0 && remaining > 0
    requires forall i :: 0 <= i < counts.Length ==> counts[i] <= cap
    modifies counts
    ensures given <= remaining && Sum(counts[..]) == old(Sum(counts[..])) + given
    ensures forall i: nat :: i < counts.Length ==>
      counts[i] == if i in active then Filled(weights, old(counts[..]), cap, sum, remaining, i) else old(counts[i])
    ensures forall i :: i in active ==>
      && old(counts[i]) <= counts[i] <= cap
      && Due(counts[i] - old(counts[i]), counts[i] == cap, weights[i], sum, remaining)
    ensures forall x :: x in next ==> x in active && counts[x] < cap
    ensures given < remaining ==> forall x :: x in active && counts[x] < cap ==> x in next
    ensures Increasing(next)
  {
    hide Weight, Sum, Share, Increasing, Filled, Served, Within, Due;
    ghost var was := counts[..];
    given, next := 0, [];
    var k := 0;
    RoundStart(weights, was, cap, sum, remaining, active);
    while k < |active| && given < remaining
      invariant 0 <= k <= |active| && given <= remaining
      invariant Served(weights, was, counts[..], cap, sum, remaining, active[..k], next)
      invariant Within(given, sum, Weight(weights, was, cap, active[..k]), remaining)
      invariant Sum(counts[..]) == Sum(was) + given
    {
      var idx := active[k];
      ghost var now := counts[..];
      var capacity := cap - counts[idx];
      Unserved(weights, was, now, cap, sum, remaining, active, k, next);
      var add := 0;
      if capacity != 0 {
        add := Min(capacity, Share(weights[idx], sum, remaining));
        add := Min(add, remaining - given);
      }
      OneShare(weights, was, cap, active, k, given, sum, remaining);
      SumAdds(counts[..], idx, add);
      ghost var next0 := next;
      counts[idx] := counts[idx] + add;
      given := given + add;
      if counts[idx] < cap {
        next := next + [idx];
      }
      assert counts[..] == now[idx := now[idx] + add];
      ServeOne(weights, was, now, cap, sum, remaining, active[..k], next0, idx, counts[..], next);
      assert active[..k + 1] == active[..k] + [idx];
      k := k + 1;
    }
    RoundEnd(weights, was, counts[..], cap, sum, remaining, active, k, given, next);
    NextIncreases(weights, was, counts[..], cap, sum, remaining, active[..k], next);
    forall i | i in active
      ensures was[i] <= counts[i] <= cap && Due(counts[i] - was[i], counts[i] == cap, weights[i], sum, remaining)
    {
      FilledIsDue(weights, was, cap, sum, remaining, i);
    }
  }

  /** A round whose shares all round to zero: one edge each, in order, while there are any. */
  method SpreadResidue(counts: array<nat>, active: seq<nat>, remaining: nat) returns (left: nat)
    requires InRange(active, counts.Length) && Increasing(active)
    modifies counts
    ensures
      var k := Min(|active|, remaining);
      && left == remaining - k && Sum(counts[..]) == old(Sum(counts[..])) + k
      && forall i: nat :: i < counts.Length ==> counts[i] == old(counts[i]) + if i in active[..k] then 1 else 0
  {
    hide Sum;
    ghost var was := counts[..];
    left := remaining;
    var k := 0;
    while k < |active| && left > 0
      invariant 0 <= k <= |active| && k <= remaining && left == remaining - k
      invariant Sum(counts[..]) == Sum(was) + k
      invariant forall i: nat :: i < counts.Length ==> counts[i] == was[i] + if i in active[..k] then 1 else 0
    {
      ghost var now := counts[..];
      SumAdds(now, active[k], 1);
      assert active[k] !in active[..k];
      counts[active[k]] := counts[active[k]] + 1;
      assert counts[..] == now[active[k] := now[active[k]] + 1];
      assert active[..k + 1] == active[..k] + [active[k]];
      left := left - 1;
      k := k + 1;
    }
  }

  // ---------------------------------------------------------------------------
  // What all rounds keep

  ghost predicate Descending(weights: seq<real>) {
    forall i, j :: 0 <= i < j < |weights| ==> weights[i] >= weights[j]
  }

  ghost predicate NonIncreasing(counts: seq<nat>) {
    forall i, j :: 0 <= i < j < |counts| ==> counts[i] >= counts[j]
  }

  ghost predicate Capped(counts: seq<nat>, cap: nat) {
    forall i :: 0 <= i < |counts| ==> counts[i] <= cap
  }

  function TotalWeight(weights: seq<real>): real {
    if weights == [] then 0.0 else TotalWeight(weights[..|weights| - 1]) + weights[|weights| - 1]
  }

  /** What a total weight is. */
  lemma {:induction false} TotalOfBoth(a: seq<real>, b: seq<real>)
    ensures TotalWeight(a + b) == TotalWeight(a) + TotalWeight(b)
    ensures forall w :: TotalWeight([w]) == w
  {
    forall w ensures TotalWeight([w]) == w {
      assert [w][..0] == [];
    }
    if b == [] {
      assert a + b == a;
    } else {
      assert (a + b)[..|a + b| - 1] == a + b[..|b| - 1];
      TotalOfBoth(a, b[..|b| - 1]);
    }
  }

  /** Everybody has the cap or, if that is less, the share of all edges due, rounded down. */
  ghost predicate Quota(weights: seq<real>, counts: seq<nat>, cap: nat, total: nat)
    requires NonNegative(weights) && TotalWeight(weights) > 0.0
  {
    |counts| == |weights|
    && forall i: nat :: i < |counts| ==> counts[i] >= Min(cap, Share(weights[i], TotalWeight(weights), total))
  }

  /** The quota, without rounding: one edge more would exceed what the weight is due. */
  lemma QuotaIsDue(weights: seq<real>, counts: seq<nat>, cap: nat, total: nat, i: nat)
    requires NonNegative(weights) && TotalWeight(weights) > 0.0 && Quota(weights, counts, cap, total)
    requires Capped(counts, cap) && i < |counts|
    ensures counts[i] == cap || (counts[i] + 1) as real * TotalWeight(weights) > weights[i] * total as real
  {
    hide Share, TotalWeight;
    ShareTight(weights[i], TotalWeight(weights), total);
    if counts[i] < cap {
      Grow((Share(weights[i], TotalWeight(weights), total) + 1) as real, (counts[i] + 1) as real, TotalWeight(weights));
    }
  }

  /** Every source below the cap is listed. */
  ghost predicate Open(counts: seq<nat>, cap: nat, active: seq<nat>) {
    && InRange(active, |counts|) && Increasing(active)
    && forall i: nat :: i < |counts| && counts[i] < cap ==> i in active
  }

  function Iota(n: nat): (idxs: seq<nat>)
    ensures |idxs| == n
  {
    seq(n, i => i)
  }

  function Zeros(n: nat): (counts: seq<nat>)
    ensures |counts| == n
  {
    seq(n, i => 0)
  }

  /** At first nobody has anything; from the first round on the quota holds. */
  ghost predicate Fair(weights: seq<real>, counts: seq<nat>, cap: nat, total: nat, remaining: nat, active: seq<nat>) {
    && |counts| == |weights| && NonNegative(weights) && cap > 0
    && Capped(counts, cap) && Sum(counts) + remaining == total
    && (Descending(weights) ==> NonIncreasing(counts))
    && (|| (counts == Zeros(|counts|) && active == Iota(|counts|) && remaining == total)
        || (TotalWeight(weights) > 0.0 && Quota(weights, counts, cap, total)))
  }

  lemma {:induction false} WeightOfAll(weights: seq<real>, cap: nat, n: nat)
    requires n <= |weights| && cap > 0
    ensures Weight(weights, Zeros(|weights|), cap, Iota(n)) == TotalWeight(weights[..n])
  {
    if n > 0 {
      WeightOfAll(weights, cap, n - 1);
      assert Iota(n)[..n - 1] == Iota(n - 1);
      assert weights[..n][..n - 1] == weights[..n - 1];
    }
  }

  lemma FairStart(weights: seq<real>, cap: nat, total: nat)
    requires NonNegative(weights) && cap > 0
    ensures Fair(weights, Zeros(|weights|), cap, total, total, Iota(|weights|))
    ensures Open(Zeros(|weights|), cap, Iota(|weights|))
  {
    SumOfZeros(Zeros(|weights|));
    forall i: nat | i < |weights|
      ensures i in Iota(|weights|)
    {
      assert Iota(|weights|)[i] == i;
    }
  }

  /** What a round does to all counts. */
  ghost predicate Rounded(weights: seq<real>, was: seq<nat>, now: seq<nat>, cap: nat, sum: real, remaining: nat, active: seq<nat>) {
    && |was| == |weights| == |now| && NonNegative(weights) && sum > 0.0
    && forall i: nat :: i < |now| ==> now[i] == if i in active then Filled(weights, was, cap, sum, remaining, i) else was[i]
  }

  lemma RoundKeepsOrder(weights: seq<real>, was: seq<nat>, now: seq<nat>, cap: nat, sum: real, remaining: nat, active: seq<nat>)
    requires Rounded(weights, was, now, cap, sum, remaining, active) && Open(was, cap, active) && Capped(was, cap)
    requires Descending(weights) && NonIncreasing(was)
    ensures NonIncreasing(now)
  {
    hide Share;
    forall i: nat, j: nat | i < j < |now|
      ensures now[i] >= now[j]
    {
      ShareGrows(weights[j], weights[i], sum, remaining);
      assert was[i] >= was[j];
    }
  }

  lemma RoundKeepsQuota(weights: seq<real>, was: seq<nat>, now: seq<nat>, cap: nat, sum: real, total: nat, remaining: nat,
                        active: seq<nat>)
    requires Rounded(weights, was, now, cap, sum, remaining, active)
    requires Fair(weights, was, cap, total, remaining, active) && InRange(active, |weights|)
    requires sum == Weight(weights, was, cap, active)
    ensures TotalWeight(weights) > 0.0 && Quota(weights, now, cap, total)
  {
    hide Share, Weight, TotalWeight, Sum, Descending, NonIncreasing;
    if was == Zeros(|was|) && active == Iota(|was|) && remaining == total {
      WeightOfAll(weights, cap, |weights|);
      assert weights[..|weights|] == weights;
      forall i: nat | i < |now|
        ensures now[i] >= Min(cap, Share(weights[i], sum, total))
      {
        assert active[i] == i;
      }
    }
  }

  lemma OpenInRange(weights: seq<real>, counts: seq<nat>, cap: nat, total: nat, remaining: nat, active: seq<nat>)
    requires Fair(weights, counts, cap, total, remaining, active) && Open(counts, cap, active)
    ensures |counts| == |weights| && NonNegative(weights) && Capped(counts, cap)
    ensures InRange(active, |weights|) && Increasing(active)
    ensures Sum(counts) + remaining == total
  {
  }

  lemma RoundKeepsFair(weights: seq<real>, was: seq<nat>, now: seq<nat>, cap: nat, sum: real, total: nat, remaining: nat,
                       active: seq<nat>, given: nat, next: seq<nat>)
    requires Fair(weights, was, cap, total, remaining, active) && Open(was, cap, active)
    requires Rounded(weights, was, now, cap, sum, remaining, active) && sum == Weight(weights, was, cap, active)
    requires given <= remaining && Sum(now) == Sum(was) + given
    ensures Fair(weights, now, cap, total, remaining - given, next)
    ensures TotalWeight(weights) > 0.0 && Quota(weights, now, cap, total)
  {
    hide Share, Weight, TotalWeight, Sum, Open, Descending, NonIncreasing, Quota;
    OpenInRange(weights, was, cap, total, remaining, active);
    RoundKeepsQuota(weights, was, now, cap, sum, total, remaining, active);
    if Descending(weights) {
      RoundKeepsOrder(weights, was, now, cap, sum, remaining, active);
    }
  }

  /** One more for the first `k` active sources, all below the cap. */
  lemma ResidueKeepsFair(weights: seq<real>, was: seq<nat>, now: seq<nat>, cap: nat, total: nat, remaining: nat,
                         active: seq<nat>, k: nat)
    requires Fair(weights, was, cap, total, remaining, active) && TotalWeight(weights) > 0.0 && Quota(weights, was, cap, total)
    requires Open(was, cap, active) && (forall x :: x in active ==> was[x] < cap) && k <= |active| && k <= remaining
    requires |now| == |was| && Sum(now) == Sum(was) + k
    requires forall i: nat :: i < |now| ==> now[i] == was[i] + if i in active[..k] then 1 else 0
    ensures Fair(weights, now, cap, total, remaining - k, active) && Open(now, cap, active)
    ensures Quota(weights, now, cap, total)
  {
    hide Share, TotalWeight, Sum, Descending;
    forall i: nat | i < |now|
      ensures now[i] <= cap
    {
      assert i in active[..k] ==> i in active;
    }
    if NonIncreasing(was) {
      forall i: nat, j: nat | i < j < |now|
        ensures now[i] >= now[j]
      {
        assert was[i] >= was[j];
        if was[i] < cap && j in active[..k] {
          InPrefix(active, k, i, j);
        }
      }
    }
  }

  lemma InPrefix(active: seq<nat>, k: nat, i: nat, j: nat)
    requires Increasing(active) && k <= |active| && i < j && i in active && j in active[..k]
    ensures i in active[..k]
  {
    var a :| 0 <= a < |active| && active[a] == i;
    var b :| 0 <= b < k && active[b] == j;
    assert a < b;
    assert active[..k][a] == i;
  }

  // ---------------------------------------------------------------------------
  // The whole allocation

  function Effective(maxPerSource: nat, total: nat): nat {
    if maxPerSource == 0 then total else maxPerSource
  }

  /** Without any active weight, somebody with room weighs nothing. */
  lemma OnlyWeightless(weights: seq<real>, counts: seq<nat>, cap: nat, total: nat, remaining: nat, active: seq<nat>)
    returns (i: nat)
    requires Fair(weights, counts, cap, total, remaining, active) && Open(counts, cap, active)
    requires remaining > 0 && total <= |weights| * cap && Weight(weights, counts, cap, active) <= 0.0
    ensures i < |weights| && weights[i] == 0.0
  {
    hide Quota, Descending, NonIncreasing, TotalWeight, Weight;
    i := SomeRoom(counts, cap);
    var k :| 0 <= k < |active| && active[k] == i;
    WeightPrefix(weights, counts, cap, active, 0, k);
    WeightNonNegative(weights, counts, cap, active[..0]);
  }

  lemma Capacity(n: nat, maxPerSource: nat, total: nat)
    requires n > 0 && total > 0 && (maxPerSource == 0 || total <= n * maxPerSource)
    ensures Effective(maxPerSource, total) > 0 && total <= n * Effective(maxPerSource, total)
  {
  }

  /** Somebody with room is listed as long as edges remain. */
  lemma StillOpen(weights: seq<real>, counts: seq<nat>, cap: nat, total: nat, remaining: nat, active: seq<nat>)
    requires Fair(weights, counts, cap, total, remaining, active) && Open(counts, cap, active)
    requires remaining > 0 && total <= |weights| * cap
    ensures active != []
  {
    hide Quota, Descending, NonIncreasing, TotalWeight;
    var i := SomeRoom(counts, cap);
  }

  lemma NextIsOpen(was: seq<nat>, now: seq<nat>, cap: nat, active: seq<nat>, next: seq<nat>)
    requires Open(was, cap, active) && |now| == |was| && Increasing(next)
    requires forall i: nat :: i < |now| && i !in active ==> now[i] == was[i]
    requires forall x :: x in next ==> x in active && x < |now| && now[x] < cap
    requires forall x :: x in active && x < |now| && now[x] < cap ==> x in next
    ensures Open(now, cap, next)
  {
    forall k | 0 <= k < |next|
      ensures next[k] < |now|
    {
      assert next[k] in next;
    }
  }

  /** One pass of the loop; `ok` is false if it throws. */
  method Pass(weights: seq<real>, counts: array<nat>, cap: nat, total: nat, active: seq<nat>, remaining: nat)
    returns (ok: bool, next: seq<nat>, left: nat)
    requires Fair(weights, counts[..], cap, total, remaining, active) && Open(counts[..], cap, active)
    requires remaining > 0 && total <= |weights| * cap
    modifies counts
    ensures !ok ==> exists i :: 0 <= i < |weights| && weights[i] == 0.0
    ensures ok ==> left < remaining
    ensures ok ==> Fair(weights, counts[..], cap, total, left, next) && (left > 0 ==> Open(counts[..], cap, next))
    ensures ok ==> TotalWeight(weights) > 0.0 && Quota(weights, counts[..], cap, total)
  {
    hide Sum, Weight, TotalWeight, Quota, Descending, NonIncreasing, Fair, Open, Filled, Share;
    ok, next, left := true, [], remaining;
    OpenInRange(weights, counts[..], cap, total, remaining, active);
    var sum := ActiveWeight(weights, counts, cap, active);
    if sum <= 0.0 {
      var i := OnlyWeightless(weights, counts[..], cap, total, remaining, active);
      return false, [], remaining;
    }
    ghost var was := counts[..];
    var given;
    given, next := FillRound(weights, counts, cap, active, sum, remaining);
    RoundKeepsFair(weights, was, counts[..], cap, sum, total, remaining, active, given, next);
    left := remaining - given;
    if left > 0 {
      NextIsOpen(was, counts[..], cap, active, next);
      // The capacity is not exhausted: the second exception cannot be thrown.
      StillOpen(weights, counts[..], cap, total, left, next);
      assert next != [];
      if given == 0 {
        ghost var now := counts[..];
        ghost var rest := left;
        OpenInRange(weights, now, cap, total, rest, next);
        left := SpreadResidue(counts, next, left);
        ResidueKeepsFair(weights, now, counts[..], cap, total, rest, next, Min(|next|, rest));
      }
    }
  }

  /** The edges each source gets. */
  method Allocate(weights: seq<real>, total: nat, maxPerSource: nat) returns (outcome: Outcome, result: seq<nat>)
    requires NonNegative(weights) && |weights| > 0 && total > 0
    ensures outcome.CapacityOverflow? <==> maxPerSource != 0 && |weights| > SIZE_MAX / maxPerSource
    ensures outcome.CapTooSmall? <==>
      !outcome.CapacityOverflow? && maxPerSource != 0 && |weights| * maxPerSource < total
    ensures outcome.RanOut? ==> exists i :: 0 <= i < |weights| && weights[i] == 0.0  // never for positive weights
    ensures outcome.Counts? ==>
      && |result| == |weights| && Sum(result) == total && Capped(result, Effective(maxPerSource, total))
      && (Descending(weights) ==> NonIncreasing(result))
      && TotalWeight(weights) > 0.0 && Quota(weights, result, Effective(maxPerSource, total), total)
      && (forall i :: 0 <= i < |result| ==>
            || result[i] == (if maxPerSource == 0 then total else maxPerSource)
            || (result[i] + 1) as real * TotalWeight(weights) > weights[i] * total as real)
  {
    hide Sum, Weight, TotalWeight, Quota, Descending, NonIncreasing, Fair, Open, Filled, Share;
    result := [];
    if maxPerSource != 0 {
      if |weights| > SIZE_MAX / maxPerSource {
        return CapacityOverflow, [];
      }
      if |weights| * maxPerSource < total {
        return CapTooSmall, [];
      }
    }
    var cap := Effective(maxPerSource, total);
    Capacity(|weights|, maxPerSource, total);
    var counts := new nat[|weights|](i => 0);
    var active, remaining := Iota(|weights|), total;
    assert counts[..] == Zeros(|weights|);
    FairStart(weights, cap, total);
    while remaining > 0
      invariant 0 <= remaining <= total
      invariant Fair(weights, counts[..], cap, total, remaining, active)
      invariant remaining > 0 ==> Open(counts[..], cap, active)
      invariant remaining == 0 ==> TotalWeight(weights) > 0.0 && Quota(weights, counts[..], cap, total)
      decreases remaining
    {
      var ok;
      ok, active, remaining := Pass(weights, counts, cap, total, active, remaining);
      if !ok {
        return RanOut, [];
      }
    }
    FairEnd(weights, counts[..], cap, total, active);
    forall i: nat | i < counts.Length
      ensures counts[i] == cap || (counts[i] + 1) as real * TotalWeight(weights) > weights[i] * total as real
    {
      QuotaIsDue(weights, counts[..], cap, total, i);
    }
    return Counts, counts[..];
  }

  lemma FairEnd(weights: seq<real>, counts: seq<nat>, cap: nat, total: nat, active: seq<nat>)
    requires Fair(weights, counts, cap, total, 0, active)
    ensures |counts| == |weights| && Sum(counts) == total && Capped(counts, cap)
    ensures Descending(weights) ==> NonIncreasing(counts)
  {
  }

}
