/** Accumulating cumulative execution quantities: a high-water mark per execution leg. */
module ExecutionFills {
  import opened Prelude

  /** A leg is identified by its execution id, or by a digest of its other identifying fields. */
  datatype LegKey = ByExecution(order: Id, execution: Id) | ByDigest(order: Id, fields: Id)

  /** `order` and `execution` are None when the normalized text is empty. */
  datatype Leg = Leg(order: Option<Id>, execution: Option<Id>, fields: Id, quantity: real)

  predicate LegValid(l: Leg) {
    l.quantity >= 0.0 && l.order.Some?
  }

  function KeyOf(l: Leg): LegKey
    requires l.order.Some?
  {
    if l.execution.Some? then ByExecution(l.order.value, l.execution.value) else ByDigest(l.order.value, l.fields)
  }

  type Marks = map<LegKey, real>

  predicate MarksValid(m: Marks) {
    forall k :: k in m ==> m[k] >= 0.0
  }

  predicate LegsValid(legs: seq<Leg>) {
    forall i :: 0 <= i < |legs| ==> LegValid(legs[i])
  }

  function MarkAt(m: Marks, k: LegKey): real {
    if k in m then m[k] else 0.0
  }

  datatype Accumulation = Accumulation(state: Marks, delta: real, decreased: bool, degraded: seq<LegKey>)

  /**
   * Two legs are counted as one exactly when they belong to the same order and either report the same execution, or
   * both report none and agree in their other identifying fields.
   */
  lemma KeyIdentifiesLeg(a: Leg, b: Leg)
    requires a.order.Some? && b.order.Some?
    ensures KeyOf(a) == KeyOf(b) <==>
              a.order == b.order && a.execution == b.execution && (a.execution.None? ==> a.fields == b.fields)
  {
  }

  // ----- Specification -----

  ghost predicate Mentions(legs: seq<Leg>, k: LegKey)
    requires LegsValid(legs)
  {
    exists i :: 0 <= i < |legs| && KeyOf(legs[i]) == k
  }

  ghost predicate Reports(legs: seq<Leg>, k: LegKey, quantity: real)
    requires LegsValid(legs)
  {
    exists i :: 0 <= i < |legs| && KeyOf(legs[i]) == k && legs[i].quantity == quantity
  }

  /** The state is the per-key maximum of the prior mark and every incoming quantity, on exactly the keys seen. */
  ghost predicate IsHighWater(prior: Marks, legs: seq<Leg>, state: Marks)
    requires LegsValid(legs)
  {
    && (forall k :: k in state <==> k in prior || Mentions(legs, k))
    && (forall k :: k in state ==> MarkAt(prior, k) <= state[k])
    && (forall k, quantity :: Reports(legs, k, quantity) ==> k in state && quantity <= state[k])
    && (forall k :: k in state ==> state[k] == MarkAt(prior, k) || Reports(legs, k, state[k]))
  }

  /** Some leg reported less than was already known for its key before it. */
  ghost predicate HasDecrease(prior: Marks, legs: seq<Leg>)
    requires LegsValid(legs)
  {
    exists i :: 0 <= i < |legs| && DecreasesAt(prior, legs, i)
  }

  ghost predicate DecreasesAt(prior: Marks, legs: seq<Leg>, i: nat)
    requires LegsValid(legs) && i < |legs|
  {
    legs[i].quantity < MarkAt(prior, KeyOf(legs[i])) ||
    exists j :: 0 <= j < i && KeyOf(legs[j]) == KeyOf(legs[i]) && legs[j].quantity > legs[i].quantity
  }

  /** The maximum per key is unique, so the predicate determines the whole state. */
  lemma HighWaterIsUnique(prior: Marks, legs: seq<Leg>, one: Marks, two: Marks)
    requires LegsValid(legs) && IsHighWater(prior, legs, one) && IsHighWater(prior, legs, two)
    ensures one == two
  {
    assert forall k :: k in one <==> k in two;
    forall k | k in one
      ensures one[k] == two[k]
    {
      assert Reports(legs, k, one[k]) ==> one[k] <= two[k];
      assert Reports(legs, k, two[k]) ==> two[k] <= one[k];
    }
  }

  /** What two batches report together is what one of them reports. */
  lemma ReportsOfBoth(first: seq<Leg>, second: seq<Leg>)
    requires LegsValid(first) && LegsValid(second)
    ensures LegsValid(first + second)
    ensures forall k, quantity :: Reports(first + second, k, quantity) <==>
        Reports(first, k, quantity) || Reports(second, k, quantity)
    ensures forall k :: Mentions(first + second, k) <==> Mentions(first, k) || Mentions(second, k)
  {
    var all := first + second;
    assert forall i :: 0 <= i < |all| ==> all[i] == if i < |first| then first[i] else second[i - |first|];
    forall k, quantity
      ensures Reports(all, k, quantity) <==> Reports(first, k, quantity) || Reports(second, k, quantity)
    {
      LiftReport(first, second, k, quantity);
    }
    forall k
      ensures Mentions(all, k) <==> Mentions(first, k) || Mentions(second, k)
    {
      LiftMention(first, second, k);
    }
  }

  lemma LiftReport(first: seq<Leg>, second: seq<Leg>, k: LegKey, quantity: real)
    requires LegsValid(first) && LegsValid(second) && LegsValid(first + second)
    ensures Reports(first, k, quantity) || Reports(second, k, quantity) ==> Reports(first + second, k, quantity)
  {
    var all := first + second;
    if i :| 0 <= i < |first| && KeyOf(first[i]) == k && first[i].quantity == quantity {
      assert all[i] == first[i];
    }
    if i :| 0 <= i < |second| && KeyOf(second[i]) == k && second[i].quantity == quantity {
      assert all[|first| + i] == second[i];
    }
  }

  lemma LiftMention(first: seq<Leg>, second: seq<Leg>, k: LegKey)
    requires LegsValid(first) && LegsValid(second) && LegsValid(first + second)
    ensures Mentions(first, k) || Mentions(second, k) ==> Mentions(first + second, k)
  {
    var all := first + second;
    if i :| 0 <= i < |first| && KeyOf(first[i]) == k {
      assert all[i] == first[i];
    }
    if i :| 0 <= i < |second| && KeyOf(second[i]) == k {
      assert all[|first| + i] == second[i];
    }
  }

  lemma ReportsOfOne(leg: Leg)
    requires LegValid(leg)
    ensures LegsValid([leg])
    ensures forall k, quantity :: Reports([leg], k, quantity) <==> k == KeyOf(leg) && quantity == leg.quantity
    ensures forall k :: Mentions([leg], k) <==> k == KeyOf(leg)
  {
    assert [leg][0] == leg;
  }

  // ----- The loop -----

  /** accumulate_execution_fills: None stands for EXECUTION_FILL_INVALID. */
  method Accumulate(previous: Marks, incoming: seq<Leg>) returns (r: Option<Accumulation>)
    ensures r.Some? <==> MarksValid(previous) && LegsValid(incoming)
    ensures r.Some? <==>
      && (forall k :: k in previous ==> previous[k] >= 0.0)
      && (forall i :: 0 <= i < |incoming| ==> incoming[i].quantity >= 0.0 && incoming[i].order.Some?)
    ensures r.Some? ==>
      && IsHighWater(previous, incoming, r.value.state)
      && r.value.delta == MapSum(r.value.state) - MapSum(previous)
      && (r.value.decreased <==> HasDecrease(previous, incoming))
      && (forall k :: k in r.value.degraded <==> k.ByDigest? && Mentions(incoming, k))
      && (forall i, j :: 0 <= i < j < |r.value.degraded| ==> r.value.degraded[i] != r.value.degraded[j])
  {
    hide IsHighWater, HasDecrease, Mentions, MapSum;
    if !MarksValid(previous) {
      return None;
    }
    NothingReportedYet(previous);
    var state := previous;
    var delta := 0.0;
    var decreased := false;
    var degraded: seq<LegKey> := [];
    for n := 0 to |incoming|
      invariant LegsValid(incoming[..n])
      invariant IsHighWater(previous, incoming[..n], state)
      invariant delta == MapSum(state) - MapSum(previous)
      invariant decreased <==> HasDecrease(previous, incoming[..n])
      invariant forall k :: k in degraded <==> k.ByDigest? && Mentions(incoming[..n], k)
      invariant forall i, j :: 0 <= i < j < |degraded| ==> degraded[i] != degraded[j]
    {
      var leg := incoming[n];
      if !LegValid(leg) {
        return None;
      }
      assert incoming[..n + 1] == incoming[..n] + [leg];
      var key := KeyOf(leg);
      if key.ByDigest? && key !in degraded {
        degraded := degraded + [key];
      }
      var recorded := MarkAt(state, key);
      ReportsOfOne(leg);
      ReportsOfBoth(incoming[..n], [leg]);
      HighWaterStep(previous, incoming[..n], leg, state);
      DecreaseStep(previous, incoming[..n], leg, state);
      if leg.quantity < recorded {
        decreased := true;
      } else {
        MapSumWrite(state, key, leg.quantity);
        delta := delta + (leg.quantity - recorded);
        state := state[key := leg.quantity];
      }
    }
    assert incoming[..|incoming|] == incoming;
    return Some(Accumulation(state, delta, decreased, degraded));
  }

  lemma NothingReportedYet(prior: Marks)
    ensures IsHighWater(prior, [], prior) && !HasDecrease(prior, []) && forall k :: !Mentions([], k)
  {
  }

  /** What the loop makes of one more leg. */
  function Raised(state: Marks, leg: Leg): Marks
    requires LegValid(leg)
  {
    if leg.quantity < MarkAt(state, KeyOf(leg)) then state else state[KeyOf(leg) := leg.quantity]
  }

  lemma HighWaterStep(prior: Marks, legs: seq<Leg>, leg: Leg, state: Marks)
    requires MarksValid(prior) && LegsValid(legs) && LegValid(leg) && IsHighWater(prior, legs, state)
    ensures LegsValid(legs + [leg]) && IsHighWater(prior, legs + [leg], Raised(state, leg))
  {
    ReportsOfOne(leg);
    ReportsOfBoth(legs, [leg]);
    hide Reports, Mentions;
    assert MarkAt(prior, KeyOf(leg)) >= 0.0;
  }

  lemma DecreaseStep(prior: Marks, legs: seq<Leg>, leg: Leg, state: Marks)
    requires LegsValid(legs) && LegValid(leg) && IsHighWater(prior, legs, state) && LegsValid(legs + [leg])
    requires MarksValid(prior)
    ensures HasDecrease(prior, legs + [leg]) <==> HasDecrease(prior, legs) || leg.quantity < MarkAt(state, KeyOf(leg))
  {
    var longer := legs + [leg];
    var n := |legs|;
    forall i | 0 <= i < n
      ensures DecreasesAt(prior, longer, i) <==> DecreasesAt(prior, legs, i)
    {
      assert forall j :: 0 <= j <= i ==> longer[j] == legs[j];
    }
    LastDecreases(prior, legs, leg, state);
    if HasDecrease(prior, legs) {
      var i :| 0 <= i < |legs| && DecreasesAt(prior, legs, i);
      assert DecreasesAt(prior, longer, i);
    }
  }

  lemma LastDecreases(prior: Marks, legs: seq<Leg>, leg: Leg, state: Marks)
    requires LegsValid(legs) && LegValid(leg) && IsHighWater(prior, legs, state) && LegsValid(legs + [leg])
    requires MarksValid(prior)
    ensures DecreasesAt(prior, legs + [leg], |legs|) <==> leg.quantity < MarkAt(state, KeyOf(leg))
  {
    var longer, n, key := legs + [leg], |legs|, KeyOf(leg);
    assert longer[n] == leg && forall j :: 0 <= j < n ==> longer[j] == legs[j];
    if j :| 0 <= j < n && KeyOf(legs[j]) == key && legs[j].quantity > leg.quantity {
      assert Reports(legs, key, legs[j].quantity);
    }
    if leg.quantity < MarkAt(state, key) && state[key] != MarkAt(prior, key) {
      var i :| 0 <= i < n && KeyOf(legs[i]) == key && legs[i].quantity == state[key];
      assert longer[i] == legs[i];
    }
  }

  // ----- Consequences for any two accumulations -----

  /** Only which legs arrived matters, not in which order or how often. */
  lemma OrderDoesNotMatter(prior: Marks, legs: seq<Leg>, other: seq<Leg>, one: Marks, two: Marks)
    requires LegsValid(legs) && LegsValid(other) && (forall l :: l in legs <==> l in other)
    requires IsHighWater(prior, legs, one) && IsHighWater(prior, other, two)
    ensures one == two
  {
    SameLegsSameReports(legs, other);
    SameLegsSameReports(other, legs);
    hide Reports, Mentions;
    assert IsHighWater(prior, other, one);
    HighWaterIsUnique(prior, other, one, two);
  }

  lemma SameLegsSameReports(legs: seq<Leg>, other: seq<Leg>)
    requires LegsValid(legs) && LegsValid(other) && (forall l :: l in legs ==> l in other)
    ensures forall k, quantity :: Reports(legs, k, quantity) ==> Reports(other, k, quantity)
    ensures forall k :: Mentions(legs, k) ==> Mentions(other, k)
  {
    forall k, quantity | Reports(legs, k, quantity)
      ensures Reports(other, k, quantity)
    {
      var i :| 0 <= i < |legs| && KeyOf(legs[i]) == k && legs[i].quantity == quantity;
      assert legs[i] in other;
    }
    forall k | Mentions(legs, k)
      ensures Mentions(other, k)
    {
      var i :| 0 <= i < |legs| && KeyOf(legs[i]) == k;
      assert legs[i] in other;
    }
  }

  /** Accumulating two batches one after the other is accumulating them together, and the deltas add up. */
  lemma BatchesCompose(prior: Marks, first: seq<Leg>, second: seq<Leg>, middle: Marks, state: Marks, together: Marks)
    requires MarksValid(prior) && LegsValid(first) && LegsValid(second) && LegsValid(first + second)
    requires IsHighWater(prior, first, middle) && IsHighWater(middle, second, state)
        && IsHighWater(prior, first + second, together)
    ensures state == together
    ensures MapSum(together) - MapSum(prior) == (MapSum(middle) - MapSum(prior)) + (MapSum(state) - MapSum(middle))
  {
    ReportsOfBoth(first, second);
    forall k | k in state
      ensures state[k] == MarkAt(prior, k) || Reports(first + second, k, state[k])
    {
      MentionedIsReported(second, k);
      assert MarkAt(prior, k) >= 0.0;
    }
    hide Reports, Mentions, MapSum;
    assert IsHighWater(prior, first + second, state);
    HighWaterIsUnique(prior, first + second, state, together);
  }

  lemma MentionedIsReported(legs: seq<Leg>, k: LegKey)
    requires LegsValid(legs)
    ensures Mentions(legs, k) ==> exists quantity :: quantity >= 0.0 && Reports(legs, k, quantity)
  {
    if Mentions(legs, k) {
      var i :| 0 <= i < |legs| && KeyOf(legs[i]) == k;
      assert Reports(legs, k, legs[i].quantity);
    }
  }

  /** Replaying input that has been accumulated changes nothing and counts nothing. */
  lemma ReplayAddsNothing(prior: Marks, legs: seq<Leg>, state: Marks, again: Marks)
    requires LegsValid(legs) && IsHighWater(prior, legs, state) && IsHighWater(state, legs, again)
    ensures again == state && MapSum(again) - MapSum(state) == 0.0
  {
    assert IsHighWater(state, legs, state);
    HighWaterIsUnique(state, legs, again, state);
  }

  /** What was counted is never negative. */
  lemma DeltaIsNonNegative(prior: Marks, legs: seq<Leg>, state: Marks)
    requires MarksValid(prior) && LegsValid(legs) && IsHighWater(prior, legs, state)
    ensures MapSum(state) - MapSum(prior) >= 0.0
  {
    var padded := map k | k in state :: MarkAt(prior, k);
    assert forall k :: k in prior ==> k in state;
    PaddingKeepsSum(prior, padded);
    MapSumMonotone(padded, state);
  }

  lemma {:induction false} PaddingKeepsSum(m: Marks, padded: Marks)
    requires forall k :: k in m ==> k in padded
    requires forall k :: k in padded ==> padded[k] == MarkAt(m, k)
    ensures MapSum(padded) == MapSum(m)
    decreases |padded|
  {
    if padded.Keys == {} {
      assert m.Keys == {};
      MapSumEmpty(m);
      MapSumEmpty(padded);
    } else {
      var k :| k in padded.Keys;
      assert (padded - {k}).Keys == padded.Keys - {k};
      PaddingKeepsSum(m - {k}, padded - {k});
      MapSumSplit(padded, k);
      if k in m {
        MapSumSplit(m, k);
      } else {
        assert m - {k} == m;
      }
    }
  }
}
