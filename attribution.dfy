// The revenue attribution router: the weight vectors of the attribution
// models, the per-touch assembly of the response and the channel
// aggregation behind its insights.
module Attribution {
  import opened Wrappers
  import opened Numerics
  import opened Ranking
  import opened Permutations

  /** `model_type`. The request only admits the first six; `Unrecognised`
      stands for any other string handed to `_calculate_weights`. */
  datatype AttributionModel =
    | UShaped
    | Linear
    | TimeDecay
    | FirstTouch
    | LastTouch
    | DataDriven
    | Unrecognised

  /** A weight vector as the routers promise it: one non-negative weight per
      touch, summing to 1. */
  ghost predicate IsDistribution(w: seq<real>, n: nat)
  {
    |w| == n && (forall i :: 0 <= i < n ==> 0.0 <= w[i]) && Sum(w) == 1.0
  }

  /** `_u_shaped(n)`. For n < 2 the middle count is negative, the middle
      part is empty and the result is `[0.4, 0.4]`. */
  function UShapedWeights(n: nat): (w: seq<real>)
  {
    if n == 2 then [0.5, 0.5]
    else
      var middleCount := n - 2;
      var middleWeight := if middleCount > 0 then 0.20 / middleCount as real else 0.0;
      [0.40] + Repeat(middleWeight, if middleCount > 0 then middleCount else 0) + [0.40]
  }

  /** The u-shaped weights for two or more touches: 50/50 for two, 40% to
      each end and 20% split over the middle otherwise. */
  lemma UShapedShape(n: nat)
    requires n >= 2
    ensures IsDistribution(UShapedWeights(n), n)
    ensures n == 2 ==> UShapedWeights(n) == [0.5, 0.5]
    ensures n >= 3 ==> var w := UShapedWeights(n);
              w[0] == 0.40 && w[n - 1] == 0.40 &&
              forall i :: 0 < i < n - 1 ==> w[i] == 0.20 / (n - 2) as real
  {
    if n > 2 {
      var k := n - 2;
      assert UShapedWeights(n) == [0.40] + Repeat(0.20 / k as real, k) + [0.40];
      UShapedSum(k);
    } else {
      assert [0.5, 0.5][..1] == [0.5];
      assert Sum([0.5]) == 0.5;
    }
  }

  lemma UShapedSum(k: nat)
    requires k > 0
    ensures Sum([0.40] + Repeat(0.20 / k as real, k) + [0.40]) == 1.0
  {
    var mid := Repeat(0.20 / k as real, k);
    SumRepeat(0.20 / k as real, k);
    assert k as real * (0.20 / k as real) == 0.20;
    assert Sum([0.40]) == 0.40;
    SumAppend([0.40], mid);
    SumAppend([0.40] + mid, [0.40]);
  }

  /** `_u_shaped(n)` below two touches, which `_calculate_weights` never
      asks for: the two end weights and nothing else. */
  lemma UShapedDegenerate(n: nat)
    requires n < 2
    ensures UShapedWeights(n) == [0.40, 0.40]
  {
  }

  /** `[1.0 / n] * n`. */
  function LinearWeights(n: nat): seq<real>
    requires n > 0
  {
    Repeat(1.0 / n as real, n)
  }

  lemma LinearShape(n: nat)
    requires n > 0
    ensures IsDistribution(LinearWeights(n), n)
    ensures forall i :: 0 <= i < n ==> LinearWeights(n)[i] == 1.0 / n as real
  {
    SumRepeat(1.0 / n as real, n);
  }

  /** `[1.0] + [0.0] * (n - 1)`. */
  function FirstTouchWeights(n: nat): seq<real>
    requires n > 0
  {
    [1.0] + Repeat(0.0, n - 1)
  }

  /** `[0.0] * (n - 1) + [1.0]`. */
  function LastTouchWeights(n: nat): seq<real>
    requires n > 0
  {
    Repeat(0.0, n - 1) + [1.0]
  }

  lemma SingleTouchShape(n: nat)
    requires n > 0
    ensures IsDistribution(FirstTouchWeights(n), n)
    ensures IsDistribution(LastTouchWeights(n), n)
    ensures FirstTouchWeights(n)[0] == 1.0 && forall i :: 0 < i < n ==> FirstTouchWeights(n)[i] == 0.0
    ensures LastTouchWeights(n)[n - 1] == 1.0 && forall i :: 0 <= i < n - 1 ==> LastTouchWeights(n)[i] == 0.0
  {
    SumRepeat(0.0, n - 1);
    SumAppend([1.0], Repeat(0.0, n - 1));
    SumAppend(Repeat(0.0, n - 1), [1.0]);
    assert Sum([1.0]) == 1.0;
  }

  /** Normalising positive raw weights gives a distribution. */
  lemma NormalisePositive(raw: seq<real>)
    requires |raw| > 0
    requires forall i :: 0 <= i < |raw| ==> 0.0 < raw[i]
    ensures 0.0 < Sum(raw)
    ensures IsDistribution(Normalise(raw), |raw|)
    ensures forall i :: 0 <= i < |raw| ==> Normalise(raw)[i] == raw[i] / Sum(raw)
  {
    SumPositive(raw);
  }

  /** `_time_decay` once the days between each touch and the conversion are
      known: `0.5 ** (days / 7)` per touch, normalised. */
  function TimeDecayWeights(m: Transcendentals, daysBefore: seq<real>): seq<real>
  {
    Normalise(seq(|daysBefore|, i requires 0 <= i < |daysBefore| => m.pow(0.5, daysBefore[i] / 7.0)))
  }

  lemma TimeDecayShape(m: Transcendentals, daysBefore: seq<real>)
    requires Sound(m)
    requires |daysBefore| > 0
    ensures IsDistribution(TimeDecayWeights(m, daysBefore), |daysBefore|)
  {
    NormalisePositive(seq(|daysBefore|, i requires 0 <= i < |daysBefore| => m.pow(0.5, daysBefore[i] / 7.0)));
  }

  /** `_shapley_heuristic(n)`: base weight 1, doubled at both ends, then
      normalised. An empty list would make `weights[0]` fail. */
  function ShapleyHeuristic(n: nat): seq<real>
    requires n > 0
  {
    Normalise(HeuristicRaw(n))
  }

  function HeuristicRaw(n: nat): (raw: seq<real>)
    requires n > 0
    ensures |raw| == n && forall i :: 0 <= i < n ==> 0.0 < raw[i]
  {
    Repeat(1.0, n)[0 := 2.0][n - 1 := 2.0]
  }

  /** Both ends get exactly twice the weight of each middle touch. */
  lemma ShapleyHeuristicShape(n: nat)
    requires n > 0
    ensures IsDistribution(ShapleyHeuristic(n), n)
    ensures forall i :: 0 < i < n - 1 ==>
              ShapleyHeuristic(n)[0] == 2.0 * ShapleyHeuristic(n)[i] &&
              ShapleyHeuristic(n)[n - 1] == 2.0 * ShapleyHeuristic(n)[i]
  {
    var raw := HeuristicRaw(n);
    NormalisePositive(raw);
  }

  /** `sqrt(1 / (pos + 1))`: the value position `pos` adds to any coalition
      in the concave game of `_data_driven`. */
  function PositionValue(m: Transcendentals, pos: nat): real
  {
    m.sqrt(1.0 / (pos + 1) as real)
  }

  /** The exact Shapley weights for 2 .. 8 touches: every ordering credits
      each position with its own value once, so before normalising position
      `pos` holds `n! * sqrt(1 / (pos + 1))`. */
  function ShapleyTotals(m: Transcendentals, n: nat): (s: seq<real>)
    ensures |s| == n
  {
    seq(n, pos requires 0 <= pos < n => Factorial(n) as real * PositionValue(m, pos))
  }

  /** What `_data_driven(n)` returns. */
  function DataDrivenWeights(m: Transcendentals, n: nat): seq<real>
  {
    if n <= 1 then Repeat(1.0 / (if n > 1 then n else 1) as real, n)
    else if n > 8 then ShapleyHeuristic(n)
    else Normalise(ShapleyTotals(m, n))
  }

  lemma {:induction false} ReciprocalAntitone(i: nat, j: nat)
    requires i <= j
    ensures 1.0 / (j + 1) as real <= 1.0 / (i + 1) as real
  {
    var a := (i + 1) as real;
    var b := (j + 1) as real;
    assert 1.0 / b * b == 1.0;
    assert 1.0 / a * a == 1.0;
    assert (1.0 / b) * a <= (1.0 / b) * b;
  }

  lemma DivideMonotone(x: real, y: real, t: real)
    requires 0.0 < t && x <= y
    ensures x / t <= y / t
  {
    assert y / t - x / t == (y - x) / t;
  }

  lemma ShapleyTotalPositive(m: Transcendentals, n: nat, i: nat)
    requires Sound(m)
    requires i < n
    ensures 0.0 < ShapleyTotals(m, n)[i]
  {
    var v := 1.0 / (i + 1) as real;
    assert v * (i + 1) as real == 1.0;
    assert 0.0 < PositionValue(m, i);
    PositiveProduct(Factorial(n) as real, PositionValue(m, i));
  }

  lemma ShapleyTotalAntitone(m: Transcendentals, n: nat, i: nat, j: nat)
    requires Sound(m)
    requires i <= j < n
    ensures ShapleyTotals(m, n)[j] <= ShapleyTotals(m, n)[i]
  {
    ReciprocalAntitone(i, j);
    var vi := 1.0 / (i + 1) as real;
    var vj := 1.0 / (j + 1) as real;
    assert vj * (j + 1) as real == 1.0;
    assert PositionValue(m, j) <= PositionValue(m, i);
    ScaleMonotone(Factorial(n) as real, PositionValue(m, j), PositionValue(m, i));
  }

  lemma PositiveProduct(a: real, b: real)
    requires 0.0 < a && 0.0 < b
    ensures 0.0 < a * b
  {
  }

  lemma ScaleMonotone(f: real, x: real, y: real)
    requires 0.0 <= f && x <= y
    ensures f * x <= f * y
  {
  }

  /** For 2 .. 8 touches the exact Shapley weights are positive, never grow
      with the position, and sum to 1. */
  lemma DataDrivenShape(m: Transcendentals, n: nat)
    requires Sound(m)
    requires 2 <= n <= 8
    ensures IsDistribution(DataDrivenWeights(m, n), n)
    ensures forall i :: 0 <= i < n ==> 0.0 < DataDrivenWeights(m, n)[i]
    ensures forall i, j :: 0 <= i <= j < n ==> DataDrivenWeights(m, n)[j] <= DataDrivenWeights(m, n)[i]
  {
    var s := ShapleyTotals(m, n);
    forall i | 0 <= i < n
      ensures 0.0 < s[i]
    {
      ShapleyTotalPositive(m, n, i);
    }
    NormalisePositive(s);
    var w := DataDrivenWeights(m, n);
    assert w == Normalise(s);
    forall i | 0 <= i < n
      ensures 0.0 < w[i]
    {
      assert w[i] == s[i] / Sum(s);
    }
    forall i, j | 0 <= i <= j < n
      ensures w[j] <= w[i]
    {
      ShapleyTotalAntitone(m, n, i, j);
      DivideMonotone(s[j], s[i], Sum(s));
    }
  }

  /** `v` added to itself `c` times, the way the permutation loop of
      `_data_driven` accumulates it. */
  function Repeated(c: nat, v: real): real
  {
    if c == 0 then 0.0 else Repeated(c - 1, v) + v
  }

  lemma {:induction false} RepeatedIsProduct(c: nat, v: real)
    ensures Repeated(c, v) == c as real * v
  {
    if c > 0 {
      RepeatedIsProduct(c - 1, v);
      assert (c - 1) as real * v + v == c as real * v;
    }
  }

  /** The inner loop of `_data_driven` for one ordering `perm`: position
      `pos` gains `v_with - v_without`, its own value, once per occurrence. */
  method CreditOrdering(m: Transcendentals, shapley: array<real>, perm: seq<nat>)
    requires forall k :: 0 <= k < |perm| ==> perm[k] < shapley.Length
    modifies shapley
    ensures forall pos :: 0 <= pos < shapley.Length ==>
              shapley[pos] == old(shapley[pos]) + Repeated(multiset(perm)[pos], PositionValue(m, pos))
  {
    var cumulative := 0.0;
    var k := 0;
    while k < |perm|
      invariant 0 <= k <= |perm|
      invariant forall pos :: 0 <= pos < shapley.Length ==>
                  shapley[pos] == old(shapley[pos]) + Repeated(multiset(perm[..k])[pos], PositionValue(m, pos))
    {
      var pos := perm[k];
      var vWithout := cumulative;
      var individualValue := m.sqrt(1.0 / (pos + 1) as real);
      var vWith := cumulative + individualValue;
      assert perm[..k + 1] == perm[..k] + [pos];
      assert multiset(perm[..k + 1]) == multiset(perm[..k]) + multiset{pos};
      assert vWith - vWithout == PositionValue(m, pos);
      assert Repeated(multiset(perm[..k + 1])[pos], PositionValue(m, pos)) ==
             Repeated(multiset(perm[..k])[pos], PositionValue(m, pos)) + PositionValue(m, pos);
      shapley[pos] := shapley[pos] + (vWith - vWithout);
      cumulative := vWith;
      k := k + 1;
    }
    assert perm[..k] == perm;
  }

  /** An ordering of `range(n)` holds each position exactly once. */
  lemma OrderingCoversPositions(n: nat, perm: seq<nat>)
    requires multiset(perm) == multiset(Range(n))
    ensures forall k :: 0 <= k < |perm| ==> perm[k] < n
    ensures forall pos :: 0 <= pos < n ==> multiset(perm)[pos] == 1
  {
    forall pos | 0 <= pos < n
      ensures multiset(perm)[pos] == 1
    {
      RangeOccurrences(n, pos);
    }
    forall k | 0 <= k < |perm|
      ensures perm[k] < n
    {
      assert perm[k] in multiset(Range(n));
      RangeOccurrences(n, perm[k]);
    }
  }

  lemma RepeatedTotals(m: Transcendentals, n: nat, s: seq<real>)
    requires |s| == n
    requires forall pos :: 0 <= pos < n ==> s[pos] == Repeated(Factorial(n), PositionValue(m, pos))
    ensures s == ShapleyTotals(m, n)
  {
    forall pos | 0 <= pos < n
      ensures s[pos] == ShapleyTotals(m, n)[pos]
    {
      RepeatedIsProduct(Factorial(n), PositionValue(m, pos));
    }
  }

  /** `_data_driven(n)`. For 2 .. 8 touches it plays the value game over
      every ordering of the positions: each position is credited the
      difference its arrival makes to the running coalition value. */
  method DataDrivenShapley(m: Transcendentals, n: nat) returns (w: seq<real>)
    ensures w == DataDrivenWeights(m, n)
  {
    if n <= 1 {
      return Repeat(1.0 / (if n > 1 then n else 1) as real, n);
    }
    if n > 8 {
      return ShapleyHeuristic(n);
    }
    var positions := Range(n);
    var perms := AllPermutations(positions);
    var shapley := new real[n](_ => 0.0);
    var count := 0;
    var i := 0;
    while i < |perms|
      invariant 0 <= i <= |perms| && count == i
      invariant forall pos :: 0 <= pos < n ==> shapley[pos] == Repeated(i, PositionValue(m, pos))
    {
      var perm := perms[i];
      assert perm in perms;
      OrderingCoversPositions(n, perm);
      count := count + 1;
      CreditOrdering(m, shapley, perm);
      i := i + 1;
    }
    RepeatedTotals(m, n, shapley[..]);
    w := Normalise(shapley[..]);
  }

  /** `_calculate_weights` as a specification: the dispatch on the model. */
  function Weights(m: Transcendentals, model: AttributionModel, n: nat, daysBefore: seq<real>): (w: seq<real>)
    requires |daysBefore| == n
    ensures |w| == n
  {
    if n == 0 then []
    else if n == 1 then [1.0]
    else match model
      case UShaped => UShapedWeights(n)
      case Linear => LinearWeights(n)
      case TimeDecay => TimeDecayWeights(m, daysBefore)
      case FirstTouch => FirstTouchWeights(n)
      case LastTouch => LastTouchWeights(n)
      case DataDriven => DataDrivenWeights(m, n)
      case Unrecognised => UShapedWeights(n)
  }

  /** Every model, the fallback included, hands out one non-negative weight
      per touch and the weights sum to 1. */
  lemma WeightsAreDistribution(m: Transcendentals, model: AttributionModel, n: nat, daysBefore: seq<real>)
    requires Sound(m)
    requires |daysBefore| == n
    ensures n == 0 ==> Weights(m, model, n, daysBefore) == []
    ensures n > 0 ==> IsDistribution(Weights(m, model, n, daysBefore), n)
  {
    if n == 1 {
      assert Sum([1.0]) == 1.0;
    } else if n > 1 {
      match model
      case UShaped => UShapedShape(n);
      case Linear => LinearShape(n);
      case TimeDecay => TimeDecayShape(m, daysBefore);
      case FirstTouch => SingleTouchShape(n);
      case LastTouch => SingleTouchShape(n);
      case DataDriven =>
        if n > 8 {
          ShapleyHeuristicShape(n);
        } else {
          DataDrivenShape(m, n);
        }
      case Unrecognised => UShapedShape(n);
    }
  }

  /** `_calculate_weights(tps, model)`, with the days between each touch and
      the conversion, which `_time_decay` derives from the timestamps,
      given. The method keeps the source's step-by-step filling of the
      weight list; `Weights` is the specification it is proved equal to. */
  method CalculateWeights(m: Transcendentals, model: AttributionModel, n: nat, daysBefore: seq<real>)
    returns (w: seq<real>)
    requires |daysBefore| == n
    ensures w == Weights(m, model, n, daysBefore)
  {
    if n == 0 {
      return [];
    }
    if n == 1 {
      return [1.0];
    }
    match model {
      case UShaped => w := UShapedWeights(n);
      case Linear => w := LinearWeights(n);
      case TimeDecay => w := TimeDecayWeights(m, daysBefore);
      case FirstTouch => w := FirstTouchWeights(n);
      case LastTouch => w := LastTouchWeights(n);
      case DataDriven => w := DataDrivenShapley(m, n);
      case Unrecognised => w := UShapedWeights(n);
    }
  }

  /** `TouchpointInput`. */
  datatype Touchpoint = Touchpoint(
    touchType: string,
    occurredAt: string,
    channel: string,
    keyword: Option<string>,
    contentId: Option<string>,
    amount: real)

  /** `TouchpointAttribution`, before the two-decimal rounding. */
  datatype TouchpointAttribution = TouchpointAttribution(
    index: nat,
    touchType: string,
    channel: string,
    keyword: Option<string>,
    contentId: Option<string>,
    occurredAt: string,
    attributedAmount: real,
    attributionPct: real)

  function Attribute(i: nat, tp: Touchpoint, w: real, totalRevenue: real): TouchpointAttribution
  {
    TouchpointAttribution(i, tp.touchType, tp.channel, tp.keyword, tp.contentId, tp.occurredAt,
                          Share(totalRevenue, w), w * 100.0)
  }

  /** The part of `total` that the weight `w` gives. */
  function Share(total: real, w: real): real
  {
    total * w
  }

  /** The credit of channel `c`: the attributed amounts of its entries. */
  function ChannelCredit(entries: seq<TouchpointAttribution>, c: string): real
  {
    if |entries| == 0 then 0.0
    else
      var last := entries[|entries| - 1];
      ChannelCredit(entries[..|entries| - 1], c) + (if last.channel == c then last.attributedAmount else 0.0)
  }

  /** The keys of `channel_credit` in insertion order: each channel at its
      first appearance. */
  function ChannelOrder(entries: seq<TouchpointAttribution>): (order: seq<string>)
    ensures |order| == 0 <==> |entries| == 0
  {
    if |entries| == 0 then []
    else
      var o := ChannelOrder(entries[..|entries| - 1]);
      var c := entries[|entries| - 1].channel;
      if c in o then o else o + [c]
  }

  predicate Distinct(order: seq<string>)
  {
    forall i, j :: 0 <= i < j < |order| ==> order[i] != order[j]
  }

  /** Each channel is a key of `channel_credit` once. */
  lemma {:induction false} ChannelOrderDistinct(entries: seq<TouchpointAttribution>)
    ensures Distinct(ChannelOrder(entries))
  {
    if |entries| > 0 {
      ChannelOrderDistinct(entries[..|entries| - 1]);
    }
  }

  /** A channel is a key of `channel_credit` exactly when some entry has
      it. */
  lemma {:induction false} ChannelOrderMembers(entries: seq<TouchpointAttribution>, c: string)
    ensures c in ChannelOrder(entries) <==> exists k :: 0 <= k < |entries| && entries[k].channel == c
  {
    if |entries| > 0 {
      var prefix := entries[..|entries| - 1];
      ChannelOrderMembers(prefix, c);
      if exists k :: 0 <= k < |entries| && entries[k].channel == c {
        var k :| 0 <= k < |entries| && entries[k].channel == c;
        if k < |prefix| {
          assert prefix[k].channel == c;
        }
      }
      if exists k :: 0 <= k < |prefix| && prefix[k].channel == c {
        var k :| 0 <= k < |prefix| && prefix[k].channel == c;
        assert entries[k].channel == c;
      }
    }
  }

  /** The credits of the channels in `order`, summed. */
  function CreditOver(order: seq<string>, entries: seq<TouchpointAttribution>): real
  {
    if |order| == 0 then 0.0
    else CreditOver(order[..|order| - 1], entries) + ChannelCredit(entries, order[|order| - 1])
  }

  lemma {:induction false} CreditOfAbsentChannel(entries: seq<TouchpointAttribution>, c: string)
    requires c !in ChannelOrder(entries)
    ensures ChannelCredit(entries, c) == 0.0
  {
    if |entries| > 0 {
      CreditOfAbsentChannel(entries[..|entries| - 1], c);
    }
  }

  /** Appending one entry adds its amount to the credit of the channels in
      `order` exactly when its channel is among them. */
  lemma {:induction false} CreditOverAppend(order: seq<string>, entries: seq<TouchpointAttribution>,
                                            a: TouchpointAttribution)
    requires Distinct(order)
    ensures CreditOver(order, entries + [a]) ==
            CreditOver(order, entries) + (if a.channel in order then a.attributedAmount else 0.0)
  {
    assert (entries + [a])[..|entries|] == entries;
    if |order| > 0 {
      var prefix := order[..|order| - 1];
      CreditOverAppend(prefix, entries, a);
      assert a.channel in order <==> a.channel in prefix || a.channel == order[|order| - 1];
      assert a.channel == order[|order| - 1] ==> a.channel !in prefix;
    }
  }

  lemma CreditOverExtend(order: seq<string>, c: string, entries: seq<TouchpointAttribution>)
    ensures CreditOver(order + [c], entries) == CreditOver(order, entries) + ChannelCredit(entries, c)
  {
    assert (order + [c])[..|order|] == order;
  }

  /** Aggregating by channel loses nothing: the channel credits add up to
      the sum of all attributed amounts. */
  lemma {:induction false} ChannelCreditTotal(entries: seq<TouchpointAttribution>)
    ensures CreditOver(ChannelOrder(entries), entries) == Sum(Amounts(entries))
  {
    if |entries| > 0 {
      var prefix := entries[..|entries| - 1];
      var a := entries[|entries| - 1];
      assert entries == prefix + [a];
      ChannelCreditTotal(prefix);
      var o := ChannelOrder(prefix);
      ChannelOrderDistinct(prefix);
      CreditOverAppend(o, prefix, a);
      if a.channel !in o {
        CreditOfAbsentChannel(prefix, a.channel);
        CreditOverExtend(o, a.channel, entries);
      }
      assert Amounts(entries)[..|entries| - 1] == Amounts(prefix);
      assert Sum(Amounts(entries)) == Sum(Amounts(prefix)) + a.attributedAmount;
      assert CreditOver(ChannelOrder(entries), entries) == CreditOver(o, prefix) + a.attributedAmount;
    }
  }

  /** The `channel_credit` loop of `_generate_insights`: the dictionary's
      keys in insertion order and its values. */
  method AggregateChannelCredit(entries: seq<TouchpointAttribution>)
    returns (order: seq<string>, credit: map<string, real>)
    ensures order == ChannelOrder(entries)
    ensures credit.Keys == set c | c in order
    ensures forall c :: c in credit ==> credit[c] == ChannelCredit(entries, c)
  {
    order, credit := [], map[];
    var i := 0;
    while i < |entries|
      invariant 0 <= i <= |entries|
      invariant order == ChannelOrder(entries[..i])
      invariant credit.Keys == set c | c in order
      invariant forall c :: c in credit ==> credit[c] == ChannelCredit(entries[..i], c)
    {
      var a := entries[i];
      assert entries[..i + 1][..i] == entries[..i];
      if a.channel !in credit {
        CreditOfAbsentChannel(entries[..i], a.channel);
        order := order + [a.channel];
      }
      credit := credit[a.channel := (if a.channel in credit then credit[a.channel] else 0.0) + a.attributedAmount];
      i := i + 1;
    }
    assert entries[..i] == entries;
  }

  /** The channels `_generate_insights` counts as organic. */
  const OrganicChannels: set<string> := {"organic_search", "seo", "linkedin", "email", "referral", "content"}

  /** `organic_total`: the credit of the organic channels among `order`. */
  function OrganicCredit(order: seq<string>, entries: seq<TouchpointAttribution>): real
  {
    if |order| == 0 then 0.0
    else
      var c := order[|order| - 1];
      OrganicCredit(order[..|order| - 1], entries) + (if c in OrganicChannels then ChannelCredit(entries, c) else 0.0)
  }

  /** The credit of every organic channel of a journey. */
  function OrganicTotal(entries: seq<TouchpointAttribution>): real
  {
    OrganicCredit(ChannelOrder(entries), entries)
  }

  /** The lines of `_generate_insights`, without their wording. */
  datatype Insight =
    | TopChannel(channel: string, amount: real, percentOfRevenue: real, model: AttributionModel)
    | OrganicShare(amount: real, percent: real)
    | ModelTip(model: AttributionModel)
    | SingleTouchJourney
    | LongJourney(touches: nat)

  predicate HasOrganicShare(insights: seq<Insight>)
  {
    exists i :: 0 <= i < |insights| && insights[i].OrganicShare?
  }

  /** The position of each line in the order `_generate_insights` appends
      them; the two journey lines exclude each other. */
  function InsightRank(i: Insight): nat
  {
    match i
    case TopChannel(_, _, _, _) => 0
    case OrganicShare(_, _) => 1
    case ModelTip(_) => 2
    case SingleTouchJourney => 3
    case LongJourney(_) => 3
  }

  /** The top-channel line: the first channel, in order of appearance, whose
      credit is largest, with that credit and its share of the revenue. */
  function TopChannelOf(entries: seq<TouchpointAttribution>, totalRevenue: real, model: AttributionModel)
    : (top: Insight)
    requires 0.0 < totalRevenue
    requires |entries| > 0
    ensures top.TopChannel? && top.model == model
    ensures top.channel in ChannelOrder(entries)
    ensures top.amount == ChannelCredit(entries, top.channel)
    ensures top.percentOfRevenue == top.amount / totalRevenue * 100.0
    ensures forall c :: c in ChannelOrder(entries) ==> ChannelCredit(entries, c) <= top.amount
    ensures exists t :: 0 <= t < |ChannelOrder(entries)| && ChannelOrder(entries)[t] == top.channel &&
              forall i :: 0 <= i < t ==> ChannelCredit(entries, ChannelOrder(entries)[i]) < top.amount
  {
    var order := ChannelOrder(entries);
    var k := FirstMaxBy(order, c => ChannelCredit(entries, c));
    var amount := ChannelCredit(entries, order[k]);
    TopChannel(order[k], amount, amount / totalRevenue * 100.0, model)
  }

  /** The insight lines for a journey: none for an empty one; otherwise the
      top channel, then the organic share when organic channels earned
      credit, the model tip for a recognised model and a note on a journey
      of one touch or of seven or more, each at most once and in that
      order. */
  function Insights(entries: seq<TouchpointAttribution>, totalRevenue: real, model: AttributionModel)
    : (r: seq<Insight>)
    requires 0.0 < totalRevenue
    ensures |entries| == 0 ==> r == []
    ensures |entries| > 0 ==> |r| > 0 && r[0] == TopChannelOf(entries, totalRevenue, model)
    ensures HasOrganicShare(r) <==> |entries| > 0 && 0.0 < OrganicTotal(entries)
    ensures forall i :: 0 <= i < |r| && r[i].OrganicShare? ==>
              r[i].amount == OrganicTotal(entries) &&
              r[i].percent == r[i].amount / totalRevenue * 100.0
    ensures ModelTip(model) in r <==> |entries| > 0 && model != Unrecognised
    ensures forall i :: 0 <= i < |r| && r[i].ModelTip? ==> r[i] == ModelTip(model)
    ensures SingleTouchJourney in r <==> |entries| == 1
    ensures LongJourney(|entries|) in r <==> |entries| >= 7
    ensures forall i :: 0 <= i < |r| && r[i].LongJourney? ==> r[i] == LongJourney(|entries|)
    ensures StrictlyRanked(r, InsightRank)
  {
    if |entries| == 0 then []
    else
      PercentSign(OrganicTotal(entries), totalRevenue);
      AssembleInsights(TopChannelOf(entries, totalRevenue, model), OrganicTotal(entries),
                       OrganicTotal(entries) / totalRevenue * 100.0, model, |entries|)
  }

  /** `_generate_insights(attributions, total_revenue, model)`: `total_revenue`
      is positive, as the request demands. The top channel is found with the
      `channel_credit` dictionary built step by step. */
  method GenerateInsights(entries: seq<TouchpointAttribution>, totalRevenue: real, model: AttributionModel)
    returns (insights: seq<Insight>)
    requires 0.0 < totalRevenue
    ensures insights == Insights(entries, totalRevenue, model)
  {
    var order, credit := AggregateChannelCredit(entries);
    insights := [];
    if |order| == 0 {
      return;
    }
    assert order[0] in credit;
    var k := FirstMaxBy(order, c => if c in credit then credit[c] else 0.0);
    var topChannel := order[k];
    var topAmount := credit[topChannel];
    var top := TopChannel(topChannel, topAmount, topAmount / totalRevenue * 100.0, model);
    var organicTotal := OrganicCredit(order, entries);
    var organicPct := organicTotal / totalRevenue * 100.0;
    insights := AssembleInsights(top, organicTotal, organicPct, model, |entries|);
    assert top == TopChannelOf(entries, totalRevenue, model) by {
      assert forall i :: 0 <= i < |order| ==> order[i] in credit;
      FirstMaxByAgrees(order, c => if c in credit then credit[c] else 0.0, c => ChannelCredit(entries, c));
    }
    assert organicTotal == OrganicTotal(entries);
  }

  /** A share of a positive total is positive exactly when the part is. */
  lemma PercentSign(part: real, total: real)
    requires 0.0 < total
    ensures 0.0 < part / total * 100.0 <==> 0.0 < part
  {
    if 0.0 < part {
      assert 0.0 < part / total;
    } else {
      assert part / total <= 0.0;
    }
  }

  lemma PrependTop(top: Insight, further: seq<Insight>, organic: Insight)
    requires top.TopChannel?
    requires forall i :: 0 <= i < |further| && further[i].OrganicShare? ==> further[i] == organic
    ensures forall i :: 0 <= i < |[top] + further| && ([top] + further)[i].OrganicShare? ==>
              ([top] + further)[i] == organic
    ensures HasOrganicShare([top] + further) <==> HasOrganicShare(further)
    ensures forall x :: x != top ==> (x in [top] + further <==> x in further)
  {
    if HasOrganicShare([top] + further) {
      var i :| 0 <= i < |[top] + further| && ([top] + further)[i].OrganicShare?;
      assert further[i - 1].OrganicShare?;
    }
    if HasOrganicShare(further) {
      var i :| 0 <= i < |further| && further[i].OrganicShare?;
      assert ([top] + further)[i + 1].OrganicShare?;
    }
  }

  /** The organic-share line, when organic channels earned a positive share. */
  function OrganicLine(organicTotal: real, organicPct: real): (r: seq<Insight>)
    ensures |r| <= 1 && forall i :: 0 <= i < |r| ==> InsightRank(r[i]) == 1
  {
    if organicPct > 0.0 then [OrganicShare(organicTotal, organicPct)] else []
  }

  /** The tip for a recognised model. */
  function TipLine(model: AttributionModel): (r: seq<Insight>)
    ensures |r| <= 1 && forall i :: 0 <= i < |r| ==> InsightRank(r[i]) == 2
  {
    if model != Unrecognised then [ModelTip(model)] else []
  }

  /** The note on a journey of one touch or of seven or more. */
  function JourneyLine(n: nat): (r: seq<Insight>)
    ensures |r| <= 1 && forall i :: 0 <= i < |r| ==> InsightRank(r[i]) == 3
  {
    if n == 1 then [SingleTouchJourney] else if n >= 7 then [LongJourney(n)] else []
  }

  /** Lines of one rank each, at most one per rank, placed in rank order. */
  lemma InsightLinesRanked(top: Insight, organic: seq<Insight>, tip: seq<Insight>, journey: seq<Insight>)
    requires top.TopChannel?
    requires |organic| <= 1 && forall i :: 0 <= i < |organic| ==> InsightRank(organic[i]) == 1
    requires |tip| <= 1 && forall i :: 0 <= i < |tip| ==> InsightRank(tip[i]) == 2
    requires |journey| <= 1 && forall i :: 0 <= i < |journey| ==> InsightRank(journey[i]) == 3
    ensures StrictlyRanked([top] + (organic + tip + journey), InsightRank)
  {
    var r := [top] + (organic + tip + journey);
    forall i, j | 0 <= i < j < |r|
      ensures InsightRank(r[i]) < InsightRank(r[j])
    {
      assert 1 <= InsightRank(r[j]);
      if 0 < i {
        var a, b := i - 1, j - 1;
        var o, t := |organic|, |tip|;
        assert InsightRank(r[i]) == (if a < o then 1 else if a < o + t then 2 else 3);
        assert InsightRank(r[j]) == (if b < o then 1 else if b < o + t then 2 else 3);
      }
    }
  }

  /** The top-channel line followed by the lines `_generate_insights`
      appends after it, in that order. */
  function AssembleInsights(top: Insight, organicTotal: real, organicPct: real, model: AttributionModel, n: nat)
    : (r: seq<Insight>)
    requires top.TopChannel?
    ensures |r| > 0 && r[0] == top && |r| <= 4
    ensures HasOrganicShare(r) <==> 0.0 < organicPct
    ensures forall i :: 0 <= i < |r| && r[i].OrganicShare? ==> r[i] == OrganicShare(organicTotal, organicPct)
    ensures ModelTip(model) in r <==> model != Unrecognised
    ensures forall i :: 0 <= i < |r| && r[i].ModelTip? ==> r[i] == ModelTip(model)
    ensures SingleTouchJourney in r <==> n == 1
    ensures LongJourney(n) in r <==> n >= 7
    ensures forall i :: 0 <= i < |r| && r[i].LongJourney? ==> r[i] == LongJourney(n)
    ensures StrictlyRanked(r, InsightRank)
  {
    InsightLinesRanked(top, OrganicLine(organicTotal, organicPct), TipLine(model), JourneyLine(n));
    OrganicLineMembers(top, organicTotal, organicPct, model, n);
    TipLineMembers(top, organicTotal, organicPct, model, n);
    JourneyLineMembers(top, organicTotal, organicPct, model, n);
    [top] + (OrganicLine(organicTotal, organicPct) + TipLine(model) + JourneyLine(n))
  }

  /** The organic-share line is present once organic credit is positive, and
      it is the only organic-share line. */
  lemma OrganicLineMembers(top: Insight, organicTotal: real, organicPct: real, model: AttributionModel, n: nat)
    requires top.TopChannel?
    ensures var r := [top] + (OrganicLine(organicTotal, organicPct) + TipLine(model) + JourneyLine(n));
            (HasOrganicShare(r) <==> 0.0 < organicPct) &&
            forall i :: 0 <= i < |r| && r[i].OrganicShare? ==> r[i] == OrganicShare(organicTotal, organicPct)
  {
    var organic := OrganicLine(organicTotal, organicPct);
    var further := organic + TipLine(model) + JourneyLine(n);
    assert 0.0 < organicPct ==> further[0].OrganicShare?;
    assert HasOrganicShare(further) ==> HasOrganicShare(organic);
    PrependTop(top, further, OrganicShare(organicTotal, organicPct));
  }

  /** The model tip is present exactly for a recognised model, and it is
      that model's tip. */
  lemma TipLineMembers(top: Insight, organicTotal: real, organicPct: real, model: AttributionModel, n: nat)
    requires top.TopChannel?
    ensures var r := [top] + (OrganicLine(organicTotal, organicPct) + TipLine(model) + JourneyLine(n));
            |r| > 0 && r[0] == top && |r| <= 4 &&
            (ModelTip(model) in r <==> model != Unrecognised) &&
            (forall i :: 0 <= i < |r| && r[i].ModelTip? ==> r[i] == ModelTip(model))
  {
    var further := OrganicLine(organicTotal, organicPct) + TipLine(model) + JourneyLine(n);
    PrependTop(top, further, OrganicShare(organicTotal, organicPct));
  }

  /** The journey notes are present exactly for one touch and for seven or
      more, the latter carrying the journey's length. */
  lemma JourneyLineMembers(top: Insight, organicTotal: real, organicPct: real, model: AttributionModel, n: nat)
    requires top.TopChannel?
    ensures var r := [top] + (OrganicLine(organicTotal, organicPct) + TipLine(model) + JourneyLine(n));
            (SingleTouchJourney in r <==> n == 1) &&
            (LongJourney(n) in r <==> n >= 7) &&
            (forall i :: 0 <= i < |r| && r[i].LongJourney? ==> r[i] == LongJourney(n))
  {
    var further := OrganicLine(organicTotal, organicPct) + TipLine(model) + JourneyLine(n);
    PrependTop(top, further, OrganicShare(organicTotal, organicPct));
  }

  /** The attributed amounts of `entries`, in order. */
  function Amounts(entries: seq<TouchpointAttribution>): (r: seq<real>)
    ensures |r| == |entries| && forall k :: 0 <= k < |entries| ==> r[k] == entries[k].attributedAmount
  {
    seq(|entries|, k requires 0 <= k < |entries| => entries[k].attributedAmount)
  }

  /** Shares of `t` by the weights `w` add up to `t` times their sum. */
  lemma {:induction false} SumOfShares(w: seq<real>, entries: seq<TouchpointAttribution>, t: real)
    requires |entries| == |w|
    requires forall k :: 0 <= k < |w| ==> entries[k].attributedAmount == Share(t, w[k])
    ensures Sum(Amounts(entries)) == t * Sum(w)
  {
    var n := |w|;
    if n > 0 {
      var prefix := entries[..n - 1];
      SumOfShares(w[..n - 1], prefix, t);
      assert Amounts(entries)[..n - 1] == Amounts(prefix);
      assert Sum(Amounts(entries)) == Sum(Amounts(prefix)) + t * w[n - 1];
      assert Sum(w) == Sum(w[..n - 1]) + w[n - 1];
    }
  }

  datatype AttributionError = NoTouchpoints

  /** `AttributionResponse`. */
  datatype AttributionResponse = AttributionResponse(
    modelUsed: AttributionModel,
    totalRevenue: real,
    touchpointsCount: nat,
    touchpointAttribution: seq<TouchpointAttribution>,
    insights: seq<Insight>)

  /** `analyze_attribution`: an empty journey is refused; otherwise every
      touch gets its model weight's share of the revenue, and under sound
      library functions the shares, and the channel credits built from
      them, add up to the whole revenue. */
  method AnalyzeAttribution(m: Transcendentals, tps: seq<Touchpoint>, daysBefore: seq<real>,
                            totalRevenue: real, model: AttributionModel)
    returns (r: Result<AttributionResponse, AttributionError>)
    requires 0.0 < totalRevenue
    requires |daysBefore| == |tps|
    ensures r.Err? <==> |tps| == 0
    ensures r.Ok? ==>
              var resp := r.value;
              var w := Weights(m, model, |tps|, daysBefore);
              resp.modelUsed == model && resp.totalRevenue == totalRevenue &&
              resp.touchpointsCount == |tps| && |resp.touchpointAttribution| == |tps| &&
              forall i :: 0 <= i < |tps| ==> resp.touchpointAttribution[i] == Attribute(i, tps[i], w[i], totalRevenue)
    ensures r.Ok? && Sound(m) ==>
              Sum(Amounts(r.value.touchpointAttribution)) == totalRevenue &&
              CreditOver(ChannelOrder(r.value.touchpointAttribution), r.value.touchpointAttribution) == totalRevenue
    ensures r.Ok? ==> r.value.insights == Insights(r.value.touchpointAttribution, totalRevenue, model)
  {
    if |tps| == 0 {
      return Err(NoTouchpoints);
    }
    var weights := CalculateWeights(m, model, |tps|, daysBefore);
    var entries: seq<TouchpointAttribution> := [];
    var i := 0;
    while i < |tps|
      invariant 0 <= i <= |tps|
      invariant |entries| == i
      invariant forall k :: 0 <= k < i ==> entries[k] == Attribute(k, tps[k], weights[k], totalRevenue)
    {
      entries := entries + [Attribute(i, tps[i], weights[i], totalRevenue)];
      i := i + 1;
    }
    var insights := GenerateInsights(entries, totalRevenue, model);
    r := Ok(AttributionResponse(model, totalRevenue, |tps|, entries, insights));
    if Sound(m) {
      WeightsAreDistribution(m, model, |tps|, daysBefore);
      assert forall k :: 0 <= k < |weights| ==> entries[k].attributedAmount == Share(totalRevenue, weights[k]);
      RevenueFullyAttributed(weights, entries, totalRevenue);
      ChannelCreditTotal(entries);
    }
  }

  /** Shares of the revenue by a weight distribution add up to the
      revenue. */
  lemma RevenueFullyAttributed(w: seq<real>, entries: seq<TouchpointAttribution>, totalRevenue: real)
    requires Sum(w) == 1.0
    requires |entries| == |w|
    requires forall k :: 0 <= k < |w| ==> entries[k].attributedAmount == Share(totalRevenue, w[k])
    ensures Sum(Amounts(entries)) == totalRevenue
  {
    SumOfShares(w, entries, totalRevenue);
  }
}
