/** How a canary's share of traffic grows. */
module Progression {
  import opened Rollout
  import opened Machine

  /** The weights a canary goes through before it is promoted. */
  function Weights(start: int, step: int): seq<int>
    requires step >= 1
    decreases 100 - start
  {
    if start >= 100 then [] else [start] + Weights(start + step, step)
  }

  lemma {:induction false} WeightsAre(start: int, step: int)
    requires 1 <= start && step >= 1
    ensures forall k :: 0 <= k < |Weights(start, step)| ==>
      Weights(start, step)[k] == start + k * step && start <= Weights(start, step)[k] <= 99
    decreases 100 - start
  {
    if start < 100 {
      WeightsAre(start + step, step);
      var rest := Weights(start + step, step);
      forall k | 0 <= k < |Weights(start, step)|
        ensures Weights(start, step)[k] == start + k * step && start <= Weights(start, step)[k] <= 99
      {
        if k > 0 {
          assert Weights(start, step)[k] == rest[k - 1];
          assert start + step + (k - 1) * step == start + k * step;
        }
      }
    }
  }

  /** A canary takes as many steps as it needs to get from its first weight to 100
      in steps of the given size, the last one cut short, and no more. */
  lemma {:induction false} WeightsCount(start: int, step: int)
    requires 1 <= start <= 100 && step >= 1
    ensures |Weights(start, step)| == (100 - start + step - 1) / step
    decreases 100 - start
  {
    if start < 100 {
      if start + step >= 100 {
        assert Weights(start + step, step) == [];
        OneStep(100 - start, step);
      } else {
        WeightsCount(start + step, step);
        ManySteps(100 - start, step);
      }
    } else {
      NoStep(step);
    }
  }

  lemma NoStep(step: int)
    requires step >= 1
    ensures (step - 1) / step == 0
  {
  }

  lemma OneStep(n: int, step: int)
    requires 1 <= n <= step
    ensures (n + step - 1) / step == 1
  {
    assert n + step - 1 == 1 * step + (n - 1);
  }

  lemma ManySteps(n: int, step: int)
    requires n > step >= 1
    ensures (n + step - 1) / step == 1 + (n - step + step - 1) / step
  {
    var q, r := (n - 1) / step, (n - 1) % step;
    assert (q + 1) * step == q * step + step;
    Quotient(n + step - 1, q + 1, r, step);
  }

  lemma Quotient(x: int, q: int, r: int, step: int)
    requires step >= 1 && x == q * step + r && 0 <= r < step
    ensures x / step == q
  {
    var k := x / step - q;
    assert k * step == r - x % step;
    Scaled(k, step);
  }

  lemma Scaled(k: int, step: int)
    requires step >= 1
    ensures k >= 1 ==> k * step >= step
    ensures k <= -1 ==> k * step <= -step
  {
    if k >= 1 {
      assert (k - 1) * step >= 0;
    } else if k <= -1 {
      assert (-k - 1) * step >= 0;
    }
  }

  /** The weights of the split configs the proxy accepted in a run, in order. */
  function Shifts(d: Deployment, log: Log): seq<int> {
    match log
    case Empty => []
    case Then(before, last) =>
      var p := Path(d, Start, before);
      Shifts(d, before) + (if p.Some? && p.value.Shift? && last.ok then [p.value.weight] else [])
  }

  /** What remains of the weights at each point of a canary run. */
  function Ahead(d: Deployment, p: Point): seq<int>
    requires d.config.canaryStep >= 1
    decreases p
  {
    var w := d.config.canaryStart;
    var step := d.config.canaryStep;
    match p
    case Start => Weights(w, step)
    case Healthy(_) => Weights(w, step)
    case Shift(w) => Weights(w, step)
    case RecordShift(w) => Weights(w + step, step)
    case Observe(w) => Weights(w + step, step)
    case Failed(at) => Ahead(d, at)
    case _ => []
  }

  /** The points of a canary run before its promotion, and those from it on. */
  predicate Rising(p: Point) {
    p.Start? || p.Healthy? || OnCanary(p)
  }

  predicate Promoting(p: Point) {
    p.Promote? || p.PromoteDrain? || p.PromotePlain? || (p.Sweep? && p.why.Retire?) || p.Finish?
  }

  /** A point where a canary run can be. */
  predicate CanaryPoint(p: Point) {
    (Rising(p) && (p.Shift? ==> p.weight < 100)) || Promoting(p) || p.Done? ||
      (p.Failed? && (Rising(p.at) || Promoting(p.at)))
  }

  lemma BeginStep(d: Deployment, p: Point, step: Step)
    requires d.strategy.Canary? && d.config.canaryStep >= 1 && |d.news| > 0
    requires Allowed(d, p, step) && (p.Start? || p.Healthy?)
    ensures Ahead(d, Next(d, p, step)) == Ahead(d, p) && CanaryPoint(Next(d, p, step))
  {
    hide Live, FreshState, Weights, NextBack, NextLinear, NextBlueGreen, AllowedBack, AllowedLinear;
    hide AllowedBlueGreen, GoingBack;
    NoWeights(d.config.canaryStart, d.config.canaryStep);
  }

  lemma NoWeights(start: int, step: int)
    requires step >= 1
    ensures start >= 100 ==> Weights(start, step) == []
    ensures start < 100 ==> Weights(start, step) == [start] + Weights(start + step, step)
  {
  }

  lemma ShiftStep(d: Deployment, p: Point, step: Step)
    requires d.strategy.Canary? && d.config.canaryStep >= 1 && |d.news| > 0
    requires Allowed(d, p, step) && OnCanary(p) && (p.Shift? ==> p.weight < 100)
    ensures (if p.Shift? && step.ok then [p.weight] else []) + Ahead(d, Next(d, p, step)) == Ahead(d, p)
    ensures CanaryPoint(Next(d, p, step))
  {
    hide Live, SplitUpstream, WeightState, Weights, NextBack, NextLinear, NextBlueGreen, AllowedBack;
    hide AllowedLinear, AllowedBlueGreen, GoingBack;
    if p.Observe? {
      NoWeights(p.weight + d.config.canaryStep, d.config.canaryStep);
    } else if p.Shift? {
      NoWeights(p.weight, d.config.canaryStep);
    }
  }

  lemma PromoteStep(d: Deployment, p: Point, step: Step)
    requires d.strategy.Canary? && d.config.canaryStep >= 1 && |d.news| > 0
    requires Allowed(d, p, step) && Promoting(p)
    ensures Ahead(d, Next(d, p, step)) == [] == Ahead(d, p) && CanaryPoint(Next(d, p, step))
  {
    hide Live, BackupUpstream, NewOnly, FinishedState, Weights, NextBack, NextLinear, NextBlueGreen;
    hide AllowedBack, AllowedLinear, AllowedBlueGreen, GoingBack;
  }

  lemma AheadStep(d: Deployment, p: Point, step: Step)
    requires d.strategy.Canary? && d.config.canaryStep >= 1 && |d.news| > 0
    requires Allowed(d, p, step) && CanaryPoint(p)
    ensures (if p.Shift? && step.ok then [p.weight] else []) + Ahead(d, Next(d, p, step)) == Ahead(d, p)
    ensures CanaryPoint(Next(d, p, step))
  {
    hide Allowed, Next, Ahead;
    assert !Ended(p) by { NotEnded(d, p, step); }
    if OnCanary(p) {
      ShiftStep(d, p, step);
    } else if Promoting(p) {
      PromoteStep(d, p, step);
    } else {
      BeginStep(d, p, step);
    }
  }

  /** A canary run accepts the split configs in exactly the order of the weights:
      those so far are the beginning of the list and the rest lies ahead; once it
      promotes none is left. */
  lemma {:induction false} ShiftsInOrder(d: Deployment, log: Log)
    requires d.strategy.Canary? && d.config.canaryStep >= 1 && |d.news| > 0 && Path(d, Start, log).Some?
    ensures var p := Path(d, Start, log).value;
      && Shifts(d, log) + Ahead(d, p) == Weights(d.config.canaryStart, d.config.canaryStep)
      && CanaryPoint(p)
  {
    hide Allowed, Next, Ahead, Weights, CanaryPoint;
    assert CanaryPoint(Start) by { StartIsCanary(); }
    if log.Then? {
      ShiftsInOrder(d, log.before);
      var p := Path(d, Start, log.before).value;
      AheadStep(d, p, log.last);
      var now := if p.Shift? && log.last.ok then [p.weight] else [];
      assert Shifts(d, log) + Ahead(d, Next(d, p, log.last)) ==
        Shifts(d, log.before) + (now + Ahead(d, Next(d, p, log.last)));
    } else {
      assert [] + Ahead(d, Start) == Ahead(d, Start) == Weights(d.config.canaryStart, d.config.canaryStep)
        by { AtStart(d); }
    }
  }

  lemma StartIsCanary()
    ensures CanaryPoint(Start)
  {
  }

  lemma NotEnded(d: Deployment, p: Point, step: Step)
    requires Allowed(d, p, step)
    ensures !Ended(p)
  {
  }

  lemma AtStart(d: Deployment)
    requires d.config.canaryStep >= 1
    ensures Ahead(d, Start) == Weights(d.config.canaryStart, d.config.canaryStep)
  {
  }

  // ----------------------------------------------------------- traffic shares

  /** The weight a proxy uses: no directive counts as 1. */
  function Effective(s: Server): int {
    if s.weight > 0 then s.weight else 1
  }

  function TotalWeight(servers: seq<Server>): int {
    if servers == [] then 0 else Effective(servers[0]) + TotalWeight(servers[1..])
  }

  lemma {:induction false} TotalConcat(a: seq<Server>, b: seq<Server>)
    ensures TotalWeight(a + b) == TotalWeight(a) + TotalWeight(b)
  {
    if a == [] {
      assert a + b == b;
    } else {
      assert (a + b)[1..] == a[1..] + b;
      TotalConcat(a[1..], b);
    }
  }

  lemma {:induction false} TotalWeighted(cs: seq<Container>, weight: int, group: string)
    requires weight >= 0
    ensures TotalWeight(Weighted(cs, weight, group)) == |cs| * (if weight > 0 then weight else 1)
  {
    if cs != [] {
      assert Weighted(cs, weight, group)[1..] == Weighted(cs[1..], weight, group);
      TotalWeighted(cs[1..], weight, group);
      var w := if weight > 0 then weight else 1;
      assert |cs| * w == w + (|cs| - 1) * w;
    }
  }

  /** The part of the traffic that the new containers get from a split config. */
  function NewShare(d: Deployment, weight: int): real
    requires |d.olds| > 0 && |d.news| > 0 && 0 < weight <= 100
  {
    SharesAdd(d, weight);
    TotalWeight(Weighted(d.news, weight, "canary")) as real / TotalWeight(SplitUpstream(d, weight).servers) as real
  }

  lemma SharesAdd(d: Deployment, weight: int)
    requires |d.olds| > 0 && |d.news| > 0 && 0 < weight <= 100
    ensures TotalWeight(Weighted(d.news, weight, "canary")) == |d.news| * weight > 0
    ensures TotalWeight(SplitUpstream(d, weight).servers) ==
      |d.olds| * (if weight < 100 then 100 - weight else 1) + |d.news| * weight
    ensures |d.olds| * (if weight < 100 then 100 - weight else 1) > 0
  {
    TotalWeighted(d.olds, 100 - weight, "stable");
    TotalWeighted(d.news, weight, "canary");
    TotalConcat(Weighted(d.olds, 100 - weight, "stable"), Weighted(d.news, weight, "canary"));
    Positive(|d.news|, weight);
    Positive(|d.olds|, if weight < 100 then 100 - weight else 1);
  }

  lemma Positive(a: int, b: int)
    requires a > 0 && b > 0
    ensures a * b > 0
  {
  }

  /** The share in whole numbers: the weight of the new containers against that of
      all. */
  lemma ShareIs(d: Deployment, weight: int, newWeight: int, oldWeight: int)
    requires |d.olds| > 0 && |d.news| > 0 && 0 < weight < 100
    requires newWeight == |d.news| * weight && oldWeight == |d.olds| * (100 - weight)
    ensures newWeight > 0 && oldWeight > 0 &&
      NewShare(d, weight) == newWeight as real / (oldWeight as real + newWeight as real)
  {
    hide TotalWeight, SplitUpstream;
    SharesAdd(d, weight);
  }

  lemma MoreWeight(n: int, lower: int, higher: int)
    requires n > 0 && lower < higher
    ensures n * lower < n * higher
  {
    assert n * higher - n * lower == n * (higher - lower);
    Positive(n, higher - lower);
  }

  /** Each step of a canary sends the new containers strictly more traffic, however
      many containers there are of each kind. */
  lemma ShareGrows(d: Deployment, lower: int, higher: int)
    requires |d.olds| > 0 && |d.news| > 0 && 0 < lower < higher < 100
    ensures 0.0 < NewShare(d, lower) < NewShare(d, higher) < 1.0
  {
    hide NewShare;
    MoreWeight(|d.news|, lower, higher);
    MoreWeight(|d.olds|, 100 - higher, 100 - lower);
    var a, b := |d.news| * lower, |d.olds| * (100 - lower);
    var a', b' := |d.news| * higher, |d.olds| * (100 - higher);
    ShareIs(d, lower, a, b);
    ShareIs(d, higher, a', b');
    Fractions(a as real, b as real, a' as real, b' as real);
  }

  lemma Sign(x: real, y: real)
    requires y > 0.0
    ensures x > 0.0 <==> x * y > 0.0
  {
  }

  lemma Fraction(a: real, t: real)
    requires 0.0 < a < t
    ensures 0.0 < a / t < 1.0
  {
    var x := a / t;
    Sign(x, t);
    assert (1.0 - x) * t == t - a;
    Sign(1.0 - x, t);
  }

  lemma Fractions(a: real, b: real, a': real, b': real)
    requires 0.0 < a < a' && 0.0 < b' < b
    ensures 0.0 < a / (b + a) < a' / (b' + a') < 1.0
  {
    Fraction(a, b + a);
    Fraction(a', b' + a');
    var x, t := a / (b + a), b + a;
    var y, t' := a' / (b' + a'), b' + a';
    assert x * t == a && y * t' == a';
    Sign(1.0 - x, a' - a);
    Sign(x, b - b');
    var gain, room := (1.0 - x) * (a' - a), x * (b - b');
    assert gain == a' - a - x * (a' - a);
    assert room == x * (a' - a) - x * (t' - t);
    assert x * (t' - t) == x * t' - a;
    assert (y - x) * t' == a' - x * t';
    assert gain > 0.0;
    assert room > 0.0;
    assert (y - x) * t' == gain + room;
    Sign(y - x, t');
  }

  /** With as many new containers as old ones the share is the weight in percent. */
  lemma EqualCountsShare(d: Deployment, weight: int)
    requires |d.olds| == |d.news| > 0 && 0 < weight < 100
    ensures NewShare(d, weight) == weight as real / 100.0
  {
    hide NewShare;
    var n := |d.news|;
    ShareIs(d, weight, n * weight, n * (100 - weight));
    assert n * (100 - weight) + n * weight == n * 100;
    Cancels(n as real, weight as real);
    assert (n * weight) as real == n as real * weight as real;
    assert (n * 100) as real == n as real * 100.0;
  }

  lemma Cancels(n: real, w: real)
    requires n > 0.0
    ensures n * w / (n * 100.0) == w / 100.0
  {
    var x := w / 100.0;
    assert n * w == x * (n * 100.0);
  }

  /** A blue-green switch at 100 does not send everyone to the new containers: the
      old ones get weight 0, which is no weight directive at all, and keep the
      default share. */
  lemma HundredIsNotAll(d: Deployment)
    requires |d.olds| > 0 && |d.news| > 0
    ensures NewShare(d, 100) == (|d.news| * 100) as real / (|d.olds| + |d.news| * 100) as real < 1.0
  {
    SharesAdd(d, 100);
    Fraction((|d.news| * 100) as real, (|d.olds| + |d.news| * 100) as real);
  }
}
