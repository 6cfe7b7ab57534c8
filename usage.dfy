/**
 * Usage accounting: turning a backend's optional usage payload into counters
 * (`extract_usage_fields`) and summing the counters of many calls.
 * Costs are modelled as exact reals; floating-point rounding is not modelled.
 */
module Usage {
  import opened Wrappers

  /**
   * The usage dictionary returned with a reply. A field is `None` when the key
   * is absent or its value is null; `usage.get(k)` cannot tell the two apart.
   */
  datatype UsagePayload = UsagePayload(
    totalCost: Option<real>,
    cost: Option<real>,
    completionTokens: Option<nat>,
    promptTokens: Option<nat>,
    totalTokens: Option<nat>,
    reasoningTokens: Option<nat>)

  /** The counters recorded per call and summed per run. */
  datatype UsageStats = UsageStats(
    cost: real,
    completionTokens: nat,
    promptTokens: nat,
    totalTokens: nat,
    reasoningTokens: nat)

  const Zero := UsageStats(0.0, 0, 0, 0, 0)

  const EmptyPayload := UsagePayload(None, None, None, None, None, None)

  /** `int(x or 0)` */
  function TokensOrZero(x: Option<nat>): nat {
    if x.Some? then x.value else 0
  }

  /** `float(x or 0.0)` */
  function CostOrZero(x: Option<real>): real {
    if x.Some? then x.value else 0.0
  }

  /**
   * `extract_usage_fields`: never fails; an absent payload gives zeros,
   * `total_cost` is preferred over `cost`, a missing counter is 0.
   */
  function ExtractUsage(usage: Option<UsagePayload>): (r: UsageStats)
    ensures usage.None? ==> r == Zero
    ensures usage.Some? ==>
              r.totalTokens == TokensOrZero(usage.value.totalTokens) &&
              r.promptTokens == TokensOrZero(usage.value.promptTokens) &&
              r.completionTokens == TokensOrZero(usage.value.completionTokens) &&
              r.reasoningTokens == TokensOrZero(usage.value.reasoningTokens)
  {
    match usage
    case None => Zero
    case Some(u) =>
      var cost := if u.totalCost.Some? then u.totalCost else u.cost;
      UsageStats(
        CostOrZero(cost),
        TokensOrZero(u.completionTokens),
        TokensOrZero(u.promptTokens),
        TokensOrZero(u.totalTokens),
        TokensOrZero(u.reasoningTokens))
  }

  /** An empty usage dictionary is treated like an absent one. */
  lemma ExtractEmptyIsZero()
    ensures ExtractUsage(Some(EmptyPayload)) == ExtractUsage(None) == Zero
  {
  }

  /** `total_cost`, when present, wins over `cost`; `cost` is used only when it is absent. */
  lemma ExtractCostPreference(u: UsagePayload)
    ensures u.totalCost.Some? ==> ExtractUsage(Some(u)).cost == u.totalCost.value
    ensures u.totalCost.None? ==> ExtractUsage(Some(u)).cost == CostOrZero(u.cost)
  {
  }

  function Add(x: UsageStats, y: UsageStats): UsageStats {
    UsageStats(
      x.cost + y.cost,
      x.completionTokens + y.completionTokens,
      x.promptTokens + y.promptTokens,
      x.totalTokens + y.totalTokens,
      x.reasoningTokens + y.reasoningTokens)
  }

  lemma AddAssociative(x: UsageStats, y: UsageStats, z: UsageStats)
    ensures Add(Add(x, y), z) == Add(x, Add(y, z))
  {
  }

  /** The running totals after adding the usages one by one, left to right. */
  function Sum(us: seq<UsageStats>): UsageStats {
    if us == [] then Zero else Add(Sum(us[..|us| - 1]), us[|us| - 1])
  }

  /** Summing a concatenation is adding the two partial sums. */
  lemma {:induction false} SumAppend(a: seq<UsageStats>, b: seq<UsageStats>)
    ensures Sum(a + b) == Add(Sum(a), Sum(b))
  {
    if b == [] {
      assert a + b == a;
      assert Sum(b) == Zero;
    } else {
      var b', y := b[..|b| - 1], b[|b| - 1];
      assert (a + b)[..|a + b| - 1] == a + b';
      assert (a + b)[|a + b| - 1] == y;
      SumAppend(a, b');
      var sa, sb' := Sum(a), Sum(b');
      assert Sum(a + b) == Add(Sum(a + b'), y);
      assert Sum(b) == Add(sb', y);
      AddAssociative(sa, sb', y);
    }
  }

  /** Taking one usage out of the middle of a sequence and adding it last gives the same sum. */
  lemma SumRemoveAt(b: seq<UsageStats>, i: nat)
    requires i < |b|
    ensures Sum(b) == Add(Sum(b[..i] + b[i + 1..]), b[i])
  {
    var p, x, q := b[..i], b[i], b[i + 1..];
    assert b == (p + [x]) + q;
    SumAppend(p + [x], q);
    assert (p + [x])[..|p|] == p;
    SumAppend(p, q);
    AddSwap(Sum(p), x, Sum(q));
  }

  lemma AddSwap(x: UsageStats, y: UsageStats, z: UsageStats)
    ensures Add(Add(x, y), z) == Add(Add(x, z), y)
  {
  }

  lemma MultisetRemoveAt(a: seq<UsageStats>, b: seq<UsageStats>, i: nat)
    requires a != [] && i < |b| && multiset(a) == multiset(b) && b[i] == a[|a| - 1]
    ensures multiset(a[..|a| - 1]) == multiset(b[..i] + b[i + 1..])
  {
    var n, x, rest := |a| - 1, b[i], b[..i] + b[i + 1..];
    assert a == a[..n] + [x];
    assert b == b[..i] + [x] + b[i + 1..];
    calc {
      multiset(a[..n]) + multiset{x};
      multiset(b[..i]) + multiset{x} + multiset(b[i + 1..]);
      multiset(rest) + multiset{x};
    }
    assert multiset(a[..n]) == multiset(a[..n]) + multiset{x} - multiset{x};
    assert multiset(rest) == multiset(rest) + multiset{x} - multiset{x};
  }

  /** The totals do not depend on the order in which the calls are added. */
  lemma {:induction false} SumOrderIndependent(a: seq<UsageStats>, b: seq<UsageStats>)
    requires multiset(a) == multiset(b)
    ensures Sum(a) == Sum(b)
  {
    if a != [] {
      var n := |a| - 1;
      assert a[n] in multiset(b);
      var i :| 0 <= i < |b| && b[i] == a[n];
      MultisetRemoveAt(a, b, i);
      SumOrderIndependent(a[..n], b[..i] + b[i + 1..]);
      SumRemoveAt(b, i);
    }
  }
}
