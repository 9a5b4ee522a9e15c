/** Price-sensitivity scenarios, projected from the rounded baseline rows. */
module FinanceScenarios {
  import opened Outcomes
  import opened Rounding
  import opened Tiers
  import opened Telemetry
  import opened FinanceEngine

  datatype Scenario = Scenario(name: string, subscriptionMult: map<TierKey, real>, priceMult: map<TierKey, real>)
  datatype ScenarioRow = ScenarioRow(name: string, effective: real, margin: real)

  predicate NonNegativeAt(m: map<TierKey, real>, tier: TierKey) {
    tier in m && m[tier] >= 0.0
  }

  ghost predicate MultipliersParse(sc: Scenario) {
    forall i :: 0 <= i < |TRACKED| ==> NonNegativeAt(sc.subscriptionMult, TRACKED[i]) && NonNegativeAt(sc.priceMult, TRACKED[i])
  }

  ghost predicate ScenarioParses(sc: Scenario) {
    sc.name != "" && MultipliersParse(sc)
  }

  ghost predicate ScenariosParse(scenarios: seq<Scenario>) {
    forall i :: 0 <= i < |scenarios| ==> ScenarioParses(scenarios[i])
  }

  /** What a scenario reads per tier: the baseline row and the share of the list price that is paid. */
  datatype Basis = Basis(units: map<TierKey, Unit>, paid: map<TierKey, real>)

  ghost predicate BasisCovers(b: Basis) {
    Covers(b.units) && Covers(b.paid)
  }

  datatype Projection = Projection(effective: real, llm: real, infra: real, support: real) {
    function Cogs(): real { llm + infra + support }
    function Add(p: Projection): Projection {
      Projection(effective + p.effective, llm + p.llm, infra + p.infra, support + p.support)
    }
  }

  function Project(u: Unit, paid: real, subMult: real, priceMult: real): Projection {
    var e := u.economics;
    var per := Max(u.active as real, 1.0);
    var active := u.active as real * subMult;
    var gross := active * (e.mrr / per * priceMult);
    var effective := gross * paid;
    Projection(effective, e.llm / per * active, e.infra / Max(e.effective, 1.0) * effective, e.support / per * active)
  }

  /** The sum over the first n tracked tiers. */
  function Projected(b: Basis, sc: Scenario, n: nat): Projection
    requires n <= |TRACKED| && BasisCovers(b) && MultipliersParse(sc)
  {
    if n == 0 then Projection(0.0, 0.0, 0.0, 0.0) else
    var tier := TRACKED[n - 1];
    Projected(b, sc, n - 1).Add(Project(b.units[tier], b.paid[tier], sc.subscriptionMult[tier], sc.priceMult[tier]))
  }

  function Report(name: string, p: Projection): ScenarioRow {
    ScenarioRow(name, Round(p.effective, PLACES2), Round(SafeMargin(p.effective, p.Cogs()), PLACES2))
  }

  function ScenarioReport(b: Basis, sc: Scenario): ScenarioRow
    requires BasisCovers(b) && MultipliersParse(sc)
  {
    Report(sc.name, Projected(b, sc, |TRACKED|))
  }

  method RunScenario(b: Basis, sc: Scenario) returns (r: Result<ScenarioRow>)
    requires BasisCovers(b)
    ensures r.Ok? <==> ScenarioParses(sc)
    ensures r.Ok? ==> r.value == ScenarioReport(b, sc)
  {
    hide Project, Round, SafeMargin;
    if sc.name == "" { return Error("scenario name must be a non-empty string"); }
    for i := 0 to |TRACKED|
      invariant forall k :: 0 <= k < i ==> NonNegativeAt(sc.subscriptionMult, TRACKED[k]) && NonNegativeAt(sc.priceMult, TRACKED[k])
    {
      if !NonNegativeAt(sc.subscriptionMult, TRACKED[i]) || !NonNegativeAt(sc.priceMult, TRACKED[i]) {
        return Error("scenario multiplier must be >= 0");
      }
    }
    var total := Projection(0.0, 0.0, 0.0, 0.0);
    for i := 0 to |TRACKED|
      invariant total == Projected(b, sc, i)
    {
      var tier := TRACKED[i];
      var projected := ProjectTier(b.units[tier], b.paid[tier], sc.subscriptionMult[tier], sc.priceMult[tier]);
      total := Projection(total.effective + projected.effective, total.llm + projected.llm,
                          total.infra + projected.infra, total.support + projected.support);
    }
    var cogs := total.llm + total.infra + total.support;
    assert cogs == total.Cogs();
    return Ok(ScenarioRow(sc.name, Round(total.effective, PLACES2), Round(SafeMargin(total.effective, cogs), PLACES2)));
  }

  method ProjectTier(u: Unit, paid: real, subMult: real, priceMult: real) returns (p: Projection)
    ensures p == Project(u, paid, subMult, priceMult)
  {
    var per := if u.active as real >= 1.0 then u.active as real else 1.0;
    var active := u.active as real * subMult;
    var monthly := u.economics.mrr / per * priceMult;
    var effective := active * monthly * paid;
    var infraBasis := if u.economics.effective >= 1.0 then u.economics.effective else 1.0;
    p := Projection(effective, u.economics.llm / per * active, u.economics.infra / infraBasis * effective, u.economics.support / per * active);
  }

  /**
    The projection of a tier, without dividing: revenue, usage and support follow the
    subscriptions, revenue also the price and the paid share, infrastructure follows revenue.
   */
  lemma ProjectionLaw(u: Unit, paid: real, subMult: real, priceMult: real)
    ensures var p, e, n, m := Project(u, paid, subMult, priceMult), u.economics, Max(u.active as real, 1.0), u.active as real * subMult;
            && p.effective * n == e.mrr * m * priceMult * paid
            && p.llm * n == e.llm * m
            && p.support * n == e.support * m
            && p.infra * Max(e.effective, 1.0) == e.infra * p.effective
  {
    var e, n, m := u.economics, Max(u.active as real, 1.0), u.active as real * subMult;
    var p := Project(u, paid, subMult, priceMult);
    PerSubscription(e.llm, n, m);
    PerSubscription(e.support, n, m);
    PerSubscription(e.infra, Max(e.effective, 1.0), p.effective);
    DivMul(e.mrr, n);
    RevenueProduct(e.mrr / n, n, e.mrr, m, priceMult, paid);
  }

  lemma PerSubscription(amount: real, n: real, m: real)
    requires n > 0.0
    ensures amount / n * m * n == amount * m
  {
    var q := amount / n;
    DivMul(amount, n);
    assert q * m * n == q * n * m;
  }

  lemma RevenueProduct(q: real, n: real, mrr: real, m: real, price: real, paid: real)
    requires q * n == mrr
    ensures m * (q * price) * paid * n == mrr * m * price * paid
  {
    assert m * (q * price) * paid * n == (q * n) * m * price * paid;
  }

  method ComputeScenarioRows(b: Basis, scenarios: seq<Scenario>) returns (r: Result<seq<ScenarioRow>>)
    requires BasisCovers(b)
    ensures r.Ok? <==> ScenariosParse(scenarios)
    ensures r.Ok? ==> |r.value| == |scenarios| &&
                      forall i :: 0 <= i < |scenarios| ==> r.value[i] == ScenarioReport(b, scenarios[i])
  {
    hide ScenarioReport;
    var output: seq<ScenarioRow> := [];
    for i := 0 to |scenarios|
      invariant |output| == i
      invariant forall k :: 0 <= k < i ==> ScenarioParses(scenarios[k])
      invariant forall k :: 0 <= k < i ==> output[k] == ScenarioReport(b, scenarios[k])
    {
      var row := RunScenario(b, scenarios[i]);
      if row.Error? { return Error(row.message); }
      output := output + [row.value];
    }
    return Ok(output);
  }

  // ----- raising every price by the same factor -----

  ghost predicate NonNegative(p: Projection) {
    p.effective >= 0.0 && p.llm >= 0.0 && p.infra >= 0.0 && p.support >= 0.0
  }

  ghost predicate UnitShape(u: Unit) {
    && u.active >= 0
    && u.economics.mrr >= 0.0 && u.economics.llm >= 0.0 && u.economics.infra >= 0.0 && u.economics.support >= 0.0
  }

  /** Baseline rows as the engine builds them, and a paid share between nothing and the list price. */
  ghost predicate BasisShape(b: Basis) {
    && BasisCovers(b)
    && forall i :: 0 <= i < |TRACKED| ==> UnitShape(b.units[TRACKED[i]]) && 0.0 <= b.paid[TRACKED[i]] <= 1.0
  }

  ghost function ScalePrices(sc: Scenario, k: real): Scenario {
    sc.(priceMult := map tier | tier in sc.priceMult :: k * sc.priceMult[tier])
  }

  /** Revenue and the infrastructure cost that follows revenue grow by k; the other costs stay. */
  ghost function ScaleProjection(p: Projection, k: real): Projection {
    Projection(k * p.effective, p.llm, k * p.infra, p.support)
  }

  lemma QuotientNonNegative(a: real, b: real)
    requires a >= 0.0 && b > 0.0
    ensures a / b >= 0.0
  {
  }

  lemma ProjectNonNegative(u: Unit, paid: real, subMult: real, priceMult: real)
    requires UnitShape(u) && paid >= 0.0 && subMult >= 0.0 && priceMult >= 0.0
    ensures NonNegative(Project(u, paid, subMult, priceMult))
  {
    var e, per := u.economics, Max(u.active as real, 1.0);
    var active := u.active as real * subMult;
    MulNonNegative(u.active as real, subMult);
    QuotientNonNegative(e.mrr, per);
    MulNonNegative(e.mrr / per, priceMult);
    MulNonNegative(active, e.mrr / per * priceMult);
    var gross := active * (e.mrr / per * priceMult);
    MulNonNegative(gross, paid);
    QuotientNonNegative(e.llm, per);
    MulNonNegative(e.llm / per, active);
    QuotientNonNegative(e.support, per);
    MulNonNegative(e.support / per, active);
    QuotientNonNegative(e.infra, Max(e.effective, 1.0));
    MulNonNegative(e.infra / Max(e.effective, 1.0), gross * paid);
  }

  lemma ScaleChain(k: real, active: real, unitPrice: real, priceMult: real, paid: real, infraRate: real)
    ensures active * (unitPrice * (k * priceMult)) * paid == k * (active * (unitPrice * priceMult) * paid)
    ensures infraRate * (k * (active * (unitPrice * priceMult) * paid)) == k * (infraRate * (active * (unitPrice * priceMult) * paid))
  {
  }

  lemma ProjectScales(u: Unit, paid: real, subMult: real, priceMult: real, k: real)
    ensures Project(u, paid, subMult, k * priceMult) == ScaleProjection(Project(u, paid, subMult, priceMult), k)
  {
    var e, per := u.economics, Max(u.active as real, 1.0);
    ScaleChain(k, u.active as real * subMult, e.mrr / per, priceMult, paid, e.infra / Max(e.effective, 1.0));
  }

  lemma ScaleAdd(p: Projection, q: Projection, k: real)
    ensures ScaleProjection(p.Add(q), k) == ScaleProjection(p, k).Add(ScaleProjection(q, k))
  {
  }

  lemma {:induction false} ProjectedScales(b: Basis, sc: Scenario, k: real, n: nat)
    requires n <= |TRACKED| && BasisShape(b) && MultipliersParse(sc) && k >= 0.0
    requires MultipliersParse(ScalePrices(sc, k))
    ensures Projected(b, ScalePrices(sc, k), n) == ScaleProjection(Projected(b, sc, n), k)
    ensures NonNegative(Projected(b, sc, n))
  {
    hide Project;
    if n > 0 {
      ProjectedScales(b, sc, k, n - 1);
      var tier := TRACKED[n - 1];
      var u, paid, sm, pm := b.units[tier], b.paid[tier], sc.subscriptionMult[tier], sc.priceMult[tier];
      ProjectScales(u, paid, sm, pm, k);
      ProjectNonNegative(u, paid, sm, pm);
      var raised := ScalePrices(sc, k);
      assert raised.priceMult[tier] == k * pm;
      assert Projected(b, raised, n) == Projected(b, raised, n - 1).Add(Project(u, paid, sm, raised.priceMult[tier]));
      ScaleAdd(Projected(b, sc, n - 1), Project(u, paid, sm, pm), k);
    }
  }

  lemma ScaledMultipliersParse(sc: Scenario, k: real)
    requires MultipliersParse(sc) && k >= 0.0
    ensures MultipliersParse(ScalePrices(sc, k))
  {
    forall i | 0 <= i < |TRACKED|
      ensures NonNegativeAt(ScalePrices(sc, k).priceMult, TRACKED[i])
    {
      MulNonNegative(k, sc.priceMult[TRACKED[i]]);
    }
  }

  lemma MarginGrowsWithPrices(r: real, cogs: real, fixed: real, infra: real, k: real, r': real, cogs': real)
    requires r > 0.0 && fixed >= 0.0 && k >= 1.0
    requires cogs == fixed + infra && r' == k * r && cogs' == fixed + k * infra
    ensures r' > 0.0
    ensures (r - cogs) / r <= (r' - cogs') / r'
  {
    var lower, upper := (r - cogs) / r, (r' - cogs') / r';
    DivMul(r - cogs, r);
    DivMul(r' - cogs', r');
    assert lower * r' == k * (lower * r) == k * (r - cogs) == r' - k * fixed - k * infra;
    MulAtLeast(k, fixed);
    MulCancel(lower, upper, r');
  }

  lemma PositiveMargins(r: real, cogs: real, r': real, cogs': real)
    requires r > 0.0 && r' > 0.0
    requires (r - cogs) / r <= (r' - cogs') / r'
    ensures SafeMargin(r, cogs) <= SafeMargin(r', cogs')
  {
  }

  lemma SafeMarginGrowsWithPrices(p: Projection, k: real, q: Projection)
    requires NonNegative(p) && k >= 1.0
    requires p.effective == 0.0 ==> p.infra == 0.0
    requires q == ScaleProjection(p, k)
    ensures p.effective <= q.effective
    ensures SafeMargin(p.effective, p.Cogs()) <= SafeMargin(q.effective, q.Cogs())
  {
    hide SafeMargin;
    MulAtLeast(k, p.effective);
    if p.effective > 0.0 {
      MarginGrowsWithPrices(p.effective, p.Cogs(), p.llm + p.support, p.infra, k, q.effective, q.Cogs());
      PositiveMargins(p.effective, p.Cogs(), q.effective, q.Cogs());
    } else {
      assert q.effective == p.effective && q.Cogs() == p.Cogs();
    }
  }

  lemma ProjectZeroRevenue(u: Unit, paid: real, subMult: real, priceMult: real)
    ensures var p := Project(u, paid, subMult, priceMult); p.effective == 0.0 ==> p.infra == 0.0
  {
  }

  /** No revenue, no infrastructure cost: revenue is a sum of terms that are not negative. */
  lemma {:induction false} NoRevenueNoInfra(b: Basis, sc: Scenario, n: nat)
    requires n <= |TRACKED| && BasisShape(b) && MultipliersParse(sc)
    ensures NonNegative(Projected(b, sc, n))
    ensures Projected(b, sc, n).effective == 0.0 ==> Projected(b, sc, n).infra == 0.0
  {
    hide Project;
    if n > 0 {
      NoRevenueNoInfra(b, sc, n - 1);
      var tier := TRACKED[n - 1];
      ProjectNonNegative(b.units[tier], b.paid[tier], sc.subscriptionMult[tier], sc.priceMult[tier]);
      ProjectZeroRevenue(b.units[tier], b.paid[tier], sc.subscriptionMult[tier], sc.priceMult[tier]);
    }
  }

  /** Scaling every price of a scenario by the same k >= 1 lowers neither reported number. */
  lemma UniformPriceRise(b: Basis, sc: Scenario, k: real)
    requires BasisShape(b) && MultipliersParse(sc) && k >= 1.0
    ensures MultipliersParse(ScalePrices(sc, k))
    ensures ScenarioReport(b, sc).effective <= ScenarioReport(b, ScalePrices(sc, k)).effective
    ensures ScenarioReport(b, sc).margin <= ScenarioReport(b, ScalePrices(sc, k)).margin
  {
    hide Project, Projected, SafeMargin, Round;
    ScaledMultipliersParse(sc, k);
    var p := Projected(b, sc, |TRACKED|);
    var q := Projected(b, ScalePrices(sc, k), |TRACKED|);
    ProjectedScales(b, sc, k, |TRACKED|);
    NoRevenueNoInfra(b, sc, |TRACKED|);
    SafeMarginGrowsWithPrices(p, k, q);
    RoundMonotone(p.effective, q.effective, PLACES2);
    RoundMonotone(SafeMargin(p.effective, p.Cogs()), SafeMargin(q.effective, q.Cogs()), PLACES2);
  }
}
