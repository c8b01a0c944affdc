/** The indemnification calculator (`CalculadorIndemnizacion`): crossed gross
    payments from the liability percentages, damages and coverage factors, a
    deductible from the receiving party's policy, a net amount clamped at
    zero, and the figures rounded to cents only when the result is built. */
module Calculator {
  import opened Common
  import opened Rounding
  import opened Liability

  const Currency := "COP"

  /** `poliza_info`: `tipo_cobertura`, `deducible_porcentaje`, `deducible_minimo`. */
  datatype Policy = Policy(
    coverageType: Option<string>,
    deductiblePct: Option<real>,
    deductibleMin: Option<real>)

  /** The `monto` of `danos.vehiculo_a` and of `danos.vehiculo_b`. */
  datatype Damages = Damages(amountA: Option<real>, amountB: Option<real>)

  /** One entry of `indemnizaciones`. */
  datatype Payment = Payment(
    payer: Responsible,
    payee: Responsible,
    gross: real,
    deductible: real,
    net: real,
    currency: string,
    coverageFactor: real)

  /** `resumen`. */
  datatype Summary = Summary(totalDamageA: real, totalDamageB: real, pctA: int, pctB: int)

  /** The result: the payment A makes to B, the one B makes to A, and the summary. */
  datatype Indemnification = Indemnification(aToB: Payment, bToA: Payment, summary: Summary)

  /** `_calcular_factor_cobertura`: the tier's factor; a missing tier is "basica". */
  function CoverageFactor(policy: Policy): (f: real)
    ensures 0.7 <= f <= 1.0
    ensures var tier := policy.coverageType.GetOr("basica");
      (f == 1.0 <==> tier == "premium") &&
      (f == 0.9 <==> tier == "estandar") &&
      (f == 0.8 <==> tier == "basica") &&
      (f == 0.7 <==> tier !in {"premium", "estandar", "basica"})
  {
    var tier := policy.coverageType.GetOr("basica");
    if tier == "premium" then 1.0
    else if tier == "estandar" then 0.9
    else if tier == "basica" then 0.8
    else 0.7
  }

  function DeductiblePct(policy: Policy): real {
    policy.deductiblePct.GetOr(0.0)
  }

  function DeductibleMin(policy: Policy): real {
    policy.deductibleMin.GetOr(0.0)
  }

  /** `_calcular_deducible`: the larger of the percentage of the amount and
      the minimum, both defaulting to 0. */
  function Deductible(policy: Policy, amount: real): (d: real)
    ensures d >= DeductibleMin(policy)
    ensures d >= amount * (DeductiblePct(policy) / 100.0)
    ensures d == DeductibleMin(policy) || d == amount * (DeductiblePct(policy) / 100.0)
  {
    var computed := amount * (DeductiblePct(policy) / 100.0);
    if computed >= DeductibleMin(policy) then computed else DeductibleMin(policy)
  }

  /** The gross payment: the payer's share of the payee's damage, scaled by
      the payer's coverage factor. */
  function GrossPayment(pct: int, damage: real, factor: real): real {
    (pct as real / 100.0) * damage * factor
  }

  /** The net amount: gross minus deductible, never below zero. */
  function NetAmount(gross: real, deductible: real): (n: real)
    ensures n >= 0.0
    ensures n >= gross - deductible
    ensures n == 0.0 || n == gross - deductible
    ensures gross >= 0.0 && deductible >= 0.0 ==> n <= gross
  {
    if gross - deductible > 0.0 then gross - deductible else 0.0
  }

  /** One payment: the payer's share `pct` of the payee's `damage` under the
      payer's coverage `factor`, less the deductible of the payee's policy,
      every amount rounded to cents only in the record. */
  function Settle(payer: Responsible, payee: Responsible, pct: int, damage: real, factor: real, payeePolicy: Policy)
    : (p: Payment)
    ensures p.payer == payer && p.payee == payee && p.currency == Currency && p.coverageFactor == factor
    ensures var gross := GrossPayment(pct, damage, factor);
      && p.gross == RoundCents(gross)
      && p.deductible == RoundCents(Deductible(payeePolicy, gross))
      && p.net == RoundCents(NetAmount(gross, Deductible(payeePolicy, gross)))
    // money never flows backwards
    ensures p.net >= 0.0
    // a party with no share pays nothing
    ensures pct == 0 ==> p.gross == 0.0 && p.net == 0.0
  {
    var gross := GrossPayment(pct, damage, factor);
    var deductible := Deductible(payeePolicy, gross);
    var net := NetAmount(gross, deductible);
    RoundCentsNonNegative(net);
    RoundCentsOfCents(0);
    Payment(payer, payee, RoundCents(gross), RoundCents(deductible), RoundCents(net), Currency, factor)
  }

  /** `calcular_indemnizacion`. Missing percentages and damages count as 0. */
  function Calculate(percentages: Option<Distribution>, policyA: Policy, policyB: Policy, damages: Damages)
    : (r: Indemnification)
    // the payments are crossed: A pays its share of B's damage under A's
    // coverage, with B's policy supplying the deductible, and vice versa
    ensures var d := percentages.GetOr(Distribution(0, 0));
      && r.aToB == Settle(VehicleA, VehicleB, d.pctA, damages.amountB.GetOr(0.0), CoverageFactor(policyA), policyB)
      && r.bToA == Settle(VehicleB, VehicleA, d.pctB, damages.amountA.GetOr(0.0), CoverageFactor(policyB), policyA)
      // the summary echoes the inputs
      && r.summary == Summary(RoundCents(damages.amountA.GetOr(0.0)), RoundCents(damages.amountB.GetOr(0.0)),
                              d.pctA, d.pctB)
    // money never flows backwards
    ensures r.aToB.net >= 0.0 && r.bToA.net >= 0.0
    // without percentages nothing is paid
    ensures percentages.None? ==>
      r.aToB.gross == 0.0 && r.aToB.net == 0.0 && r.bToA.gross == 0.0 && r.bToA.net == 0.0
  {
    var d := percentages.GetOr(Distribution(0, 0));
    var damageA := damages.amountA.GetOr(0.0);
    var damageB := damages.amountB.GetOr(0.0);
    Indemnification(
      Settle(VehicleA, VehicleB, d.pctA, damageB, CoverageFactor(policyA), policyB),
      Settle(VehicleB, VehicleA, d.pctB, damageA, CoverageFactor(policyB), policyA),
      Summary(RoundCents(damageA), RoundCents(damageB), d.pctA, d.pctB))
  }

  /** With a non-negative deductible the net payment never exceeds the gross
      one, also after both are rounded to cents. */
  lemma NetAtMostGross(gross: real, deductible: real)
    requires gross >= 0.0 && deductible >= 0.0
    ensures RoundCents(NetAmount(gross, deductible)) <= RoundCents(gross)
  {
    RoundCentsMonotone(NetAmount(gross, deductible), gross);
  }

  /** For non-negative shares, damages, factors and deductible percentages,
      the recorded net payment never exceeds the recorded gross one. */
  lemma SettleNetAtMostGross(payer: Responsible, payee: Responsible, pct: int, damage: real, factor: real,
                             payeePolicy: Policy)
    requires pct >= 0 && damage >= 0.0 && factor >= 0.0 && DeductiblePct(payeePolicy) >= 0.0
    ensures Settle(payer, payee, pct, damage, factor, payeePolicy).net
         <= Settle(payer, payee, pct, damage, factor, payeePolicy).gross
  {
    var share := pct as real / 100.0;
    assert share * damage >= 0.0;
    var gross := GrossPayment(pct, damage, factor);
    assert gross == (share * damage) * factor;
    assert gross >= 0.0;
    assert gross * (DeductiblePct(payeePolicy) / 100.0) >= 0.0;
    NetAtMostGross(gross, Deductible(payeePolicy, gross));
  }

  /** The calculator's worked case: A fully responsible, B's car damaged
      for 1,000,000, A on the standard tier, B's policy with a 10%
      deductible and a 50,000 minimum. */
  lemma WorkedExample()
    ensures var r := Calculate(Some(Distribution(100, 0)),
                               Policy(Some("estandar"), None, None),
                               Policy(None, Some(10.0), Some(50000.0)),
                               Damages(None, Some(1000000.0)));
      r.aToB.gross == 900000.0 && r.aToB.deductible == 90000.0 && r.aToB.net == 810000.0 &&
      r.aToB.coverageFactor == 0.9 && r.bToA.gross == 0.0 && r.bToA.net == 0.0
  {
    var policyA := Policy(Some("estandar"), None, None);
    var policyB := Policy(None, Some(10.0), Some(50000.0));
    var grossAB := GrossPayment(100, 1000000.0, CoverageFactor(policyA));
    assert grossAB == 900000.0;
    assert Deductible(policyB, grossAB) == 90000.0;
    assert NetAmount(grossAB, 90000.0) == 810000.0;
    RoundCentsOfCents(90000000);
    RoundCentsOfCents(9000000);
    RoundCentsOfCents(81000000);
    RoundCentsOfCents(0);
    assert Deductible(Policy(Some("estandar"), None, None), 0.0) == 0.0;
  }
}
