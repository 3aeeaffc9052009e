/** The fixture of the repository (src/services/eval/fixtures/real_finance_salesforce_fy26_q1/golden.v1.json), put
    through the fixture check and the score. */
module Shipped {
  import opened Prelude
  import opened Json
  import opened Finance

  const METRICS: seq<Metric> := [
    Metric("q1_revenue_growth_pct", 7.620716, 0.01, 2, true, {"10Q.IS.4"}),
    Metric("q1_gaap_operating_margin_pct", 19.757859, 0.01, 2, true, {"10Q.IS.4"}),
    Metric("q1_prior_gaap_operating_margin_pct", 18.712362, 0.01, 2, false, {"10Q.IS.4"}),
    Metric("q1_gaap_margin_expansion_bps", 104.549763, 1.0, 2, true, {"10Q.IS.4"}),
    Metric("q1_non_gaap_operating_margin_pct", 32.271849, 0.01, 2, true, {"EX99.NONGAAP.OP"}),
    Metric("q1_non_gaap_margin_expansion_bps", 21.228439, 1.0, 2, true, {"EX99.NONGAAP.OP"}),
    Metric("q1_non_gaap_addbacks_usd_m", 1230.0, 0.0, 2, true, {"EX99.NONGAAP.OP"}),
    Metric("q1_addbacks_pct_gaap_operating_income", 63.336766, 0.05, 2, true, {"EX99.NONGAAP.OP"}),
    Metric("q1_fcf_usd_m", 6297.0, 0.0, 2, true, {"10Q.CF.7", "EX99.NONGAAP.FCF"}),
    Metric("q1_fcf_growth_pct", 3.500986, 0.01, 2, true, {"10Q.CF.7", "EX99.NONGAAP.FCF"}),
    Metric("q1_cfo_to_net_income_x", 4.202466, 0.01, 2, true, {"10Q.CF.7"}),
    Metric("q1_disclosed_working_capital_cash_benefit_usd_m", 2670.0, 0.0, 2, true, {"10Q.CF.7"}),
    Metric("q1_working_capital_share_of_cfo_net_income_gap_pct", 54.103343, 0.1, 2, true, {"10Q.CF.7"}),
    Metric("q1_current_ratio_x", 1.06902, 0.005, 2, false, {"10Q.BS.3"}),
    Metric("q1_quick_ratio_x", 0.899405, 0.005, 2, true, {"10Q.BS.3"}),
    Metric("q1_net_cash_including_marketable_usd_m", 8973.0, 0.0, 2, true, {"10Q.BS.3"}),
    Metric("q1_cash_only_minus_debt_usd_m", 2493.0, 0.0, 2, true, {"10Q.BS.3"}),
    Metric("q1_interest_coverage_x", 28.558824, 0.05, 2, true, {"10Q.IS.4", "10Q.DEBT.26"}),
    Metric("fy25_fcf_usd_m", 12434.0, 0.0, 2, true, {"10K.CF.63"}),
    Metric("fy25_fcf_growth_pct", 30.911771, 0.02, 2, false, {"10K.CF.63"}),
    Metric("fy25_cfo_to_net_income_x", 2.112635, 0.01, 2, false, {"10K.IS.60", "10K.CF.63"}),
    Metric("fy24_cfo_to_net_income_x", 2.474371, 0.01, 2, false, {"10K.IS.60", "10K.CF.63"}),
    Metric("mechanical_q1_annualized_fcf_usd_m", 25188.0, 0.0, 2, true, {"EX99.NONGAAP.FCF", "PERIOD.10Q.2"}),
    Metric("q1_net_cash_increase_from_fy25_usd_m", 3374.0, 0.0, 2, false, {"10Q.BS.3", "10K.BS.59"}),
    Metric("q1_quick_ratio_change_from_fy25_x", -0.029008, 0.005, 2, false, {"10Q.BS.3", "10K.BS.59"})
  ]

  const CONCLUSIONS: seq<Requirement> := [
    Requirement("misleading_statement_verdict", Str("reject"), 7, 55.0),
    Requirement("cash_quality_assessment", Str("mixed_seasonality_distorted"), 5, 65.0),
    Requirement("gaap_non_gaap_leverage_assessment", Str("gaap_expansion_much_larger"), 5, 65.0),
    Requirement("non_gaap_classification", Str("supplemental_not_gaap"), 4, 60.0),
    Requirement("net_cash_definition", Str("cash_plus_marketable_securities_minus_debt"), 2, 80.0),
    Requirement("interest_basis", Str("expense_not_cash_paid"), 2, 80.0)
  ]

  const ALLOWED: set<string> := {
    "PERIOD.10Q.1", "PERIOD.10Q.2", "PERIOD.10K.1", "10K.BS.59", "10K.IS.60", "10K.CF.63", "10K.MDA.49",
    "10Q.BS.3", "10Q.IS.4", "10Q.CF.7", "10Q.DEBT.26", "10Q.MDA.36", "EX99.NONGAAP.OP", "EX99.NONGAAP.FCF"
  }

  /** The fixture, for a source packet of any digest. */
  function Fixture(packet: string): Golden { Golden(INPUTS, METRICS, CONCLUSIONS, ALLOWED, 92.0, packet) }

  lemma Sums()
    ensures Sum(INPUTS.q1.addbacks) == 1230.0 && Sum(INPUTS.q1.workingCapital) == 2670.0
  {
    var a, w := INPUTS.q1.addbacks, INPUTS.q1.workingCapital;
    assert a[..2][..1] == a[..1] && a[..1][..0] == [];
    assert w[..5][..4] == w[..4] && w[..4][..3] == w[..3] && w[..3][..2] == w[..2] && w[..2][..1] == w[..1];
    assert w[..1][..0] == [];
    assert Sum(w[..1]) == 7591.0 && Sum(w[..2]) == 7226.0 && Sum(w[..3]) == 6745.0 && Sum(w[..4]) == 5738.0;
  }

  lemma Checked0()
    requires Divisible(INPUTS)
    ensures forall k :: 0 <= k < 2 ==> MetricChecked(INPUTS, METRICS[k])
  {
    assert MetricChecked(INPUTS, METRICS[0]);
    assert MetricChecked(INPUTS, METRICS[1]);
  }

  lemma Checked2()
    requires Divisible(INPUTS)
    ensures forall k :: 2 <= k < 3 ==> MetricChecked(INPUTS, METRICS[k])
  {
    assert MetricChecked(INPUTS, METRICS[2]);
  }

  lemma Checked3()
    requires Divisible(INPUTS)
    ensures forall k :: 3 <= k < 4 ==> MetricChecked(INPUTS, METRICS[k])
  {
    assert MetricChecked(INPUTS, METRICS[3]);
  }

  lemma Checked4()
    requires Divisible(INPUTS)
    ensures forall k :: 4 <= k < 5 ==> MetricChecked(INPUTS, METRICS[k])
  {
    assert MetricChecked(INPUTS, METRICS[4]);
  }

  lemma Checked5()
    requires Divisible(INPUTS)
    ensures forall k :: 5 <= k < 6 ==> MetricChecked(INPUTS, METRICS[k])
  {
    assert MetricChecked(INPUTS, METRICS[5]);
  }

  lemma Checked6()
    requires Divisible(INPUTS)
    ensures forall k :: 6 <= k < 7 ==> MetricChecked(INPUTS, METRICS[k])
  {
    Sums();
    assert MetricChecked(INPUTS, METRICS[6]);
  }

  lemma Checked7()
    requires Divisible(INPUTS)
    ensures forall k :: 7 <= k < 8 ==> MetricChecked(INPUTS, METRICS[k])
  {
    Sums();
    assert MetricChecked(INPUTS, METRICS[7]);
  }

  lemma Checked8()
    requires Divisible(INPUTS)
    ensures forall k :: 8 <= k < 9 ==> MetricChecked(INPUTS, METRICS[k])
  {
    assert MetricChecked(INPUTS, METRICS[8]);
  }

  lemma Checked9()
    requires Divisible(INPUTS)
    ensures forall k :: 9 <= k < 10 ==> MetricChecked(INPUTS, METRICS[k])
  {
    assert MetricChecked(INPUTS, METRICS[9]);
  }

  lemma Checked10()
    requires Divisible(INPUTS)
    ensures forall k :: 10 <= k < 11 ==> MetricChecked(INPUTS, METRICS[k])
  {
    assert MetricChecked(INPUTS, METRICS[10]);
  }

  lemma Checked11()
    requires Divisible(INPUTS)
    ensures forall k :: 11 <= k < 12 ==> MetricChecked(INPUTS, METRICS[k])
  {
    Sums();
    assert MetricChecked(INPUTS, METRICS[11]);
  }

  lemma Checked12()
    requires Divisible(INPUTS)
    ensures forall k :: 12 <= k < 14 ==> MetricChecked(INPUTS, METRICS[k])
  {
    Sums();
    assert MetricChecked(INPUTS, METRICS[12]);
    assert MetricChecked(INPUTS, METRICS[13]);
  }

  lemma Checked14()
    requires Divisible(INPUTS)
    ensures forall k :: 14 <= k < 16 ==> MetricChecked(INPUTS, METRICS[k])
  {
    assert MetricChecked(INPUTS, METRICS[14]);
    assert MetricChecked(INPUTS, METRICS[15]);
  }

  lemma Checked16()
    requires Divisible(INPUTS)
    ensures forall k :: 16 <= k < 18 ==> MetricChecked(INPUTS, METRICS[k])
  {
    assert MetricChecked(INPUTS, METRICS[16]);
    assert MetricChecked(INPUTS, METRICS[17]);
  }

  lemma Checked18()
    requires Divisible(INPUTS)
    ensures forall k :: 18 <= k < 20 ==> MetricChecked(INPUTS, METRICS[k])
  {
    assert MetricChecked(INPUTS, METRICS[18]);
    assert MetricChecked(INPUTS, METRICS[19]);
  }

  lemma Checked20()
    requires Divisible(INPUTS)
    ensures forall k :: 20 <= k < 22 ==> MetricChecked(INPUTS, METRICS[k])
  {
    assert MetricChecked(INPUTS, METRICS[20]);
    assert MetricChecked(INPUTS, METRICS[21]);
  }

  lemma Checked22()
    requires Divisible(INPUTS)
    ensures forall k :: 22 <= k < 25 ==> MetricChecked(INPUTS, METRICS[k])
  {
    assert MetricChecked(INPUTS, METRICS[22]);
    assert MetricChecked(INPUTS, METRICS[23]);
    assert MetricChecked(INPUTS, METRICS[24]);
  }

  lemma AllChecked()
    ensures Divisible(INPUTS)
    ensures forall k :: 0 <= k < |METRICS| ==> MetricChecked(INPUTS, METRICS[k])
  {
    Checked0();
    Checked2();
    Checked3();
    Checked4();
    Checked5();
    Checked6();
    Checked7();
    Checked8();
    Checked9();
    Checked10();
    Checked11();
    Checked12();
    Checked14();
    Checked16();
    Checked18();
    Checked20();
    Checked22();
  }

  /** Metrics of two points each. */
  lemma {:induction false} TwoEach(metrics: seq<Metric>)
    requires forall k :: 0 <= k < |metrics| ==> metrics[k].points == 2
    ensures MetricPoints(metrics) == 2 * |metrics|
  {
    if metrics != [] { TwoEach(metrics[..|metrics| - 1]); }
  }

  lemma ConclusionSum()
    ensures ConclusionPoints(CONCLUSIONS) == 25
  {
    var c := CONCLUSIONS;
    assert c[..5][..4] == c[..4] && c[..4][..3] == c[..3] && c[..3][..2] == c[..2] && c[..2][..1] == c[..1];
    assert c[..1][..0] == [];
    assert ConclusionPoints(c[..1]) == 7 && ConclusionPoints(c[..2]) == 12 && ConclusionPoints(c[..3]) == 17;
    assert ConclusionPoints(c[..4]) == 21 && ConclusionPoints(c[..5]) == 23;
  }

  lemma Accepted(packet: string)
    ensures FixtureAccepted(Fixture(packet))
  {
    AllChecked();
    TwoEach(METRICS);
    ConclusionSum();
  }

  lemma Positive(packet: string)
    ensures PositivePoints(Fixture(packet)) && NothingNegative(Fixture(packet))
  {
    TwoEach(METRICS);
    ConclusionSum();
  }

  /** On fixtures like it scores mean what they should. */
  lemma ScoresMean(g: Golden, run: Run)
    requires PositivePoints(g) && NothingNegative(g)
    ensures 0.0 <= Score(run, g) <= 100.0 && (Score(run, g) == 100.0 <==> Flawless(run, g))
  {
    NeverBelow(run, g);
    FullScoreExact(run, g);
  }

  /** The fixture passes its own check, formula by formula, and is one of those on which scores mean what they should:
      every score lies between 0 and 100, and is 100 exactly for a run without failures. */
  lemma FixtureSound(packet: string, run: Run)
    ensures FixtureAccepted(Fixture(packet))
    ensures 0.0 <= Score(run, Fixture(packet)) <= 100.0
    ensures Score(run, Fixture(packet)) == 100.0 <==> Flawless(run, Fixture(packet))
  {
    Accepted(packet);
    Positive(packet);
    ScoresMean(Fixture(packet), run);
  }
}
