/** The local churn predictor of generatePrediction: a score built from
    fixed additive and subtractive weights over the form's fields, clamped
    to [0, 100], a churn verdict above 50 and a confidence derived from
    the score. */
module ChurnScore {
  import opened Wrappers
  import opened JsNumbers
  import opened FormData
  import opened Advice

  /** The object generatePrediction returns. */
  datatype Prediction = Prediction(isChurn: bool, confidence: int, churnScore: int, recommendations: seq<Tip>)

  // ----- One weight per rule; each group contributes exactly one of them -----

  function SeniorWeight(data: Dict): (w: int)
    ensures 0 <= w <= 15
  {
    if Is(data, "SeniorCitizen", "1") then 15 else 0
  }

  function ContractWeight(data: Dict): (w: int)
    ensures 0 <= w <= 30
  {
    if Is(data, "Contract", "Month-to-month") then 30
    else if Is(data, "Contract", "One year") then 10
    else 0
  }

  function InternetWeight(data: Dict): (w: int)
    ensures 0 <= w <= 20
  {
    if Is(data, "InternetService", "Fiber optic") then 20 else 0
  }

  function SecurityWeight(data: Dict): (w: int)
    ensures 0 <= w <= 10
  {
    if Is(data, "OnlineSecurity", "No") then 10 else 0
  }

  function TechSupportWeight(data: Dict): (w: int)
    ensures 0 <= w <= 10
  {
    if Is(data, "TechSupport", "No") then 10 else 0
  }

  function PaperlessWeight(data: Dict): (w: int)
    ensures 0 <= w <= 5
  {
    if Is(data, "PaperlessBilling", "Yes") then 5 else 0
  }

  function PaymentWeight(data: Dict): (w: int)
    ensures 0 <= w <= 20
  {
    if Is(data, "PaymentMethod", "Electronic check") then 20 else 0
  }

  /** parseInt(data.tenure); None stands for NaN. */
  function Tenure(data: Dict): Option<int> {
    ParseInt(AsString(Get(data, "tenure")))
  }

  /** parseFloat(data.MonthlyCharges). */
  function MonthlyCharges(data: Dict): Number {
    ParseFloat(AsString(Get(data, "MonthlyCharges")))
  }

  /** Every comparison with NaN is false, so an unparseable tenure falls
      through all three bands. */
  function TenureWeight(tenure: Option<int>): (w: int)
    ensures -15 <= w <= 25
  {
    match tenure
    case None => 0
    case Some(t) => if t < 12 then 25 else if t < 24 then 15 else if t > 48 then -15 else 0
  }

  function ChargesWeight(charges: Number): (w: int)
    ensures -10 <= w <= 15
  {
    if GreaterThan(charges, 80.0) then 15
    else if LessThan(charges, 30.0) then -10
    else 0
  }

  function PartnerWeight(data: Dict): (w: int)
    ensures -10 <= w <= 0
  {
    if Is(data, "Partner", "Yes") then -10 else 0
  }

  function DependentsWeight(data: Dict): (w: int)
    ensures -15 <= w <= 0
  {
    if Is(data, "Dependents", "Yes") then -15 else 0
  }

  /** The points of the yes/no and categorical fields: age, contract,
      services and billing. */
  function ProfilePoints(data: Dict): (points: int)
    ensures 0 <= points <= 110
  {
    SeniorWeight(data) + ContractWeight(data) + InternetWeight(data)
    + SecurityWeight(data) + TechSupportWeight(data)
    + PaperlessWeight(data) + PaymentWeight(data)
  }

  /** The points of the numeric and family fields: tenure, monthly charges,
      partner and dependents. */
  function UsagePoints(data: Dict): (points: int)
    ensures -50 <= points <= 40
  {
    TenureWeight(Tenure(data)) + ChargesWeight(MonthlyCharges(data))
    + PartnerWeight(data) + DependentsWeight(data)
  }

  /** The score before it is capped: the sum of every rule's weight. */
  function RawScore(data: Dict): (score: int)
    ensures -50 <= score <= 150
  {
    ProfilePoints(data) + UsagePoints(data)
  }

  function Min(a: int, b: int): int { if a <= b then a else b }
  function Max(a: int, b: int): int { if a >= b then a else b }

  /** Math.max(0, Math.min(100, score)). */
  function Clamp(score: int): (capped: int)
    ensures 0 <= capped <= 100
    ensures 0 <= score <= 100 ==> capped == score
  {
    Max(0, Min(100, score))
  }

  /** The score a form's entries receive. */
  function Score(entries: seq<Entry>): int {
    Clamp(RawScore(Assigned(entries)))
  }

  // ----- The computation as the source performs it -----

  /** The age, contract, service and billing rules of generatePrediction,
      each adding its points to the running score. */
  method AddProfileFactors(data: Dict, score: int) returns (churnScore: int)
    ensures churnScore == score + ProfilePoints(data)
  {
    churnScore := score;
    if Is(data, "SeniorCitizen", "1") { churnScore := churnScore + 15; }
    ghost var added := SeniorWeight(data);
    assert churnScore == score + added;

    if Is(data, "Contract", "Month-to-month") { churnScore := churnScore + 30; }
    else if Is(data, "Contract", "One year") { churnScore := churnScore + 10; }
    added := added + ContractWeight(data);
    assert churnScore == score + added;

    if Is(data, "InternetService", "Fiber optic") { churnScore := churnScore + 20; }
    added := added + InternetWeight(data);
    assert churnScore == score + added;
    if Is(data, "OnlineSecurity", "No") { churnScore := churnScore + 10; }
    added := added + SecurityWeight(data);
    assert churnScore == score + added;
    if Is(data, "TechSupport", "No") { churnScore := churnScore + 10; }
    added := added + TechSupportWeight(data);
    assert churnScore == score + added;

    if Is(data, "PaperlessBilling", "Yes") { churnScore := churnScore + 5; }
    added := added + PaperlessWeight(data);
    assert churnScore == score + added;
    if Is(data, "PaymentMethod", "Electronic check") { churnScore := churnScore + 20; }
  }

  /** The tenure, monthly-charges and family rules of generatePrediction:
      tenure goes through parseInt and the charges through parseFloat, and
      a NaN from either fails every comparison. */
  method AddUsageFactors(data: Dict, score: int) returns (churnScore: int)
    ensures churnScore == score + UsagePoints(data)
  {
    churnScore := score;
    var tenure := ParseInt(AsString(Get(data, "tenure")));
    if tenure.Some? && tenure.value < 12 { churnScore := churnScore + 25; }
    else if tenure.Some? && tenure.value < 24 { churnScore := churnScore + 15; }
    else if tenure.Some? && tenure.value > 48 { churnScore := churnScore - 15; }
    ghost var added := TenureWeight(Tenure(data));
    assert churnScore == score + added;

    var monthlyCharges := ParseFloat(AsString(Get(data, "MonthlyCharges")));
    if GreaterThan(monthlyCharges, 80.0) { churnScore := churnScore + 15; }
    else if LessThan(monthlyCharges, 30.0) { churnScore := churnScore - 10; }
    added := added + ChargesWeight(MonthlyCharges(data));
    assert churnScore == score + added;

    if Is(data, "Partner", "Yes") { churnScore := churnScore - 10; }
    added := added + PartnerWeight(data);
    assert churnScore == score + added;
    if Is(data, "Dependents", "Yes") { churnScore := churnScore - 15; }
  }

  /** generatePrediction: copies the entries into an object, runs every
      rule on a score that starts at 0, caps it, derives the verdict and
      the confidence, and asks for the recommendations. */
  method GeneratePrediction(entries: seq<Entry>) returns (p: Prediction)
    ensures p.churnScore == Score(entries)
    ensures 0 <= p.churnScore <= 100
    ensures p.isChurn <==> p.churnScore > 50
    ensures p.isChurn <==> RawScore(Assigned(entries)) > 50
    ensures p.confidence == if p.isChurn then p.churnScore else 100 - p.churnScore
    ensures 50 <= p.confidence <= 100
    ensures p.recommendations == Recommendations(Assigned(entries), p.isChurn)
  {
    var data := CollectEntries(entries);

    var churnScore := 0;
    churnScore := AddProfileFactors(data, churnScore);
    churnScore := AddUsageFactors(data, churnScore);
    assert churnScore == RawScore(data);
    churnScore := Max(0, Min(100, churnScore));

    var isChurn := churnScore > 50;
    var confidence := if isChurn then churnScore else 100 - churnScore;
    var recommendations := GenerateRecommendations(data, isChurn);
    ClampKeepsVerdict(RawScore(data));
    ConfidenceAtLeastHalf(churnScore);
    p := Prediction(isChurn, confidence, churnScore, recommendations);
  }

  // ----- What the rules promise -----

  /** The contract group adds +30, +10 or nothing, by contract type. */
  lemma ContractBands(data: Dict)
    ensures ContractWeight(data) == 30 <==> Is(data, "Contract", "Month-to-month")
    ensures ContractWeight(data) == 10 <==> Is(data, "Contract", "One year")
    ensures ContractWeight(data) == 0 <==> !Is(data, "Contract", "Month-to-month") && !Is(data, "Contract", "One year")
  {
  }

  /** The tenure group adds +25 below 12 months, +15 from 12 up to 24,
      -15 above 48 and nothing otherwise, NaN included. */
  lemma TenureBands(tenure: Option<int>)
    ensures TenureWeight(tenure) == 25 <==> tenure.Some? && tenure.value < 12
    ensures TenureWeight(tenure) == 15 <==> tenure.Some? && 12 <= tenure.value < 24
    ensures TenureWeight(tenure) == -15 <==> tenure.Some? && tenure.value > 48
    ensures TenureWeight(tenure) == 0 <==> tenure.None? || 24 <= tenure.value <= 48
  {
  }

  /** The charges group adds +15 above 80, -10 below 30 and nothing
      otherwise: NaN and every charge in [30, 80] add nothing. */
  lemma ChargesBands(charges: Number)
    ensures ChargesWeight(charges) == 15 <==> charges.PosInfinity? || (charges.Finite? && charges.value > 80.0)
    ensures ChargesWeight(charges) == -10 <==> charges.NegInfinity? || (charges.Finite? && charges.value < 30.0)
    ensures ChargesWeight(charges) == 0 <==> charges.NaN? || (charges.Finite? && 30.0 <= charges.value <= 80.0)
  {
  }

  /** A tenure typed as the numeral of an integer lands in the band of that
      integer: parseInt reads the numeral back exactly. */
  lemma TenureNumeralBand(data: Dict, t: int)
    requires Get(data, "tenure") == Some(DecimalString(t))
    ensures Tenure(data) == Some(t)
    ensures TenureWeight(Tenure(data)) == if t < 12 then 25 else if t < 24 then 15 else if t > 48 then -15 else 0
  {
    assert DecimalString(t) + [] == DecimalString(t);
    ParseIntDecimal(t, []);
  }

  /** Monthly charges typed as the numeral of an integer land in the band
      of that integer: parseFloat reads the numeral back exactly. */
  lemma ChargesNumeralBand(data: Dict, c: int)
    requires Get(data, "MonthlyCharges") == Some(DecimalString(c))
    ensures MonthlyCharges(data) == Finite(c as real)
    ensures ChargesWeight(MonthlyCharges(data)) == if c > 80 then 15 else if c < 30 then -10 else 0
  {
    ParseFloatDecimal(c);
  }

  /** A form without a tenure or without monthly charges reads the text
      "undefined", which both parsers turn into NaN, so that rule adds
      nothing. */
  lemma MissingNumbersAddNothing(data: Dict)
    ensures "tenure" !in data ==> Tenure(data).None? && TenureWeight(Tenure(data)) == 0
    ensures "MonthlyCharges" !in data ==> MonthlyCharges(data).NaN? && ChargesWeight(MonthlyCharges(data)) == 0
  {
  }

  /** Every rule is at its highest: senior, month-to-month, fibre, no
      security, no tech support, paperless, electronic check, tenure under
      12 months, charges above 80, neither partner nor dependents. */
  predicate AllRiskFactors(data: Dict) {
    && Is(data, "SeniorCitizen", "1") && Is(data, "Contract", "Month-to-month")
    && Is(data, "InternetService", "Fiber optic") && Is(data, "OnlineSecurity", "No")
    && Is(data, "TechSupport", "No") && Is(data, "PaperlessBilling", "Yes")
    && Is(data, "PaymentMethod", "Electronic check")
    && TenureWeight(Tenure(data)) == 25 && ChargesWeight(MonthlyCharges(data)) == 15
    && !Is(data, "Partner", "Yes") && !Is(data, "Dependents", "Yes")
  }

  /** Every rule is at its lowest: tenure above 48 months, charges below 30,
      a partner and dependents, and none of the risk factors. */
  predicate AllRetentionFactors(data: Dict) {
    && !Is(data, "SeniorCitizen", "1") && !Is(data, "Contract", "Month-to-month")
    && !Is(data, "Contract", "One year")
    && !Is(data, "InternetService", "Fiber optic") && !Is(data, "OnlineSecurity", "No")
    && !Is(data, "TechSupport", "No") && !Is(data, "PaperlessBilling", "Yes")
    && !Is(data, "PaymentMethod", "Electronic check")
    && TenureWeight(Tenure(data)) == -15 && ChargesWeight(MonthlyCharges(data)) == -10
    && Is(data, "Partner", "Yes") && Is(data, "Dependents", "Yes")
  }

  /** The raw score reaches 150, the top of [-50, 150], exactly when every
      risk factor is present, and -50, the bottom, exactly when every
      retention factor is. */
  lemma RawScoreExtremes(data: Dict)
    ensures RawScore(data) == 150 <==> AllRiskFactors(data)
    ensures RawScore(data) == -50 <==> AllRetentionFactors(data)
  {
  }

  /** A senior on a monthly contract with fiber, no security, no tech
      support, paperless billing by electronic check, a tenure of 0 and
      charges of 100, and neither partner nor dependents. */
  function RiskiestForm(): Dict {
    map[
      "SeniorCitizen" := "1", "Contract" := "Month-to-month",
      "InternetService" := "Fiber optic", "OnlineSecurity" := "No",
      "TechSupport" := "No", "PaperlessBilling" := "Yes",
      "PaymentMethod" := "Electronic check",
      "tenure" := DecimalString(0), "MonthlyCharges" := DecimalString(100)]
  }

  /** A two-year contract with DSL, security and tech support, mailed paper
      bills, a tenure of 60, charges of 20, and both a partner and
      dependents. */
  function SafestForm(): Dict {
    map[
      "SeniorCitizen" := "0", "Contract" := "Two year",
      "InternetService" := "DSL", "OnlineSecurity" := "Yes",
      "TechSupport" := "Yes", "PaperlessBilling" := "No",
      "PaymentMethod" := "Mailed check", "Partner" := "Yes",
      "Dependents" := "Yes",
      "tenure" := DecimalString(60), "MonthlyCharges" := DecimalString(20)]
  }

  /** The riskiest form scores the top of [-50, 150], so the cap to 100
      is reached from above. */
  lemma RiskiestFormScore()
    ensures RawScore(RiskiestForm()) == 150
  {
    var data := RiskiestForm();
    assert SeniorWeight(data) == 15 && ContractWeight(data) == 30;
    assert InternetWeight(data) == 20 && SecurityWeight(data) == 10;
    assert TechSupportWeight(data) == 10 && PaperlessWeight(data) == 5;
    assert PaymentWeight(data) == 20;
    assert PartnerWeight(data) == 0 && DependentsWeight(data) == 0;
    TenureNumeralBand(data, 0);
    ChargesNumeralBand(data, 100);
  }

  /** The safest form scores the bottom of [-50, 150], so the cap to 0 is
      reached from below. */
  lemma SafestFormScore()
    ensures RawScore(SafestForm()) == -50
  {
    var data := SafestForm();
    assert SeniorWeight(data) == 0 && ContractWeight(data) == 0;
    assert InternetWeight(data) == 0 && SecurityWeight(data) == 0;
    assert TechSupportWeight(data) == 0 && PaperlessWeight(data) == 0;
    assert PaymentWeight(data) == 0;
    assert PartnerWeight(data) == -10 && DependentsWeight(data) == -15;
    TenureNumeralBand(data, 60);
    ChargesNumeralBand(data, 20);
  }

  /** Both ends of [-50, 150] are reached by some form. */
  lemma ExtremesReachable()
    ensures exists data: Dict :: RawScore(data) == 150
    ensures exists data: Dict :: RawScore(data) == -50
  {
    RiskiestFormScore();
    SafestFormScore();
  }

  /** Capping sends anything below the range to 0 and anything above it
      to 100. */
  lemma ClampProperties(score: int)
    ensures score < 0 ==> Clamp(score) == 0
    ensures score > 100 ==> Clamp(score) == 100
  {
  }

  /** Capping never changes the verdict: the capped score is above 50
      exactly when the raw one is. */
  lemma ClampKeepsVerdict(score: int)
    ensures Clamp(score) > 50 <==> score > 50
  {
  }

  /** The confidence is the score for a churn verdict and 100 minus the
      score otherwise, so it never drops below 50. */
  lemma ConfidenceAtLeastHalf(score: int)
    requires 0 <= score <= 100
    ensures var confidence := if score > 50 then score else 100 - score;
            50 <= confidence <= 100
  {
  }
}
