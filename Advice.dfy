/** generateRecommendations: the ordered advice shown under a prediction.
    A churn verdict gets two retention items and up to four targeted ones;
    a no-churn verdict gets three reassurance items and, for long-standing
    customers, a loyalty item. */
module Advice {
  import opened Wrappers
  import opened JsNumbers
  import opened FormData

  /** The ten pieces of advice the list can hold; Text gives the string
      the page shows for each. */
  datatype Tip =
    | LoyaltyDiscount | Outreach | LongerContract | SecurityOffer | FreeTechSupport | AutomaticPayment
    | StrongRetention | Upselling | MaintainQuality | LoyaltyRewards

  function Text(tip: Tip): string {
    match tip
    case LoyaltyDiscount => "Consider offering a loyalty discount or upgrade incentive"
    case Outreach => "Proactive customer service outreach recommended"
    case LongerContract => "Encourage longer-term contract with benefits"
    case SecurityOffer => "Offer security services to increase value"
    case FreeTechSupport => "Provide complimentary tech support"
    case AutomaticPayment => "Incentivize automatic payment methods"
    case StrongRetention => "Customer shows strong retention indicators"
    case Upselling => "Consider upselling additional services"
    case MaintainQuality => "Maintain current service quality"
    case LoyaltyRewards => "Eligible for loyalty rewards program"
  }

  /** The length of each tip's text; no two are equal. */
  function TextLength(tip: Tip): nat {
    match tip
    case LoyaltyDiscount => 57
    case Outreach => 47
    case LongerContract => 44
    case SecurityOffer => 41
    case FreeTechSupport => 34
    case AutomaticPayment => 37
    case StrongRetention => 42
    case Upselling => 38
    case MaintainQuality => 32
    case LoyaltyRewards => 36
  }

  lemma TextHasLength(tip: Tip)
    ensures |Text(tip)| == TextLength(tip)
  {
  }

  /** No two tips share a text (their lengths already differ), so the
      strings shown identify the tips. */
  lemma TextInjective(a: Tip, b: Tip)
    ensures Text(a) == Text(b) <==> a == b
  {
    if Text(a) == Text(b) {
      TextHasLength(a);
      TextHasLength(b);
      LengthsDiffer(a, b);
    }
  }

  lemma LengthsDiffer(a: Tip, b: Tip)
    ensures TextLength(a) == TextLength(b) ==> a == b
  {
  }

  /** Every item a churn verdict can produce, in the order they are added. */
  const ChurnItems: seq<Tip> := [LoyaltyDiscount, Outreach, LongerContract, SecurityOffer, FreeTechSupport, AutomaticPayment]

  /** The conditions under which each targeted churn item is added. */
  predicate WantsLongerContract(data: Dict) { Is(data, "Contract", "Month-to-month") }
  predicate WantsSecurity(data: Dict) { Is(data, "OnlineSecurity", "No") }
  predicate WantsTechSupport(data: Dict) { Is(data, "TechSupport", "No") }
  predicate WantsAutomaticPayment(data: Dict) { Is(data, "PaymentMethod", "Electronic check") }

  /** parseInt(data.tenure) > 36; false when the tenure is NaN. */
  predicate LongTenure(data: Dict) {
    var t := ParseInt(AsString(Get(data, "tenure")));
    t.Some? && t.value > 36
  }

  function When(condition: bool, tip: Tip): seq<Tip> {
    if condition then [tip] else []
  }

  /** The list, as a value: fixed items followed by the conditional ones. */
  function Recommendations(data: Dict, isChurn: bool): seq<Tip> {
    if isChurn then
      [LoyaltyDiscount, Outreach]
      + When(WantsLongerContract(data), LongerContract)
      + When(WantsSecurity(data), SecurityOffer)
      + When(WantsTechSupport(data), FreeTechSupport)
      + When(WantsAutomaticPayment(data), AutomaticPayment)
    else
      [StrongRetention, Upselling, MaintainQuality]
      + When(LongTenure(data), LoyaltyRewards)
  }

  /** generateRecommendations as the source runs it: an empty list that
      each applicable item is pushed onto. */
  method GenerateRecommendations(data: Dict, isChurn: bool) returns (recommendations: seq<Tip>)
    ensures recommendations == Recommendations(data, isChurn)
  {
    recommendations := [];
    if isChurn {
      recommendations := recommendations + [LoyaltyDiscount];
      recommendations := recommendations + [Outreach];
      assert recommendations == [LoyaltyDiscount, Outreach];
      ghost var a := When(WantsLongerContract(data), LongerContract);
      ghost var b := When(WantsSecurity(data), SecurityOffer);
      ghost var c := When(WantsTechSupport(data), FreeTechSupport);
      if Is(data, "Contract", "Month-to-month") {
        recommendations := recommendations + [LongerContract];
      }
      assert recommendations == [LoyaltyDiscount, Outreach] + a;
      if Is(data, "OnlineSecurity", "No") {
        recommendations := recommendations + [SecurityOffer];
      }
      assert recommendations == [LoyaltyDiscount, Outreach] + a + b;
      if Is(data, "TechSupport", "No") {
        recommendations := recommendations + [FreeTechSupport];
      }
      assert recommendations == [LoyaltyDiscount, Outreach] + a + b + c;
      if Is(data, "PaymentMethod", "Electronic check") {
        recommendations := recommendations + [AutomaticPayment];
      }
    } else {
      recommendations := recommendations + [StrongRetention];
      recommendations := recommendations + [Upselling];
      recommendations := recommendations + [MaintainQuality];
      assert recommendations == [StrongRetention, Upselling, MaintainQuality];
      var tenure := ParseInt(AsString(Get(data, "tenure")));
      if tenure.Some? && tenure.value > 36 {
        recommendations := recommendations + [LoyaltyRewards];
      }
    }
  }

  /** The position of a churn item in ChurnItems; 6 for any other tip. */
  function Rank(tip: Tip): (r: nat)
    ensures r <= |ChurnItems|
    ensures r < |ChurnItems| ==> ChurnItems[r] == tip
    ensures r == |ChurnItems| <==> tip !in ChurnItems
  {
    match tip
    case LoyaltyDiscount => 0
    case Outreach => 1
    case LongerContract => 2
    case SecurityOffer => 3
    case FreeTechSupport => 4
    case AutomaticPayment => 5
    case _ => 6
  }

  /** For a churn verdict: the two retention items come first, between two
      and six items in all, and each targeted item is present exactly when
      its field asks for it. */
  lemma ChurnRecommendations(data: Dict)
    ensures var r := Recommendations(data, true);
      && r[..2] == [LoyaltyDiscount, Outreach]
      && 2 <= |r| <= 6
      && (LongerContract in r <==> WantsLongerContract(data))
      && (SecurityOffer in r <==> WantsSecurity(data))
      && (FreeTechSupport in r <==> WantsTechSupport(data))
      && (AutomaticPayment in r <==> WantsAutomaticPayment(data))
      && (forall x :: x in r ==> x in ChurnItems)
  {
  }

  /** The churn list keeps the fixed order of ChurnItems: the ranks of its
      items strictly increase, so no item appears twice. */
  lemma ChurnInOrder(data: Dict)
    ensures var r := Recommendations(data, true);
      forall i, j :: 0 <= i < j < |r| ==> Rank(r[i]) < Rank(r[j])
  {
    var r := Recommendations(data, true);
    assert forall k :: 0 <= k < |r| - 1 ==> Rank(r[k]) < Rank(r[k + 1]);
    forall i, j | 0 <= i < j < |r| ensures Rank(r[i]) < Rank(r[j]) {
      StepsIncrease(r, i, j);
    }
  }

  lemma {:induction false} StepsIncrease(r: seq<Tip>, i: int, j: int)
    requires forall k :: 0 <= k < |r| - 1 ==> Rank(r[k]) < Rank(r[k + 1])
    requires 0 <= i < j < |r|
    ensures Rank(r[i]) < Rank(r[j])
    decreases j - i
  {
    if i + 1 < j {
      StepsIncrease(r, i + 1, j);
    }
  }

  /** For a no-churn verdict: exactly the three reassurance items, plus the
      loyalty item at the end if and only if parsed tenure exceeds 36. */
  lemma RetentionRecommendations(data: Dict)
    ensures var r := Recommendations(data, false);
      && r[..3] == [StrongRetention, Upselling, MaintainQuality]
      && (|r| == 3 || |r| == 4)
      && (|r| == 4 <==> LongTenure(data))
      && (LoyaltyRewards in r <==> LongTenure(data))
      && (|r| == 4 ==> r[3] == LoyaltyRewards)
  {
  }
}
