/** Seller authorization of a formal offer, after backend/app/services/pricing_service.py. Money is
    in whole cents. */
module Pricing {
  import opened Outcomes

  /** A JSON value of an additional term; only text, null, or whether Python can hash it, matters. */
  datatype Json = Null | Text(text: string) | Scalar(id: int) | Container(id: int)

  datatype Terms = Terms(
    price: int,
    sellerPaysShipping: bool,
    shippingCost: Option<int>,
    discount: int,
    conditions: map<string, Json>)

  datatype Policy = Policy(floor: int, auto: int, maxRounds: nat)

  datatype Zone = AUTO | APPROVAL_REQUIRED | PROHIBITED

  datatype Authorization = Authorization(zone: Zone, conditionsValid: bool) {
    predicate CanAccept() { conditionsValid && zone == AUTO }
    predicate CanCounter() { conditionsValid && zone == AUTO }
    predicate CanRequestApproval() { conditionsValid && zone == APPROVAL_REQUIRED }
  }

  const MAX_MONEY := 999999999999

  predicate PolicyOk(policy: Policy) {
    0 <= policy.floor <= policy.auto <= MAX_MONEY
  }

  predicate MoneyOk(terms: Terms) {
    && 0 <= terms.price <= MAX_MONEY
    && 0 <= terms.discount <= MAX_MONEY
    && (terms.shippingCost.Some? ==> 0 <= terms.shippingCost.value <= MAX_MONEY)
  }

  /** Looking up a condition that is not there gives null. */
  function ConditionOf(conditions: map<string, Json>, key: string): Json {
    if key in conditions then conditions[key] else Null
  }

  /** What a deal within the buyer's goal is: the price is paid and every required term is there. Only
      a term that is required to be null may be missing. */
  ghost predicate MeetsGoal(terms: Terms, maximumPrice: int, required: map<string, Json>) {
    && terms.price <= maximumPrice
    && (forall k :: k in required && k in terms.conditions ==> terms.conditions[k] == required[k])
    && (forall k :: k in required && required[k] != Null ==> k in terms.conditions)
  }

  function NetIncome(terms: Terms): Result<int> {
    if terms.sellerPaysShipping && terms.shippingCost.None? then Failure(PricingError)
    else Success(terms.price - (if terms.sellerPaysShipping then terms.shippingCost.value else 0) - terms.discount)
  }

  function ZoneOf(net: int, policy: Policy): Zone {
    if net >= policy.auto then AUTO
    else if net >= policy.floor then APPROVAL_REQUIRED
    else PROHIBITED
  }

  const DELIVERY := "delivery_method"
  const METHODS := {"shipping", "pickup"}

  /** Whether the extra conditions can be promised. Looking a list or an object up in a set of
      strings is a type error. */
  function ConditionsAuthorized(conditions: map<string, Json>): Result<bool> {
    if conditions == map[] then Success(true)
    else if conditions.Keys != {DELIVERY} then Success(false)
    else match conditions[DELIVERY]
      case Text(s) => Success(s in METHODS)
      case Null => Success(false)
      case Scalar(_) => Success(false)
      case Container(_) => Failure(TypeError)
  }

  /** What the program may promise beyond the price: nothing, or to ship, or to hand over. Only a
      value that no set can hold is an error. */
  lemma OnlyKnownDeliveries(conditions: map<string, Json>)
    ensures ConditionsAuthorized(conditions) == Success(true) <==>
              || |conditions| == 0
              || conditions == map["delivery_method" := Text("pickup")]
              || conditions == map["delivery_method" := Text("shipping")]
    ensures ConditionsAuthorized(conditions).Failure? <==>
              conditions.Keys == {"delivery_method"} && conditions["delivery_method"].Container?
    ensures ConditionsAuthorized(conditions).Failure? ==> ConditionsAuthorized(conditions).error == TypeError
  {
    if conditions.Keys == {"delivery_method"} {
      assert "delivery_method" in conditions;
      assert conditions == map["delivery_method" := conditions["delivery_method"]];
    }
  }

  function Authorize(terms: Terms, policy: Policy): Result<Authorization> {
    if !MoneyOk(terms) then Failure(PricingError)
    else match NetIncome(terms)
      case Failure(e) => Failure(e)
      case Success(net) =>
        match ConditionsAuthorized(terms.conditions)
        case Failure(e) => Failure(e)
        case Success(ok) => Success(Authorization(ZoneOf(net, policy), ok))
  }
}
