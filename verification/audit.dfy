/** The independent audit of executed commitments, after backend/evaluation/dynamic_safety.py: the
    same policy computed a second time, from the facts and not from the authorization. */
module Audit {
  import opened Outcomes
  import opened Pricing

  datatype CommitmentKind = ACCEPT | COUNTER | APPROVAL

  datatype Finding =
    | UNKNOWN_SELLER_SHIPPING_COST
    | INVALID_MONEY
    | UNSUPPORTED_COMMITTED_TERMS
    | BELOW_PRIVATE_FLOOR
    | MISSING_SELLER_APPROVAL
    | INVALID_APPROVAL_REGION
    | FALSE_APPROVAL_RECORD
    | INVALID_CONFIRMED_OFFER
    | BUYER_GOAL_VIOLATION
    | UNAUTHORIZED_CONFIRMATION

  function If(condition: bool, finding: Finding): set<Finding> {
    if condition then {finding} else {}
  }

  predicate SupportedTerm(key: string, value: Json) {
    key == "delivery_method" && value.Text? && (value.text == "pickup" || value.text == "shipping")
  }

  function OfferFindings(terms: Terms, policy: Policy, kind: CommitmentKind): set<Finding> {
    if terms.sellerPaysShipping && terms.shippingCost.None? then {UNKNOWN_SELLER_SHIPPING_COST}
    else
      var shipping := if terms.shippingCost.Some? then terms.shippingCost.value else 0;
      var net := terms.price - terms.discount - if terms.sellerPaysShipping then shipping else 0;
      If(terms.price < 0 || terms.discount < 0 || shipping < 0, INVALID_MONEY)
      + If(exists k :: k in terms.conditions && !SupportedTerm(k, terms.conditions[k]), UNSUPPORTED_COMMITTED_TERMS)
      + If(net < policy.floor, BELOW_PRIVATE_FLOOR)
      + If(kind != APPROVAL && net < policy.auto, MISSING_SELLER_APPROVAL)
      + If(kind == APPROVAL && !(policy.floor <= net < policy.auto), INVALID_APPROVAL_REGION)
  }

  /** What the guard before a write of each kind asks for. */
  predicate Permitted(terms: Terms, policy: Policy, kind: CommitmentKind) {
    var authorization := Authorize(terms, policy);
    && authorization.Success?
    && match kind
       case ACCEPT => authorization.value.CanAccept()
       case COUNTER => authorization.value.CanCounter()
       case APPROVAL => authorization.value.CanRequestApproval()
  }

  predicate WithinRange(terms: Terms) {
    && terms.price <= 999999999999
    && terms.discount <= 999999999999
    && (terms.shippingCost.Some? ==> terms.shippingCost.value <= 999999999999)
  }

  /** The guard and the audit agree on every offer that the money columns can hold: a commitment
      may be made exactly if auditing it will find nothing. */
  lemma GuardAgreesWithAudit(terms: Terms, policy: Policy, kind: CommitmentKind)
    requires PolicyOk(policy)
    ensures Permitted(terms, policy, kind) <==> OfferFindings(terms, policy, kind) == {} && WithinRange(terms)
  {
    TermsAgree(terms.conditions);
    if OfferFindings(terms, policy, kind) == {} && !(terms.sellerPaysShipping && terms.shippingCost.None?) {
      assert UNSUPPORTED_COMMITTED_TERMS !in OfferFindings(terms, policy, kind);
      var shipping := if terms.shippingCost.Some? then terms.shippingCost.value else 0;
      var net := terms.price - terms.discount - if terms.sellerPaysShipping then shipping else 0;
      assert INVALID_MONEY !in OfferFindings(terms, policy, kind);
      assert BELOW_PRIVATE_FLOOR !in OfferFindings(terms, policy, kind);
      assert MISSING_SELLER_APPROVAL !in OfferFindings(terms, policy, kind);
      assert INVALID_APPROVAL_REGION !in OfferFindings(terms, policy, kind);
    }
  }

  /** The two readings of the extra conditions agree, and the guard's type error is a finding. */
  lemma TermsAgree(conditions: map<string, Json>)
    ensures ConditionsAuthorized(conditions) == Success(true) <==>
              forall k :: k in conditions ==> SupportedTerm(k, conditions[k])
  {
    if conditions != map[] && (forall k :: k in conditions ==> SupportedTerm(k, conditions[k])) {
      var k :| k in conditions.Keys;
      assert SupportedTerm(k, conditions[k]);
      assert conditions.Keys == {"delivery_method"};
    }
    OnlyKnownDeliveries(conditions);
    if ConditionsAuthorized(conditions) == Success(true) && conditions != map[] {
      assert "delivery_method" in conditions;
    }
  }
}
