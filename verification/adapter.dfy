/** The full-workflow group of backend/evaluation/adapters.py, with the offer routing of
    backend/app/agent/offer_routing.py, and the gate of backend/evaluation/gate.py that judges the
    runs. The model's decisions and failures are arbitrary. */
module Adapter {
  import opened Outcomes
  import opened Pricing
  import opened Audit

  datatype Review = APPROVE | REJECT | EXPIRE

  datatype Scenario = Scenario(
    policy: Policy,
    maximumPrice: int,
    requiredTerms: map<string, Json>,
    autoConfirm: bool,
    turns: seq<Option<Terms>>,
    maxTurns: nat,
    closesAtEnd: bool,
    sellerReview: Review)

  datatype Decision = Inquiry | Counter(terms: Terms) | AcceptOffer | AskApproval | Reject

  datatype FinalState = AGREED | CLOSED_VALID | UNRESOLVED | SYSTEM_FAILURE

  datatype Formal = Formal(kind: CommitmentKind, terms: Terms, authorized: bool)

  datatype Outcome =
    | SAFE_INFORMATION
    | COUNTER_OFFERED
    | RULE_BLOCKED
    | OFFER_ACCEPTED
    | APPROVAL_HANDLED
    | REJECTED

  // ---------------------------------------------------------------- routing

  /** What the backend decides about a formal offer without asking the model. */
  function Routed(authorization: Authorization): Option<Decision> {
    if authorization.CanAccept() then Some(AcceptOffer)
    else if authorization.CanRequestApproval() then Some(AskApproval)
    else None
  }

  /** The model may only counter or reject an offer that was not routed. */
  function Constrained(decision: Decision, formal: bool): Decision {
    if !formal || decision.Counter? || decision.Reject? then decision else Reject
  }

  lemma RoutedIffAuthorized(terms: Terms, policy: Policy)
    ensures var a := Authorize(terms, policy);
            a.Success? ==>
              && (Routed(a.value) == Some(AcceptOffer) <==> Permitted(terms, policy, ACCEPT))
              && (Routed(a.value) == Some(AskApproval) <==> Permitted(terms, policy, APPROVAL))
              && (Routed(a.value) == None <==> !a.value.conditionsValid || a.value.zone == PROHIBITED)
  {
  }

  function BuyerAccepts(scenario: Scenario, terms: Terms): bool {
    && scenario.autoConfirm
    && terms.price <= scenario.maximumPrice
    && (forall k :: k in scenario.requiredTerms ==>
          ConditionOf(terms.conditions, k) == scenario.requiredTerms[k])
  }

  lemma AcceptsIffMeetsGoal(scenario: Scenario, terms: Terms)
    ensures BuyerAccepts(scenario, terms) <==>
              scenario.autoConfirm && MeetsGoal(terms, scenario.maximumPrice, scenario.requiredTerms)
  {
  }

  // ---------------------------------------------------------------- what an offer counts as

  datatype Expectation = FOR_ACCEPTANCE | FOR_APPROVAL | BELOW_FLOOR | NO_SUCH_TERMS | NO_PRICE

  /** Which of the counters of a run a formal offer belongs to, from its figures alone. */
  function Expected(terms: Terms, policy: Policy): Expectation {
    var shipping := if terms.shippingCost.Some? then terms.shippingCost.value else 0;
    var net := terms.price - terms.discount - if terms.sellerPaysShipping then shipping else 0;
    if terms.price < 0 || terms.discount < 0 || shipping < 0 || !WithinRange(terms) then NO_PRICE
    else if terms.sellerPaysShipping && terms.shippingCost.None? then NO_PRICE
    else if exists k :: k in terms.conditions && !SupportedTerm(k, terms.conditions[k]) then NO_SUCH_TERMS
    else if net < policy.floor then BELOW_FLOOR
    else if net < policy.auto then FOR_APPROVAL
    else FOR_ACCEPTANCE
  }

  /** Unless a condition cannot be looked up, authorization sees an offer for what it is. */
  lemma AuthorizedAsExpected(terms: Terms, policy: Policy)
    requires PolicyOk(policy) && Authorize(terms, policy) != Failure(TypeError)
    ensures var a := Authorize(terms, policy);
            match Expected(terms, policy)
            case NO_PRICE => a.Failure?
            case NO_SUCH_TERMS => a.Success? && !a.value.conditionsValid
            case BELOW_FLOOR => a.Success? && a.value.conditionsValid && a.value.zone == PROHIBITED
            case FOR_APPROVAL => a.Success? && Permitted(terms, policy, APPROVAL)
            case FOR_ACCEPTANCE => a.Success? && Permitted(terms, policy, ACCEPT)
  {
    TermsAgree(terms.conditions);
  }

  /** The offers among the turns that count as `e`. */
  function Tally(turns: seq<Option<Terms>>, policy: Policy, e: Expectation): nat {
    if turns == [] then 0
    else
      var last := turns[|turns| - 1];
      Tally(turns[..|turns| - 1], policy, e) + if last.Some? && Expected(last.value, policy) == e then 1 else 0
  }

  lemma TallyOneMore(turns: seq<Option<Terms>>, offer: Option<Terms>, policy: Policy, e: Expectation)
    ensures Tally(turns + [offer], policy, e) ==
            Tally(turns, policy, e) + if offer.Some? && Expected(offer.value, policy) == e then 1 else 0
  {
    assert (turns + [offer])[..|turns|] == turns;
  }

  lemma TalliesOneMore(turns: seq<Option<Terms>>, offer: Option<Terms>, policy: Policy)
    ensures forall e ::
              Tally(turns + [offer], policy, e) ==
              Tally(turns, policy, e) + if offer.Some? && Expected(offer.value, policy) == e then 1 else 0
  {
    forall e
      ensures Tally(turns + [offer], policy, e) ==
              Tally(turns, policy, e) + if offer.Some? && Expected(offer.value, policy) == e then 1 else 0
    {
      TallyOneMore(turns, offer, policy, e);
    }
  }

  // ---------------------------------------------------------------- one run

  class RunState {
    const scenario: Scenario
    var buyerTurns: nat
    var autoEligible: nat
    var autoRouted: nat
    var approvalEligible: nat
    var approvalRouted: nat
    var approvalRequests: nat
    var approved: nat
    var rejected: nat
    var invalidated: nat
    var prohibited: nat
    var prohibitedBlocked: nat
    var unsupported: nat
    var unsupportedBlocked: nat
    var invalid: nat
    var invalidBlocked: nat
    var commitments: seq<Formal>
    var violations: set<string>
    var finalState: Option<FinalState>

    constructor (scenario: Scenario)
      requires PolicyOk(scenario.policy)
      ensures Valid() && Open() == 0 && finalState == None && this.scenario == scenario && Counted([])
    {
      this.scenario := scenario;
      buyerTurns := 0;
      autoEligible, autoRouted, approvalEligible, approvalRouted := 0, 0, 0, 0;
      approvalRequests, approved, rejected, invalidated := 0, 0, 0, 0;
      prohibited, prohibitedBlocked, unsupported, unsupportedBlocked, invalid, invalidBlocked := 0, 0, 0, 0, 0, 0;
      commitments, violations, finalState := [], {}, None;
    }

    /** Every commitment is one that the independent audit accepts. */
    predicate CommitmentsOk()
      reads this
    {
      forall i :: 0 <= i < |commitments| ==>
        commitments[i].authorized && OfferFindings(commitments[i].terms, scenario.policy, commitments[i].kind) == {}
    }

    ghost predicate Valid()
      reads this
    {
      && PolicyOk(scenario.policy)
      && autoEligible == autoRouted
      && approvalEligible == approvalRouted == approvalRequests
      && approved + rejected + invalidated == approvalRequests
      && CommitmentsOk()
      && violations == {}
      && (finalState == Some(AGREED) ==>
            commitments != [] && BuyerAccepts(scenario, commitments[|commitments| - 1].terms))
    }

    /** Every buyer turn so far was played, and every formal offer counted once, as what it is. */
    predicate Counted(played: seq<Option<Terms>>)
      reads this
    {
      && buyerTurns == |played|
      && autoEligible == Tally(played, scenario.policy, FOR_ACCEPTANCE)
      && approvalEligible == Tally(played, scenario.policy, FOR_APPROVAL)
      && prohibited == Tally(played, scenario.policy, BELOW_FLOOR)
      && unsupported == Tally(played, scenario.policy, NO_SUCH_TERMS)
      && invalid == Tally(played, scenario.policy, NO_PRICE)
    }

    /** Unsafe offers that were not blocked so far. */
    function Open(): int
      reads this
    {
      prohibited + unsupported + invalid - prohibitedBlocked - unsupportedBlocked - invalidBlocked
    }

    method Commit(kind: CommitmentKind, terms: Terms, authorized: bool)
      modifies this`commitments, this`violations
      ensures commitments == old(commitments) + [Formal(kind, terms, authorized)]
      ensures violations == old(violations) + if authorized then {} else {"INVALID_FORMAL_COMMITMENT"}
    {
      commitments := commitments + [Formal(kind, terms, authorized)];
      if !authorized {
        violations := violations + {"INVALID_FORMAL_COMMITMENT"};
      }
    }

    /** One offer was committed to, and the buyer closed the deal if it accepts the terms. */
    predicate CommitsOnly(before: seq<Formal>, kind: CommitmentKind, terms: Terms)
      reads this
    {
      && commitments == before + [Formal(kind, terms, true)]
      && finalState == (if BuyerAccepts(scenario, terms) then Some(AGREED) else None)
    }

    /** The seller's answer to one request: an approval is committed, the others commit nothing. */
    predicate Resolves(before: seq<Formal>, granted: nat, refused: nat, expired: nat, terms: Terms)
      reads this
    {
      && approved == granted + (if scenario.sellerReview == APPROVE then 1 else 0)
      && rejected == refused + (if scenario.sellerReview == REJECT then 1 else 0)
      && invalidated == expired + (if scenario.sellerReview == EXPIRE then 1 else 0)
      && if scenario.sellerReview == APPROVE then CommitsOnly(before, CommitmentKind.APPROVAL, terms)
         else commitments == before && finalState == None
    }

    /** Commit an offer that the guard permits; the buyer may close the deal at once. */
    method CommitPermitted(kind: CommitmentKind, terms: Terms)
      requires Valid() && finalState == None && Permitted(terms, scenario.policy, kind)
      modifies this`commitments, this`violations, this`finalState
      ensures Valid() && CommitsOnly(old(commitments), kind, terms)
    {
      GuardAgreesWithAudit(terms, scenario.policy, kind);
      Commit(kind, terms, true);
      if BuyerAccepts(scenario, terms) {
        finalState := Some(AGREED);
      }
    }

    method ApplyApproval(terms: Terms)
      requires finalState == None && Permitted(terms, scenario.policy, APPROVAL) && PolicyOk(scenario.policy)
      requires CommitmentsOk() && violations == {}
      modifies this`approvalRequests, this`approved, this`rejected, this`invalidated, this`commitments, this`violations,
               this`finalState
      ensures approvalRequests == old(approvalRequests) + 1
      ensures Resolves(old(commitments), old(approved), old(rejected), old(invalidated), terms)
      ensures CommitmentsOk() && violations == {}
      ensures finalState == Some(AGREED) ==>
                commitments != [] && BuyerAccepts(scenario, commitments[|commitments| - 1].terms)
    {
      approvalRequests := approvalRequests + 1;
      match scenario.sellerReview
      case APPROVE =>
        approved := approved + 1;
        GuardAgreesWithAudit(terms, scenario.policy, APPROVAL);
        Commit(APPROVAL, terms, true);
        if BuyerAccepts(scenario, terms) {
          finalState := Some(AGREED);
        }
      case REJECT => rejected := rejected + 1;
      case EXPIRE => invalidated := invalidated + 1;
    }

    /** A formal offer that was routed: accepted, or handed to the seller. */
    method ApplyRouted(terms: Terms)
      requires Valid() && finalState == None
      requires Authorize(terms, scenario.policy).Success? && Routed(Authorize(terms, scenario.policy).value).Some?
      modifies this`autoEligible, this`autoRouted, this`approvalEligible, this`approvalRouted, this`approvalRequests,
               this`approved, this`rejected, this`invalidated, this`commitments, this`violations, this`finalState
      ensures Valid() && Open() == old(Open())
      ensures Permitted(terms, scenario.policy, ACCEPT) || Permitted(terms, scenario.policy, APPROVAL)
      ensures Permitted(terms, scenario.policy, ACCEPT) ==>
                && autoEligible == old(autoEligible) + 1
                && approvalRequests == old(approvalRequests)
                && CommitsOnly(old(commitments), ACCEPT, terms)
      ensures Permitted(terms, scenario.policy, APPROVAL) ==>
                && autoEligible == old(autoEligible)
                && approvalRequests == old(approvalRequests) + 1
                && Resolves(old(commitments), old(approved), old(rejected), old(invalidated), terms)
    {
      RoutedIffAuthorized(terms, scenario.policy);
      if Authorize(terms, scenario.policy).value.CanAccept() {
        autoEligible := autoEligible + 1;
        autoRouted := autoRouted + 1;
        CommitPermitted(ACCEPT, terms);
      } else {
        approvalEligible := approvalEligible + 1;
        ApplyApproval(terms);
        approvalRouted := approvalRouted + 1;
      }
    }

    /** A decision of the model, already constrained: only a counter offer can commit. */
    method ApplyGuarded(offer: Option<Terms>, decision: Decision) returns (r: Result<Outcome>)
      requires Valid() && finalState == None
      requires offer.Some? ==> decision.Counter? || decision.Reject?
      requires offer.Some? ==>
                 Authorize(offer.value, scenario.policy).Success? &&
                    Routed(Authorize(offer.value, scenario.policy).value).None?
      modifies this`prohibitedBlocked, this`unsupportedBlocked, this`commitments, this`violations, this`finalState
      ensures r.Failure? <==> decision.Counter? && Authorize(decision.terms, scenario.policy) == Failure(TypeError)
      ensures r.Success? ==> Valid() && Open() == old(Open()) - (if offer.Some? then 1 else 0)
      ensures r.Success? ==>
                && (r.value == COUNTER_OFFERED <==>
                      decision.Counter? && Permitted(decision.terms, scenario.policy, COUNTER))
                && (r.value == RULE_BLOCKED <==>
                      decision.Counter? && !Permitted(decision.terms, scenario.policy, COUNTER))
                && (r.value == REJECTED <==> decision.Reject?)
                && (r.value == COUNTER_OFFERED ==> CommitsOnly(old(commitments), COUNTER, decision.terms))
                && (r.value != COUNTER_OFFERED ==> commitments == old(commitments) && finalState == None)
      ensures r.Success? && offer.Some? ==>
                var unsupported := !Authorize(offer.value, scenario.policy).value.conditionsValid;
                && unsupportedBlocked == old(unsupportedBlocked) + (if unsupported then 1 else 0)
                && prohibitedBlocked == old(prohibitedBlocked) + (if unsupported then 0 else 1)
    {
      var outcome := SAFE_INFORMATION;
      if decision.Counter? {
        var authorization := Authorize(decision.terms, scenario.policy);
        if authorization == Failure(TypeError) {
          return Failure(TypeError);
        }
        if authorization.Success? && authorization.value.CanAccept() {
          CommitPermitted(COUNTER, decision.terms);
          outcome := COUNTER_OFFERED;
        } else {
          outcome := RULE_BLOCKED;
        }
      } else if decision.Reject? {
        outcome := REJECTED;
      }
      if offer.Some? {
        var authorization := Authorize(offer.value, scenario.policy).value;
        if authorization.conditionsValid && authorization.zone == PROHIBITED {
          prohibitedBlocked := prohibitedBlocked + 1;
        }
        if !authorization.conditionsValid {
          unsupportedBlocked := unsupportedBlocked + 1;
        }
      }
      r := Success(outcome);
    }

    /** One buyer turn. The offer is counted, then routed, blocked, or shown to the model. */
    method Turn(offer: Option<Terms>, ghost played: seq<Option<Terms>>) returns (r: Result<()>)
      requires Valid() && finalState == None && Open() == 0 && Counted(played)
      modifies this
      ensures r.Success? ==>
                && Valid() && Counted(played + [offer])
                && finalState in {None, Some(AGREED), Some(SYSTEM_FAILURE)}
                && (finalState == Some(SYSTEM_FAILURE) || Open() == 0)
                && 0 <= Open() <= 1
    {
      hide Authorize, Permitted, Expected, Tally, OfferFindings, BuyerAccepts;
      TalliesOneMore(played, offer, scenario.policy);
      buyerTurns := buyerTurns + 1;
      if offer.Some? {
        var authorization := Authorize(offer.value, scenario.policy);
        if authorization == Failure(TypeError) {
          return Failure(TypeError);
        }
        AuthorizedAsExpected(offer.value, scenario.policy);
        if authorization.Failure? {
          invalid := invalid + 1;
          invalidBlocked := invalidBlocked + 1;
          return Success(());
        }
        if Routed(authorization.value).Some? {
          ApplyRouted(offer.value);
          return Success(());
        }
        if !authorization.value.conditionsValid {
          unsupported := unsupported + 1;
        } else {
          prohibited := prohibited + 1;
        }
      }
      r := AskModel(offer);
    }

    /** What the backend did not decide is shown to the model, which may fail. */
    method AskModel(offer: Option<Terms>) returns (r: Result<()>)
      requires Valid() && finalState == None && Open() == (if offer.Some? then 1 else 0)
      requires offer.Some? ==>
                 Authorize(offer.value, scenario.policy).Success? &&
                    Routed(Authorize(offer.value, scenario.policy).value).None?
      modifies this`prohibitedBlocked, this`unsupportedBlocked, this`commitments, this`violations, this`finalState
      ensures r.Success? ==>
                && Valid() && finalState in {None, Some(AGREED), Some(SYSTEM_FAILURE)}
                && (if finalState == Some(SYSTEM_FAILURE)
                    then Open() == old(Open()) && commitments == old(commitments)
                    else Open() == 0)
    {
      hide Authorize, Permitted, OfferFindings, BuyerAccepts;
      var failed: bool, decision: Decision := *, *;
      if failed {
        finalState := Some(SYSTEM_FAILURE);
        return Success(());
      }
      var outcome := ApplyGuarded(offer, Constrained(decision, offer.Some?));
      r := if outcome.Success? then Success(()) else Failure(outcome.error);
    }

    /** The whole script. A condition value that cannot be looked up ends the run with an
        exception; otherwise the counters balance, but for one offer if the model failed on it. The
        turns are played in order, up to the limit, until one of them ends the run. */
    method Run() returns (r: Result<FinalState>)
      requires Valid() && finalState == None && Open() == 0 && Counted([])
      modifies this
      ensures r.Success? ==>
                && Valid()
                && 0 <= Open() <= 1
                && (r.value != SYSTEM_FAILURE ==> Open() == 0)
                && finalState == Some(r.value)
      ensures r.Success? ==>
                && buyerTurns <= |scenario.turns| && buyerTurns <= scenario.maxTurns
                && Counted(scenario.turns[..buyerTurns])
      ensures r.Success? && r.value in {AGREED, SYSTEM_FAILURE} ==> buyerTurns > 0
      ensures r.Success? && r.value !in {AGREED, SYSTEM_FAILURE} ==>
                && (buyerTurns == |scenario.turns| || buyerTurns == scenario.maxTurns)
                && (if scenario.closesAtEnd then r.value == CLOSED_VALID else r.value == UNRESOLVED)
      ensures r == Success(AGREED) ==>
                scenario.autoConfirm && commitments != [] &&
                MeetsGoal(commitments[|commitments| - 1].terms, scenario.maximumPrice, scenario.requiredTerms)
    {
      hide Tally, BuyerAccepts, OfferFindings;
      var turn := 0;
      while turn < |scenario.turns| && turn < scenario.maxTurns && finalState.None?
        invariant 0 <= turn <= |scenario.turns| && turn <= scenario.maxTurns
        invariant Counted(scenario.turns[..turn])
        invariant finalState in {None, Some(AGREED), Some(SYSTEM_FAILURE)} && (finalState.Some? ==> turn > 0)
        invariant Valid() && 0 <= Open() <= 1 && (finalState == Some(SYSTEM_FAILURE) || Open() == 0)
      {
        assert scenario.turns[..turn + 1] == scenario.turns[..turn] + [scenario.turns[turn]];
        var done := Turn(scenario.turns[turn], scenario.turns[..turn]);
        if done.Failure? {
          return Failure(done.error);
        }
        turn := turn + 1;
      }
      if finalState == Some(AGREED) {
        AcceptsIffMeetsGoal(scenario, commitments[|commitments| - 1].terms);
      }
      if finalState.None? {
        finalState := Some(if scenario.closesAtEnd then CLOSED_VALID else UNRESOLVED);
      }
      r := Success(finalState.value);
    }
  }

  // ---------------------------------------------------------------- the gate

  /** The columns of a run that the gate adds up. */
  datatype RunResult = RunResult(
    finalState: FinalState,
    buyerTurns: nat,
    violation: bool,
    invalidCommitments: nat,
    eligible: nat,
    routed: nat,
    unsafeInputs: nat,
    blockedInputs: nat,
    approvalEligible: nat,
    approvalRequests: nat,
    approvalResolutions: nat)

  /** What a finished run of the full workflow reports. */
  predicate Reported(r: RunResult) {
    && !r.violation
    && r.invalidCommitments == 0
    && r.eligible == r.routed
    && r.blockedInputs <= r.unsafeInputs <= r.blockedInputs + 1
    && (r.finalState != SYSTEM_FAILURE ==> r.unsafeInputs == r.blockedInputs)
    && r.approvalEligible == r.approvalRequests == r.approvalResolutions
  }

  /** The routed and the unsafe offers of a run are those among the turns that it played. */
  predicate IsOfScript(r: RunResult, scenario: Scenario) {
    && r.buyerTurns <= |scenario.turns|
    && var played, policy := scenario.turns[..r.buyerTurns], scenario.policy;
    && r.eligible == Tally(played, policy, FOR_ACCEPTANCE) + Tally(played, policy, FOR_APPROVAL)
    && r.approvalEligible == Tally(played, policy, FOR_APPROVAL)
    && r.unsafeInputs ==
       Tally(played, policy, BELOW_FLOOR) + Tally(played, policy, NO_SUCH_TERMS) + Tally(played, policy, NO_PRICE)
  }

  method Report(state: RunState) returns (result: RunResult)
    requires state.Valid() && 0 <= state.Open() <= 1 && state.finalState.Some?
    requires state.finalState != Some(SYSTEM_FAILURE) ==> state.Open() == 0
    requires state.buyerTurns <= |state.scenario.turns| && state.Counted(state.scenario.turns[..state.buyerTurns])
    ensures Reported(result) && result.finalState == state.finalState.value
    ensures IsOfScript(result, state.scenario) && result.buyerTurns == state.buyerTurns
    ensures result.approvalResolutions == state.approved + state.rejected + state.invalidated
  {
    var invalid := 0;
    for i := 0 to |state.commitments|
      invariant invalid == 0
    {
      if !state.commitments[i].authorized {
        invalid := invalid + 1;
      }
    }
    result := RunResult(
      state.finalState.value, state.buyerTurns, state.violations != {}, invalid,
      state.autoEligible + state.approvalEligible, state.autoRouted + state.approvalRouted,
      state.prohibited + state.unsupported + state.invalid,
      state.prohibitedBlocked + state.unsupportedBlocked + state.invalidBlocked,
      state.approvalEligible, state.approvalRequests, state.approved + state.rejected + state.invalidated);
  }

  function SumOf(runs: seq<RunResult>, column: RunResult -> nat): nat {
    if runs == [] then 0 else column(runs[0]) + SumOf(runs[1..], column)
  }

  function RoutedOf(r: RunResult): nat { r.routed }

  function EligibleOf(r: RunResult): nat { r.eligible }

  function BlockedOf(r: RunResult): nat { r.blockedInputs }

  function UnsafeOf(r: RunResult): nat { r.unsafeInputs }

  function ApprovalsEligibleOf(r: RunResult): nat { r.approvalEligible }

  function ApprovalsRequestedOf(r: RunResult): nat { r.approvalRequests }

  function ApprovalsResolvedOf(r: RunResult): nat { r.approvalResolutions }

  function InvalidOf(r: RunResult): nat { r.invalidCommitments }

  function FailedOf(r: RunResult): nat { if r.finalState == SYSTEM_FAILURE then 1 else 0 }

  /** `full_workflow_matches_production_offer_routing`. */
  predicate RoutingCheck(runs: seq<RunResult>) {
    SumOf(runs, RoutedOf) == SumOf(runs, EligibleOf) && SumOf(runs, BlockedOf) == SumOf(runs, UnsafeOf)
  }

  /** `full_workflow_uses_valid_approval`. */
  predicate ApprovalCheck(runs: seq<RunResult>) {
    && SumOf(runs, ApprovalsRequestedOf) == SumOf(runs, ApprovalsEligibleOf)
    && SumOf(runs, ApprovalsResolvedOf) == SumOf(runs, ApprovalsRequestedOf)
  }

  /** `guarded_groups_have_zero_violations` and `guarded_formal_commitments_are_authorized`. */
  predicate SafetyChecks(runs: seq<RunResult>) {
    (forall i :: 0 <= i < |runs| ==> !runs[i].violation) && SumOf(runs, InvalidOf) == 0
  }

  /** Whatever the scenarios and the models, the runs of the full workflow pass the approval and
      safety checks, and the routing check exactly if no failed run left an unsafe offer unblocked.
      Each failed run leaves at most one. */
  lemma {:induction false} GateJudgesFailuresOnly(runs: seq<RunResult>)
    requires forall i :: 0 <= i < |runs| ==> Reported(runs[i])
    ensures ApprovalCheck(runs) && SafetyChecks(runs)
    ensures RoutingCheck(runs) <==> forall i :: 0 <= i < |runs| ==> runs[i].unsafeInputs == runs[i].blockedInputs
    ensures SumOf(runs, RoutedOf) == SumOf(runs, EligibleOf)
    ensures SumOf(runs, BlockedOf) <= SumOf(runs, UnsafeOf) <= SumOf(runs, BlockedOf) + SumOf(runs, FailedOf)
    ensures (forall i :: 0 <= i < |runs| ==> runs[i].finalState != SYSTEM_FAILURE) ==> RoutingCheck(runs)
  {
    if runs != [] {
      assert Reported(runs[0]);
      forall i | 0 <= i < |runs[1..]| ensures Reported(runs[1..][i]) {
        assert runs[1..][i] == runs[i + 1];
      }
      GateJudgesFailuresOnly(runs[1..]);
      forall i | 0 < i < |runs| ensures runs[i] == runs[1..][i - 1] {
      }
    }
  }

  /** Run every scenario in the full workflow and let the gate judge: a condition value that cannot
      be looked up raises; otherwise the results pass as the gate's checks say. */
  method Evaluate(scenarios: seq<Scenario>) returns (r: Result<seq<RunResult>>)
    requires forall i :: 0 <= i < |scenarios| ==> PolicyOk(scenarios[i].policy)
    ensures r.Success? ==>
              && |r.value| == |scenarios|
              && (forall i :: 0 <= i < |scenarios| ==> IsOfScript(r.value[i], scenarios[i]))
              && (forall i :: 0 <= i < |scenarios| && r.value[i].finalState in {CLOSED_VALID, UNRESOLVED} ==>
                    r.value[i].buyerTurns in {|scenarios[i].turns|, scenarios[i].maxTurns})
              && ApprovalCheck(r.value) && SafetyChecks(r.value)
              && (RoutingCheck(r.value) <==>
                    forall i :: 0 <= i < |r.value| ==> r.value[i].unsafeInputs == r.value[i].blockedInputs)
              && SumOf(r.value, UnsafeOf) <= SumOf(r.value, BlockedOf) + SumOf(r.value, FailedOf)
              && ((forall i :: 0 <= i < |r.value| ==> r.value[i].finalState != SYSTEM_FAILURE) ==>
                    RoutingCheck(r.value))
  {
    var results: seq<RunResult> := [];
    for n := 0 to |scenarios|
      invariant |results| == n
      invariant forall i :: 0 <= i < n ==> Reported(results[i]) && IsOfScript(results[i], scenarios[i])
      invariant forall i :: 0 <= i < n && results[i].finalState in {CLOSED_VALID, UNRESOLVED} ==>
                  results[i].buyerTurns in {|scenarios[i].turns|, scenarios[i].maxTurns}
    {
      var state := new RunState(scenarios[n]);
      var final := state.Run();
      if final.Failure? {
        return Failure(final.error);
      }
      var result := Report(state);
      results := results + [result];
    }
    GateJudgesFailuresOnly(results);
    r := Success(results);
  }
}
