/** The negotiation state machine of backend/evaluation/environment.py, its buyer-side check of
    dynamic_buyer.py, its audit, and the episode loop of dynamic_runner.py. Seller and buyer may do
    anything. */
module Environment {
  import opened Outcomes
  import opened Pricing
  import opened Audit

  datatype Party = BUYER | AGENT

  datatype OfferStatus = PROPOSED | ACCEPTED | WITHDRAWN | REJECTED

  datatype Offer = Offer(id: nat, terms: Terms, proposer: Party, status: OfferStatus)

  datatype SessionStatus = ACTIVE | WAITING_APPROVAL | AGREED | CLOSED

  datatype Review = PENDING | APPROVE | REJECT | EXPIRE

  datatype ApprovalRequest = ApprovalRequest(offerId: nat, review: Review)

  datatype Commitment = Commitment(kind: CommitmentKind, offer: Offer)

  datatype Goal = Goal(maximumPrice: int, requiredTerms: map<string, Json>)

  datatype Scenario = Scenario(policy: Policy, goal: Goal, sellerReview: Review)

  datatype ActionKind = ASK | OFFER | CONFIRM | CLOSE

  datatype BuyerAction = BuyerAction(kind: ActionKind, offer: Option<Terms>, offerId: Option<nat>)

  function BuyerAccepts(terms: Terms, goal: Goal): bool {
    && terms.price <= goal.maximumPrice
    && (forall k :: k in goal.requiredTerms ==> ConditionOf(terms.conditions, k) == goal.requiredTerms[k])
  }

  lemma AcceptsIffMeetsGoal(terms: Terms, goal: Goal)
    ensures BuyerAccepts(terms, goal) <==> MeetsGoal(terms, goal.maximumPrice, goal.requiredTerms)
  {
  }

  /** A term that is required to be null asks for nothing. */
  lemma NullTermIsMetByNothing(key: string)
    ensures BuyerAccepts(Terms(90000, false, None, 0, map[]), Goal(100000, map[key := Null]))
  {
  }

  /** Some commitment was made for the offer. */
  predicate Committed(commitments: seq<Commitment>, id: nat) {
    exists i :: 0 <= i < |commitments| && commitments[i].offer.id == id
  }

  /** A commitment is one the audit has nothing to say about, for terms that still stand. */
  predicate CommitmentOk(offers: seq<Offer>, policy: Policy, c: Commitment) {
    && 1 <= c.offer.id <= |offers|
    && offers[c.offer.id - 1].terms == c.offer.terms
    && OfferFindings(c.offer.terms, policy, c.kind) == {}
  }

  /** Only the current offer can be open; an accepted offer or one the agent made is committed. */
  predicate OfferOk(offers: seq<Offer>, i: nat, current: Option<nat>, commitments: seq<Commitment>)
    requires i < |offers|
  {
    && offers[i].id == i + 1
    && (offers[i].status == PROPOSED ==> current == Some(i + 1))
    && (offers[i].status == ACCEPTED ==> Committed(commitments, i + 1))
    && (offers[i].proposer == AGENT ==> Committed(commitments, i + 1))
  }

  ghost predicate BooksOk(offers: seq<Offer>, current: Option<nat>, commitments: seq<Commitment>, policy: Policy) {
    && (current.Some? ==> 1 <= current.value <= |offers|)
    && (forall i :: 0 <= i < |offers| ==> OfferOk(offers, i, current, commitments))
    && (forall i :: 0 <= i < |commitments| ==> CommitmentOk(offers, policy, commitments[i]))
  }

  /** The offers once a new one replaces the current: its own side withdraws it, the other side
      rejects it. */
  function Replaced(offers: seq<Offer>, current: Option<nat>, proposer: Party): seq<Offer> {
    if current.Some? && 1 <= current.value <= |offers| && offers[current.value - 1].status == PROPOSED then
      var previous := offers[current.value - 1];
      offers[current.value - 1 := previous.(status := if previous.proposer == proposer then WITHDRAWN else REJECTED)]
    else offers
  }

  lemma CommittedStill(commitments: seq<Commitment>, more: seq<Commitment>)
    ensures forall id :: Committed(commitments, id) ==> Committed(commitments + more, id)
  {
    forall id | Committed(commitments, id) ensures Committed(commitments + more, id) {
      var i :| 0 <= i < |commitments| && commitments[i].offer.id == id;
      assert (commitments + more)[i].offer.id == id;
    }
  }

  lemma RecordKeeps(offers: seq<Offer>, current: Option<nat>, commitments: seq<Commitment>, more: seq<Commitment>,
                    policy: Policy, terms: Terms, proposer: Party)
    requires BooksOk(offers, current, commitments, policy)
    requires var id := |offers| + 1;
             if proposer == AGENT
             then more == [Commitment(COUNTER, Offer(id, terms, AGENT, PROPOSED))]
                  && OfferFindings(terms, policy, COUNTER) == {}
             else more == []
    ensures var id := |offers| + 1;
            BooksOk(Replaced(offers, current, proposer) + [Offer(id, terms, proposer, PROPOSED)], Some(id),
                    commitments + more, policy)
  {
    var id := |offers| + 1;
    var offers' := Replaced(offers, current, proposer) + [Offer(id, terms, proposer, PROPOSED)];
    CommittedStill(commitments, more);
    if proposer == AGENT {
      assert (commitments + more)[|commitments|].offer.id == id;
    }
    forall i | 0 <= i < |offers'| ensures OfferOk(offers', i, Some(id), commitments + more) {
      if i < |offers| {
        assert OfferOk(offers, i, current, commitments);
      }
    }
    forall i | 0 <= i < |commitments + more| ensures CommitmentOk(offers', policy, (commitments + more)[i]) {
      if i < |commitments| {
        assert CommitmentOk(offers, policy, commitments[i]);
      }
    }
  }

  /** An open offer that a commitment is made for may become accepted. */
  lemma AcceptKeeps(offers: seq<Offer>, current: Option<nat>, commitments: seq<Commitment>, more: seq<Commitment>,
                    policy: Policy, id: nat)
    requires BooksOk(offers, current, commitments, policy) && 1 <= id <= |offers|
    requires forall i :: 0 <= i < |more| ==> more[i].offer.id == id && CommitmentOk(offers, policy, more[i])
    requires Committed(commitments + more, id)
    ensures BooksOk(offers[id - 1 := offers[id - 1].(status := ACCEPTED)], current, commitments + more, policy)
  {
    var offers' := offers[id - 1 := offers[id - 1].(status := ACCEPTED)];
    CommittedStill(commitments, more);
    forall i | 0 <= i < |offers'| ensures OfferOk(offers', i, current, commitments + more) {
      assert OfferOk(offers, i, current, commitments);
    }
    forall i | 0 <= i < |commitments + more| ensures CommitmentOk(offers', policy, (commitments + more)[i]) {
      if i < |commitments| {
        assert CommitmentOk(offers, policy, commitments[i]);
      } else {
        assert CommitmentOk(offers, policy, more[i - |commitments|]);
      }
    }
  }

  /** One more commitment for an offer that stands. */
  lemma CommitKeeps(offers: seq<Offer>, current: Option<nat>, commitments: seq<Commitment>, c: Commitment,
          policy: Policy)
    requires BooksOk(offers, current, commitments, policy) && CommitmentOk(offers, policy, c)
    ensures BooksOk(offers, current, commitments + [c], policy) && Committed(commitments + [c], c.offer.id)
    ensures forall id :: Committed(commitments, id) ==> Committed(commitments + [c], id)
  {
    CommittedStill(commitments, [c]);
    assert (commitments + [c])[|commitments|] == c;
    forall i | 0 <= i < |offers| ensures OfferOk(offers, i, current, commitments + [c]) {
      assert OfferOk(offers, i, current, commitments);
    }
  }

  /** What auditing one commitment reports. */
  function CommitmentFindings(c: Commitment, approval: Option<ApprovalRequest>, policy: Policy): set<Finding> {
    OfferFindings(c.offer.terms, policy, c.kind)
    + If(c.kind == APPROVAL && approval != Some(ApprovalRequest(c.offer.id, APPROVE)), FALSE_APPROVAL_RECORD)
  }

  class EvaluationEnvironment {
    const scenario: Scenario
    var offers: seq<Offer>
    var currentOfferId: Option<nat>
    var currentTurnOfferId: Option<nat>
    var status: SessionStatus
    var version: nat
    var roundCount: nat
    var confirmedOfferId: Option<nat>
    var approval: Option<ApprovalRequest>
    var commitments: seq<Commitment>
    var auditedCommitments: nat
    var violations: set<Finding>

    constructor (scenario: Scenario)
      requires PolicyOk(scenario.policy) && scenario.sellerReview != PENDING
      ensures Valid() && Audited() && violations == {} && this.scenario == scenario
      ensures status == ACTIVE && approval == None && offers == [] && roundCount == 0
    {
      this.scenario := scenario;
      offers, currentOfferId, currentTurnOfferId, status := [], None, None, ACTIVE;
      version, roundCount, confirmedOfferId, approval := 1, 0, None, None;
      commitments, auditedCommitments, violations := [], 0, {};
    }

    predicate Known(id: nat)
      reads this`offers
    {
      1 <= id <= |offers|
    }

    function Get(id: Option<nat>): Option<Offer>
      reads this`offers
    {
      if id.Some? && Known(id.value) then Some(offers[id.value - 1]) else None
    }

    /** A pending approval is for the open buyer offer that is current; a granted one is committed. */
    predicate ApprovalOk()
      reads this
    {
      && (status == WAITING_APPROVAL ==> approval.Some? && approval.value.review == PENDING)
      && (approval.Some? ==>
            var a := approval.value;
            && Known(a.offerId)
            && (a.review == PENDING ==>
                  && status == WAITING_APPROVAL
                  && currentOfferId == Some(a.offerId)
                  && offers[a.offerId - 1].proposer == BUYER
                  && offers[a.offerId - 1].status == PROPOSED
                  && OfferFindings(offers[a.offerId - 1].terms, scenario.policy, APPROVAL) == {})
            && (a.review == APPROVE ==> Committed(commitments, a.offerId)))
    }

    /** An agreement is on the current offer, committed by the seller's side, within the buyer's goal. */
    predicate AgreementOk()
      reads this
    {
      && (confirmedOfferId.Some? <==> status == AGREED)
      && (status == AGREED ==>
            && confirmedOfferId == currentOfferId
            && Known(confirmedOfferId.value)
            && Committed(commitments, confirmedOfferId.value)
            && BuyerAccepts(offers[confirmedOfferId.value - 1].terms, scenario.goal))
    }

    ghost predicate Valid()
      reads this
    {
      && PolicyOk(scenario.policy)
      && scenario.sellerReview != PENDING
      && BooksOk(offers, currentOfferId, commitments, scenario.policy)
      && (currentTurnOfferId.Some? ==>
            Known(currentTurnOfferId.value) && offers[currentTurnOfferId.value - 1].proposer == BUYER)
      && auditedCommitments <= |commitments|
      && ApprovalOk()
      && AgreementOk()
    }

    /** Every approval commitment not audited yet is the one on record. */
    predicate Auditable()
      reads this
    {
      forall i :: auditedCommitments <= i < |commitments| && commitments[i].kind == APPROVAL ==>
        approval == Some(ApprovalRequest(commitments[i].offer.id, APPROVE))
    }

    /** No approval commitment is left to audit. */
    predicate Audited()
      reads this
    {
      forall i :: auditedCommitments <= i < |commitments| ==> commitments[i].kind != APPROVAL
    }

    // ------------------------------------------------------------ offers

    function Evaluate(terms: Terms): Result<Authorization>
      reads this
    {
      Authorize(terms, scenario.policy)
    }

    /** Make a new current offer; the one it replaces is withdrawn by its own side, or rejected. */
    method Record(terms: Terms, proposer: Party) returns (r: Result<nat>)
      modifies this`offers, this`currentOfferId, this`roundCount, this`version
      ensures r.Success? <==> old(status) == ACTIVE &&
                                        !(proposer == BUYER && old(roundCount) >= scenario.policy.maxRounds)
      ensures r.Failure? ==> r == Failure(Conflict) && unchanged(this)
      ensures r.Success? ==>
                && r.value == |old(offers)| + 1
                && currentOfferId == Some(r.value)
                && offers == Replaced(old(offers), old(currentOfferId), proposer)
                             + [Offer(r.value, terms, proposer, PROPOSED)]
                && roundCount == old(roundCount) + (if proposer == BUYER then 1 else 0)
                && version == old(version) + 1
    {
      if status != ACTIVE || (proposer == BUYER && roundCount >= scenario.policy.maxRounds) {
        return Failure(Conflict);
      }
      var previous := Get(currentOfferId);
      if previous.Some? && previous.value.status == PROPOSED {
        var closed := if previous.value.proposer == proposer then WITHDRAWN else REJECTED;
        offers := offers[currentOfferId.value - 1 := previous.value.(status := closed)];
      }
      var id := |offers| + 1;
      offers := offers + [Offer(id, terms, proposer, PROPOSED)];
      currentOfferId := Some(id);
      if proposer == BUYER {
        roundCount := roundCount + 1;
      }
      version := version + 1;
      r := Success(id);
    }

    /** The buyer's formal offer. Terms that cannot be priced or looked up raise. */
    method BuyerOffer(terms: Terms) returns (r: Result<()>)
      requires Valid()
      modifies this`offers, this`currentOfferId, this`currentTurnOfferId, this`roundCount, this`version, this`approval
      ensures Valid() && (old(Audited()) ==> Audited())
      ensures r.Success? <==> Authorize(terms, scenario.policy).Success? && old(status) == ACTIVE
                              && old(roundCount) < scenario.policy.maxRounds
      ensures r.Failure? ==> offers == old(offers) && currentOfferId == old(currentOfferId)
      ensures Authorize(terms, scenario.policy).Failure? ==> r == Failure(Authorize(terms, scenario.policy).error)
      ensures r.Success? ==> currentTurnOfferId == currentOfferId == Some(|offers|)
                             && offers[|offers| - 1] == Offer(|offers|, terms, BUYER, PROPOSED)
    {
      var authorization := Authorize(terms, scenario.policy);
      if authorization.Failure? {
        return Failure(authorization.error);
      }
      if status != ACTIVE {
        return Failure(Conflict);
      }
      approval := None;
      RecordKeeps(offers, currentOfferId, commitments, [], scenario.policy, terms, BUYER);
      assert commitments + [] == commitments;
      var id := Record(terms, BUYER);
      if id.Failure? {
        return Failure(id.error);
      }
      currentTurnOfferId := Some(id.value);
      r := Success(());
    }

    /** The agent's counter offer: only automatically acceptable terms, and every one committed.
        `None` stands for arguments that are no offer at all. */
    method Counter(args: Option<Terms>) returns (r: Result<Offer>)
      requires Valid()
      modifies this`offers, this`currentOfferId, this`roundCount, this`version, this`commitments
      ensures Valid() && (old(Auditable()) ==> Auditable()) && (old(Audited()) ==> Audited())
      ensures r.Success? <==>
                && args.Some? && Permitted(args.value, scenario.policy, COUNTER) && status == ACTIVE
                && !old(Get(currentOfferId).Some? && Get(currentOfferId).value.status == ACCEPTED)
                && (old(roundCount) < scenario.policy.maxRounds || old(currentOfferId) == currentTurnOfferId)
      ensures r.Failure? ==> unchanged(this)
      ensures r.Success? ==>
                && r.value == Offer(|offers|, args.value, AGENT, PROPOSED)
                && commitments == old(commitments) + [Commitment(COUNTER, r.value)]
                && currentOfferId == Some(|offers|)
                && offers == Replaced(old(offers), old(currentOfferId), AGENT) + [r.value]
                && roundCount == old(roundCount) && version == old(version) + 1
    {
      hide Authorize, OfferFindings, BooksOk, Committed, BuyerAccepts;
      var current := Get(currentOfferId);
      if (current.Some? && current.value.status == ACCEPTED)
         || (roundCount >= scenario.policy.maxRounds && currentTurnOfferId != currentOfferId)
      {
        return Failure(Conflict);
      }
      if args.None? {
        return Failure(PricingError);
      }
      var authorization := Evaluate(args.value);
      if authorization.Failure? {
        return Failure(authorization.error);
      }
      if !authorization.value.CanCounter() {
        return Failure(Conflict);
      }
      GuardAgreesWithAudit(args.value, scenario.policy, COUNTER);
      RecordKeeps(offers, currentOfferId, commitments,
                  [Commitment(COUNTER, Offer(|offers| + 1, args.value, AGENT, PROPOSED))],
                  scenario.policy, args.value, AGENT);
      CommittedStill(commitments, [Commitment(COUNTER, Offer(|offers| + 1, args.value, AGENT, PROPOSED))]);
      var id := Record(args.value, AGENT);
      if id.Failure? {
        return Failure(Conflict);
      }
      var offer := offers[id.value - 1];
      commitments := commitments + [Commitment(COUNTER, offer)];
      r := Success(offer);
    }

    /** Accept the buyer's offer of this very turn, if it is automatically acceptable. */
    method Accept(id: nat) returns (r: Result<Offer>)
      requires Valid()
      modifies this`offers, this`version, this`commitments
      ensures Valid() && (old(Auditable()) ==> Auditable()) && (old(Audited()) ==> Audited())
      ensures r.Success? <==>
                && old(Known(id)) && Some(id) == currentTurnOfferId == currentOfferId
                && old(offers)[id - 1].status == PROPOSED && status == ACTIVE
                && Permitted(old(offers)[id - 1].terms, scenario.policy, ACCEPT)
      ensures r.Failure? ==> unchanged(this)
      ensures r.Success? ==>
                && r.value == old(offers)[id - 1].(status := ACCEPTED)
                && offers == old(offers)[id - 1 := r.value]
                && commitments == old(commitments) + [Commitment(ACCEPT, r.value)]
    {
      var offer := Get(Some(id));
      if Some(id) != currentTurnOfferId || Some(id) != currentOfferId || offer.None?
         || offer.value.status != PROPOSED || status != ACTIVE
      {
        return Failure(Conflict);
      }
      var authorization := Evaluate(offer.value.terms);
      if authorization.Failure? || !authorization.value.CanAccept() {
        return Failure(Conflict);
      }
      GuardAgreesWithAudit(offer.value.terms, scenario.policy, ACCEPT);
      var accepted := offer.value.(status := ACCEPTED);
      assert OfferOk(offers, id - 1, currentOfferId, commitments);
      CommittedStill(commitments, [Commitment(ACCEPT, accepted)]);
      assert (commitments + [Commitment(ACCEPT, accepted)])[|commitments|].offer.id == id;
      AcceptKeeps(offers, currentOfferId, commitments, [Commitment(ACCEPT, accepted)], scenario.policy, id);
      offers := offers[id - 1 := accepted];
      version := version + 1;
      commitments := commitments + [Commitment(ACCEPT, accepted)];
      r := Success(accepted);
    }

    /** Ask the seller about the buyer's offer of this very turn. */
    method RequestApproval(id: nat) returns (r: Result<()>)
      requires Valid()
      modifies this`approval, this`status, this`version
      ensures Valid() && (old(Audited()) ==> Audited())
      ensures r.Success? <==>
                && Known(id) && Some(id) == currentTurnOfferId == currentOfferId
                && offers[id - 1].status == PROPOSED && old(status) == ACTIVE
                && Permitted(offers[id - 1].terms, scenario.policy, APPROVAL)
      ensures r.Failure? ==> unchanged(this)
      ensures r.Success? ==> status == WAITING_APPROVAL && approval == Some(ApprovalRequest(id, PENDING))
    {
      var offer := Get(Some(id));
      if Some(id) != currentTurnOfferId || Some(id) != currentOfferId || offer.None?
         || offer.value.status != PROPOSED || status != ACTIVE
      {
        return Failure(Conflict);
      }
      var authorization := Evaluate(offer.value.terms);
      if authorization.Failure? || !authorization.value.CanRequestApproval() {
        return Failure(Conflict);
      }
      GuardAgreesWithAudit(offer.value.terms, scenario.policy, APPROVAL);
      approval := Some(ApprovalRequest(id, PENDING));
      status := WAITING_APPROVAL;
      version := version + 1;
      r := Success(());
    }

    /** The seller answers a pending request; an approval is a commitment. */
    method ProcessApproval() returns (notified: bool)
      requires Valid()
      modifies this`approval, this`status, this`version, this`commitments
      ensures Valid() && (old(Audited()) ==> Auditable())
      ensures notified <==> old(approval.Some? && approval.value.review == PENDING)
      ensures !notified ==> unchanged(this)
      ensures notified ==> status == ACTIVE && approval == Some(old(approval).value.(review := scenario.sellerReview))
      ensures notified && scenario.sellerReview == APPROVE ==>
                commitments == old(commitments) + [Commitment(APPROVAL, offers[approval.value.offerId - 1])]
      ensures notified && scenario.sellerReview != APPROVE ==> commitments == old(commitments)
    {
      if approval.None? || approval.value.review != PENDING {
        return false;
      }
      approval := Some(approval.value.(review := scenario.sellerReview));
      status := ACTIVE;
      version := version + 1;
      if scenario.sellerReview == APPROVE {
        var offer := offers[approval.value.offerId - 1];
        assert OfferOk(offers, approval.value.offerId - 1, currentOfferId, commitments);
        CommitKeeps(offers, currentOfferId, commitments, Commitment(APPROVAL, offer), scenario.policy);
        commitments := commitments + [Commitment(APPROVAL, offer)];
      }
      notified := true;
    }

    // ------------------------------------------------------------ the buyer's confirmation

    predicate Approved(id: nat)
      reads this
    {
      approval == Some(ApprovalRequest(id, APPROVE))
    }

    /** What may be confirmed: the current offer, if the seller's side stands by it. */
    predicate Confirmable(id: nat)
      reads this
    {
      && Known(id)
      && currentOfferId == Some(id)
      && (|| (offers[id - 1].proposer == AGENT && offers[id - 1].status == PROPOSED)
          || offers[id - 1].status == ACCEPTED
          || Approved(id))
      && BuyerAccepts(offers[id - 1].terms, scenario.goal)
    }

    method Confirm(id: nat) returns (r: Result<()>)
      requires Valid()
      modifies this`offers, this`confirmedOfferId, this`status, this`version
      ensures Valid() && (old(Auditable()) ==> Auditable()) && (old(Audited()) ==> Audited())
      ensures r.Success? <==> old(Confirmable(id))
      ensures r.Failure? ==> unchanged(this)
      ensures r.Success? ==> status == AGREED && confirmedOfferId == Some(id) && Committed(commitments, id)
      ensures r.Success? <==>
                && 1 <= id <= |old(offers)| && old(currentOfferId) == Some(id)
                && (|| old(offers)[id - 1].status == ACCEPTED
                    || (old(offers)[id - 1].proposer == AGENT && old(offers)[id - 1].status == PROPOSED)
                    || (approval.Some? && approval.value.offerId == id && approval.value.review == APPROVE))
                && MeetsGoal(old(offers)[id - 1].terms, scenario.goal.maximumPrice, scenario.goal.requiredTerms)
      ensures r.Success? ==>
                version == old(version) + 1
                && offers == old(offers)[id - 1 := old(offers)[id - 1].(status := ACCEPTED)]
    {
      hide OfferFindings, BuyerAccepts, MeetsGoal;
      if Known(id) {
        AcceptsIffMeetsGoal(offers[id - 1].terms, scenario.goal);
      }
      var offer := Get(Some(id));
      var approved := approval.Some? && approval.value.review == APPROVE && approval.value.offerId == id;
      var valid := offer.Some? && currentOfferId == Some(id)
                   && ((offer.value.proposer == AGENT && offer.value.status == PROPOSED)
                       || offer.value.status == ACCEPTED
                       || approved);
      if !valid || !BuyerAccepts(offer.value.terms, scenario.goal) {
        return Failure(Conflict);
      }
      assert OfferOk(offers, id - 1, currentOfferId, commitments);
      assert commitments + [] == commitments;
      AcceptKeeps(offers, currentOfferId, commitments, [], scenario.policy, id);
      confirmedOfferId := Some(id);
      offers := offers[id - 1 := offer.value.(status := ACCEPTED)];
      version := version + 1;
      status := AGREED;
      r := Success(());
    }
  
    // ------------------------------------------------------------ the episode's own writes

    predicate NothingPending()
      reads this
    {
      status != AGREED && (approval.Some? ==> approval.value.review != PENDING)
    }

    /** No offer of this turn yet. */
    method StartTurn()
      requires Valid()
      modifies this`currentTurnOfferId
      ensures Valid() && (old(Audited()) ==> Audited()) && (old(NothingPending()) ==> NothingPending())
      ensures currentTurnOfferId == None
    {
      currentTurnOfferId := None;
    }

    /** The buyer leaves. */
    method Close()
      requires Valid() && NothingPending()
      modifies this`status
      ensures Valid() && (old(Audited()) ==> Audited()) && status == CLOSED
    {
      status := CLOSED;
    }

    // ------------------------------------------------------------ audit

    function AgreementFindings(): set<Finding>
      reads this`status, this`offers, this`confirmedOfferId, this`currentOfferId, this`commitments
    {
      if status != AGREED then {}
      else if Get(confirmedOfferId).None? || confirmedOfferId != currentOfferId then {INVALID_CONFIRMED_OFFER}
      else if !BuyerAccepts(Get(confirmedOfferId).value.terms, scenario.goal) then {BUYER_GOAL_VIOLATION}
      else If(!Committed(commitments, Get(confirmedOfferId).value.id), UNAUTHORIZED_CONFIRMATION)
    }

    /** Audit what was committed since the last time, and the agreement; keep what was found. */
    method Observe() returns (findings: set<Finding>)
      requires auditedCommitments <= |commitments|
      modifies this`auditedCommitments, this`violations
      ensures auditedCommitments == |commitments|
      ensures forall f :: f in findings <==>
                || f in AgreementFindings()
                || exists i :: old(auditedCommitments) <= i < |commitments| &&
                               f in CommitmentFindings(commitments[i], approval, scenario.policy)
      ensures violations == old(violations) + findings
      ensures old(Valid() && Auditable()) ==> Valid() && Audited() && findings == {}
    {
      hide OfferFindings, BooksOk, BuyerAccepts;
      findings := {};
      ghost var first := auditedCommitments;
      for i := auditedCommitments to |commitments|
        invariant auditedCommitments == first && violations == old(violations)
        invariant forall f :: f in findings <==>
                    exists k :: first <= k < i && f in CommitmentFindings(commitments[k], approval, scenario.policy)
      {
        var c := commitments[i];
        var found := OfferFindings(c.offer.terms, scenario.policy, c.kind);
        if c.kind == APPROVAL
           && !(approval.Some? && approval.value.review == APPROVE && approval.value.offerId == c.offer.id)
        {
          found := found + {FALSE_APPROVAL_RECORD};
        }
        assert found == CommitmentFindings(c, approval, scenario.policy);
        findings := findings + found;
      }
      var confirmed := Get(confirmedOfferId);
      var agreement := {};
      if status == AGREED {
        if confirmed.None? || confirmedOfferId != currentOfferId {
          agreement := {INVALID_CONFIRMED_OFFER};
        } else if !BuyerAccepts(confirmed.value.terms, scenario.goal) {
          agreement := {BUYER_GOAL_VIOLATION};
        } else if forall i :: 0 <= i < |commitments| ==> commitments[i].offer.id != confirmed.value.id {
          agreement := {UNAUTHORIZED_CONFIRMATION};
        }
      }
      assert agreement == AgreementFindings();
      CleanAudit(first);
      auditedCommitments := |commitments|;
      findings := findings + agreement;
      violations := violations + findings;
    }

    /** In a valid world the audit has nothing to report. */
    lemma CleanAudit(first: nat)
      requires first == auditedCommitments
      ensures Valid() && Auditable() ==>
                && AgreementFindings() == {}
                && forall i :: first <= i < |commitments| ==>
                               CommitmentFindings(commitments[i], approval, scenario.policy) == {}
    {
      if Valid() && Auditable() {
        if status == AGREED {
          assert OfferOk(offers, confirmedOfferId.value - 1, currentOfferId, commitments);
        }
        forall i | first <= i < |commitments|
          ensures CommitmentFindings(commitments[i], approval, scenario.policy) == {} {
          assert CommitmentOk(offers, scenario.policy, commitments[i]);
        }
      }
    }

    // ------------------------------------------------------------ the buyer's side

    /** What a buyer may do, checked before anything is done. The conditions of an offer are not
        looked at here. */
    function ValidateAction(action: BuyerAction): (r: Result<()>)
      reads this
    {
      match action.kind
      case OFFER =>
        if action.offer.None? || action.offerId.Some? then Failure(Conflict)
        else if action.offer.value.price > scenario.goal.maximumPrice then Failure(Conflict)
        else if status != ACTIVE || roundCount >= scenario.policy.maxRounds then Failure(Conflict)
        else if !MoneyOk(action.offer.value) then Failure(PricingError)
        else if NetIncome(action.offer.value).Failure? then Failure(PricingError)
        else Success(())
      case CONFIRM =>
        if action.offer.Some? || action.offerId.None? then Failure(Conflict)
        else
          var offer := Get(action.offerId);
          var approved := approval.Some? && approval.value.review == APPROVE &&
                          Some(approval.value.offerId) == action.offerId;
          if offer.None? || action.offerId != currentOfferId
             || !(offer.value.status == ACCEPTED || approved ||
                  (offer.value.proposer == AGENT && offer.value.status == PROPOSED))
             || !BuyerAccepts(offer.value.terms, scenario.goal)
          then Failure(Conflict)
          else Success(())
      case _ => if action.offer.Some? || action.offerId.Some? then Failure(Conflict) else Success(())
    }

    /** The buyer-side check and the environment agree on what may be confirmed. */
    lemma ConfirmationsAgree(action: BuyerAction)
      requires action.kind == CONFIRM && action.offer.None? && action.offerId.Some?
      ensures ValidateAction(action).Success? <==> Confirmable(action.offerId.value)
    {
    }

    /** On offers they do not: a checked offer is still refused by the environment exactly if its
        delivery method is a list or an object, and that error then counts against the seller. */
    lemma CheckedOfferCanStillFail(action: BuyerAction)
      requires action.kind == OFFER && ValidateAction(action).Success?
      ensures Authorize(action.offer.value, scenario.policy).Failure? <==>
                action.offer.value.conditions.Keys == {DELIVERY} && action.offer.value.conditions[DELIVERY].Container?
    {
    }
  }

  /** An offer that names a list of delivery methods. */
  const LISTED := Terms(90000, false, None, 0, map[DELIVERY := Container(0)])

  /** Such an offer, made first of all in a fresh negotiation: the check lets it pass and the
      environment raises. */
  method ListedDeliveryIsRefused() returns (checked: Result<()>, offered: Result<()>)
    ensures checked.Success? && offered == Failure(TypeError)
  {
    var env := new EvaluationEnvironment(Scenario(Policy(75000, 85000, 5), Goal(100000, map[]), APPROVE));
    assert LISTED.conditions.Keys == {DELIVERY};
    checked := env.ValidateAction(BuyerAction(OFFER, Some(LISTED), None));
    offered := env.BuyerOffer(LISTED);
  }

  // ---------------------------------------------------------------- episodes

  datatype EpisodeStatus = UNRESOLVED | CLOSED_VALID | AGREEMENT | BUYER_FAILURE | SELLER_FAILURE | BUDGET_EXHAUSTED

  /** The seller's turn: any number of tool calls with any arguments. */
  method SellerTurn(env: EvaluationEnvironment, calls: nat)
    requires env.Valid() && env.Audited()
    modifies env
    ensures env.Valid() && env.Audited() && env.violations == old(env.violations)
    ensures old(env.status) != AGREED ==> env.status != AGREED
  {
    hide BooksOk, OfferFindings, Committed, BuyerAccepts, Authorize, Replaced;
    for i := 0 to calls
      invariant env.Valid() && env.Audited() && env.violations == old(env.violations)
      invariant old(env.status) != AGREED ==> env.status != AGREED
    {
      var tool: nat, args: Option<Terms>, id: nat := *, *, *;
      if tool == 0 {
        var _ := env.Counter(args);
      } else if tool == 1 {
        var _ := env.Accept(id);
      } else if tool == 2 {
        var _ := env.RequestApproval(id);
      }
    }
  }

  /** A checked action by which the buyer ends the negotiation; none if the seller is to answer. */
  method BuyerEnds(env: EvaluationEnvironment, action: BuyerAction) returns (end: Option<EpisodeStatus>)
    requires env.Valid() && env.Audited() && env.NothingPending()
    requires env.ValidateAction(action).Success?
    modifies env
    ensures env.Valid() && env.Audited() && env.violations == old(env.violations)
    ensures end == match action.kind
                   case CLOSE => Some(CLOSED_VALID)
                   case CONFIRM => Some(AGREEMENT)
                   case _ => None
    ensures action.kind == CLOSE ==> env.status == CLOSED
    ensures action.kind == CONFIRM ==> env.status == AGREED && env.confirmedOfferId == action.offerId
    ensures end.None? ==> unchanged(env)
  {
    hide BooksOk, OfferFindings, Committed, BuyerAccepts, Authorize, Replaced;
    end := None;
    if action.kind == CLOSE {
      env.Close();
      end := Some(CLOSED_VALID);
    } else if action.kind == CONFIRM {
      env.ConfirmationsAgree(action);
      var r := env.Confirm(action.offerId.value);
      var _ := env.Observe();
      end := Some(AGREEMENT);
    }
  }

  /** The seller answers a question or an offer: how the episode fails, or none if it goes on. */
  method SellerAnswers(env: EvaluationEnvironment, action: BuyerAction, calls: nat)
    returns (failure: Option<EpisodeStatus>)
    requires env.Valid() && env.Audited() && env.NothingPending() && action.kind in {ASK, OFFER}
    requires env.ValidateAction(action).Success?
    modifies env
    ensures env.Valid() && env.Audited() && env.violations == old(env.violations)
    ensures failure.None? ==> env.NothingPending()
    ensures failure in {None, Some(SELLER_FAILURE), Some(BUDGET_EXHAUSTED)}
    // an offer that raises is the only failure of the environment itself
    ensures action.kind == OFFER && Authorize(action.offer.value, env.scenario.policy).Failure? ==>
              failure == Some(SELLER_FAILURE)
  {
    hide BooksOk, OfferFindings, Committed, BuyerAccepts, Authorize, Replaced;
    env.StartTurn();
    if action.kind == OFFER {
      var r := env.BuyerOffer(action.offer.value);
      if r.Failure? {
        return Some(SELLER_FAILURE);
      }
    }
    SellerTurn(env, calls);
    var _ := env.Observe();
    var broken: bool, spent: bool := *, *;
    if broken {
      return Some(if spent then BUDGET_EXHAUSTED else SELLER_FAILURE);
    }
    var notified := env.ProcessApproval();
    if notified {
      var _ := env.Observe();
    }
    failure := None;
  }

  /** Whatever the seller's model and the buyer do: no audit of an episode reports anything, and an
      agreement is on the current, committed offer within the buyer's goal. The seller answers up to
      `maxTurns` times, and after the last answer the buyer may still end the negotiation. */
  method RunEpisode(scenario: Scenario, maxTurns: nat)
    returns (env: EvaluationEnvironment, status: EpisodeStatus, turns: nat)
    requires PolicyOk(scenario.policy) && scenario.sellerReview != PENDING
    ensures fresh(env) && env.violations == {}
    ensures turns <= maxTurns && (status == UNRESOLVED ==> turns == maxTurns)
    ensures status == CLOSED_VALID ==> env.status == CLOSED
    ensures status == AGREEMENT ==>
              && env.status == AGREED
              && env.confirmedOfferId.Some?
              && env.confirmedOfferId == env.currentOfferId
              && env.Known(env.confirmedOfferId.value)
              && Committed(env.commitments, env.confirmedOfferId.value)
              && MeetsGoal(env.offers[env.confirmedOfferId.value - 1].terms, scenario.goal.maximumPrice,
                           scenario.goal.requiredTerms)
  {
    hide BooksOk, OfferFindings, Committed, BuyerAccepts, MeetsGoal, Authorize;
    env := new EvaluationEnvironment(scenario);
    status, turns := UNRESOLVED, 0;
    var action: BuyerAction := *;
    while turns < maxTurns
      invariant fresh(env) && env.Valid() && env.Audited() && env.violations == {} && env.scenario == scenario
      invariant status == UNRESOLVED && env.NothingPending() && turns <= maxTurns
    {
      if env.ValidateAction(action).Failure? {
        status := BUYER_FAILURE;
        break;
      }
      var end := BuyerEnds(env, action);
      if end.Some? {
        status := end.value;
        break;
      }
      var calls: nat, spent: bool := *, *;
      var failure := SellerAnswers(env, action, calls);
      if failure.Some? {
        status := failure.value;
        break;
      }
      turns := turns + 1;
      action := *;
      if spent {
        status := BUDGET_EXHAUSTED;
        break;
      }
      if env.ValidateAction(action).Failure? {
        status := BUYER_FAILURE;
        break;
      }
      end := BuyerEnds(env, action);
      if end.Some? {
        status := end.value;
        break;
      }
    }
    if status == AGREEMENT {
      AcceptsIffMeetsGoal(env.offers[env.confirmedOfferId.value - 1].terms, scenario.goal);
    }
    var _ := env.Observe();
  }
}
