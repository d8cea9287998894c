/** The bounded agent loop of backend/app/agent/runtime.py on the in-memory backend and driver of
    backend/evaluation/production_driver.py. Whatever the model answers is arbitrary. */
module AgentRuntime {
  import opened Outcomes
  import opened Protocol
  import opened AgentContext
  import opened AgentStream
  import opened AgentBooks

  const TERMINAL_TOOLS := {"submit_counter_offer", "accept_offer", "request_approval", "finish_turn"}
  const READ_TOOLS := {"get_product_info", "get_negotiation_state", "evaluate_offer", "search_conversation_history"}
  const MAX_CALL_ID := 128

  datatype Budget = Budget(
    modelSteps: nat,
    toolCalls: nat,
    totalCalls: nat,
    maintenanceCalls: nat,
    totalTokens: nat,
    outputTokens: nat,
    reviewTokens: nat,            // output tokens of a reply review, or of a conversational finish
    growthReserve: nat)

  datatype Options = Options(conversational: bool, structuredFinish: bool, endingTools: bool, memoryEnabled: bool)

  /** A model message, and what reading its text as a finish plan, a review verdict or a summary
      gives. */
  datatype Reply = Reply(
    content: string,
    calls: seq<Call>,
    invalidCalls: bool,
    tokens: Option<nat>,
    planOk: bool,
    verdict: Option<bool>,
    summary: Option<SummaryReply>)

  /** What the provider raises: a value error, a type or key error, a refusal of the budget that it
      shares with other conversations, or anything else. */
  datatype Fault = VALUE_FAULT | TYPE_FAULT | BUDGET_FAULT | OTHER_FAULT

  datatype Answer = Raised(fault: Fault) | Said(reply: Reply)

  datatype TurnEnd = Replied | Stopped

  /** A finish reply that was carried out, and the evidence at that time. */
  datatype Applied = Applied(call: Call, evidence: string)

  // ---------------------------------------------------------------- budgets

  function ErrorOf(fault: Fault): Error {
    match fault
    case VALUE_FAULT => ValueError
    case TYPE_FAULT => TypeError
    case BUDGET_FAULT => BudgetExhausted
    case OTHER_FAULT => ProviderError
  }

  function MinOutput(budget: Budget): nat {
    if budget.reviewTokens < budget.outputTokens then budget.reviewTokens else budget.outputTokens
  }

  function OutputOf(budget: Budget, options: Options, purpose: Purpose): nat {
    if purpose == REPLY_REVIEW || (purpose == REACT_FINISH && options.conversational)
    then budget.reviewTokens else budget.outputTokens
  }

  /** The books of model calls: never above their budgets, the reserved tokens are what all calls
      charged, and the program keeps the last reservation of each key. */
  predicate CallsOk(budget: Budget, calls: nat, maintenanceCalls: nat, reservedTokens: nat,
                    reservations: map<Key, Reservation>, ledger: seq<Entry>, lastStep: nat)
  {
    && calls <= budget.totalCalls
    && maintenanceCalls <= budget.maintenanceCalls
    && calls == |ledger|
    && reservedTokens == Total(ledger)
    && Admitted(ledger, budget.totalTokens)
    && reservations == Latest(ledger)
    && KeysOk(ledger, lastStep, MinOutput(budget))
    && OnlyReviewsRecur(ledger)
  }

  lemma CallReserved(budget: Budget, calls: nat, maintenanceCalls: nat, maintenanceCalls': nat, reservedTokens: nat,
                     reservations: map<Key, Reservation>, ledger: seq<Entry>, before: nat, lastStep: nat, e: Entry)
    requires NextKey(e.key, calls, before, lastStep)
    requires calls < budget.totalCalls && maintenanceCalls' <= budget.maintenanceCalls
    requires e.reservation.actual.None? && e.reservation.reserved >= MinOutput(budget)
    requires reservedTokens + e.reservation.reserved <= budget.totalTokens
    ensures CallsOk(budget, calls, maintenanceCalls, reservedTokens, reservations, ledger, before) ==>
              CallsOk(budget, calls + 1, maintenanceCalls', reservedTokens + e.reservation.reserved,
                      reservations[e.key := e.reservation], ledger + [e], lastStep)
  {
    hide Admitted, Total, KeysOk, OnlyReviewsRecur, Latest, NextKey, MinOutput;
    if CallsOk(budget, calls, maintenanceCalls, reservedTokens, reservations, ledger, before) {
      AdmitOne(ledger, budget.totalTokens, e);
      OneMoreKey(ledger, before, lastStep, MinOutput(budget), e);
      LatestWith(ledger, e);
    }
  }

  function Excess(actual: nat, reserved: nat): nat {
    if actual > reserved then actual - reserved else 0
  }

  lemma CallReconciled(budget: Budget, calls: nat, maintenanceCalls: nat, reservedTokens: nat,
                       reservations: map<Key, Reservation>, ledger: seq<Entry>, lastStep: nat, actual: nat)
    requires CallsOk(budget, calls, maintenanceCalls, reservedTokens, reservations, ledger, lastStep)
    requires ledger != [] && ledger[|ledger| - 1].reservation.actual.None?
    ensures var last := ledger[|ledger| - 1];
            var r := last.reservation.(actual := Some(actual));
            CallsOk(budget, calls, maintenanceCalls, reservedTokens + Excess(actual, r.reserved),
                    reservations[last.key := r], ledger[..|ledger| - 1] + [Entry(last.key, r)], lastStep)
  {
    ReconcileLast(ledger, actual);
    var last := ledger[|ledger| - 1];
    var ledger' := ledger[..|ledger| - 1] + [Entry(last.key, last.reservation.(actual := Some(actual)))];
    forall i | 0 <= i < |ledger'|
      ensures Total(ledger'[..i]) + ledger'[i].reservation.reserved <= budget.totalTokens
    {
      assert ledger'[..i] == ledger[..i];
    }
  }

  // ---------------------------------------------------------------- batches

  /** `batch_error`: no unknown tool, and a tool that ends the turn only once and last. */
  method BatchError(calls: seq<Call>) returns (bad: bool)
    ensures bad <==> !BatchOk(calls)
  {
    var ends: seq<nat> := [];
    for i := 0 to |calls|
      invariant forall k :: 0 <= k < i ==> Reads(calls[k].name) || EndsTurn(calls[k].name)
      invariant forall k :: 0 <= k < |ends| ==> ends[k] < i && EndsTurn(calls[ends[k]].name)
      invariant forall k :: 0 <= k < i && EndsTurn(calls[k].name) ==> k in ends
      invariant |ends| > 1 ==> ends[0] < ends[1]
    {
      if calls[i].name !in READ_TOOLS + TERMINAL_TOOLS {
        return true;
      }
      if calls[i].name in TERMINAL_TOOLS {
        ends := ends + [i];
      }
    }
    bad := |ends| > 1 || (|ends| == 1 && ends[0] != |calls| - 1);
    if bad {
      assert EndsTurn(calls[ends[0]].name);
    }
  }

  /** The calls that end a turn, and those that only read. */
  predicate EndsTurn(name: string) {
    name == "submit_counter_offer" || name == "accept_offer" || name == "request_approval" || name == "finish_turn"
  }

  predicate Reads(name: string) {
    || name == "get_product_info" || name == "get_negotiation_state"
    || name == "evaluate_offer" || name == "search_conversation_history"
  }

  predicate EndsTurnLast(calls: seq<Call>) {
    forall i :: 0 <= i < |calls| - 1 ==> !EndsTurn(calls[i].name)
  }

  predicate BatchOk(calls: seq<Call>) {
    && (forall i :: 0 <= i < |calls| ==> Reads(calls[i].name) || EndsTurn(calls[i].name))
    && EndsTurnLast(calls)
  }

  lemma EndsWithLast(calls: seq<Call>)
    ensures EndsTurnLast(calls) && |calls| > 1 ==> !EndsTurn(calls[0].name)
  {
  }

  // ---------------------------------------------------------------- reviews

  /** What counts as an approval: the provider says so, in so many words, and calls no tool. */
  predicate Approves(answer: Answer) {
    && answer.Said?
    && answer.reply.verdict == Some(true)
    && answer.reply.calls == [] && !answer.reply.invalidCalls
  }

  ghost predicate GivenByProvider(reviews: map<string, bool>, verdicts: map<string, Answer>) {
    forall key :: key in reviews && reviews[key] ==> key in verdicts && Approves(verdicts[key])
  }

  ghost predicate AllApproved(applied: seq<Applied>, conversational: bool, keyOf: (string, string) -> string,
                              reviews: map<string, bool>)
  {
    forall i :: 0 <= i < |applied| ==>
      && applied[i].call.name == "finish_turn"
      && (conversational ==>
            var key := keyOf(applied[i].call.args, applied[i].evidence); key in reviews && reviews[key])
  }

  lemma OneMoreReview(reviews: map<string, bool>, verdicts: map<string, Answer>, applied: seq<Applied>,
                      conversational: bool, keyOf: (string, string) -> string, key: string, approved: bool,
                      answer: Answer)
    requires key !in reviews && (approved ==> Approves(answer))
    ensures GivenByProvider(reviews, verdicts) ==> GivenByProvider(reviews[key := approved], verdicts[key := answer])
    ensures AllApproved(applied, conversational, keyOf, reviews) ==>
              AllApproved(applied, conversational, keyOf, reviews[key := approved])
  {
  }

  lemma OneMoreApplied(applied: seq<Applied>, conversational: bool, keyOf: (string, string) -> string,
                       reviews: map<string, bool>, a: Applied)
    requires a.call.name == "finish_turn"
    requires conversational ==> var key := keyOf(a.call.args, a.evidence); key in reviews && reviews[key]
    ensures AllApproved(applied, conversational, keyOf, reviews) ==>
              AllApproved(applied + [a], conversational, keyOf, reviews)
  {
  }

  // ---------------------------------------------------------------- what a turn records

  /** The result of a call, after `n` records. */
  function ResultOf(n: nat, call: Call, content: string): Record {
    Record(n + 1, TOOL_RESULT, Tool(call.id, content))
  }

  function ReplyOf(n: nat, content: string): Record {
    Record(n + 1, PUBLIC_REPLY, AI(content, []))
  }

  /** One result for each pending call, all with the same content. */
  function Refused(n: nat, pending: seq<Call>, content: string): seq<Record>
    decreases |pending|
  {
    if pending == [] then [] else [ResultOf(n, pending[0], content)] + Refused(n + 1, pending[1..], content)
  }

  lemma RefusedOneByOne(stream: seq<Record>, pending: seq<Call>, content: string)
    requires pending != []
    ensures var stream' := stream + [ResultOf(|stream|, pending[0], content)];
            stream + Refused(|stream|, pending, content) == stream' + Refused(|stream'|, pending[1..], content)
  {
  }

  /** The stream only grew. */
  predicate Grew(before: seq<Record>, after: seq<Record>) {
    |before| <= |after| && before == after[..|before|]
  }

  /** The turn was answered in public, and nothing came after. */
  predicate Answers(before: seq<Record>, after: seq<Record>) {
    Grew(before, after) && |before| < |after| && after[|after| - 1].kind == PUBLIC_REPLY
  }

  lemma GrewNot(stream: seq<Record>)
    ensures Grew(stream, stream)
  {
  }

  lemma GrewTwice(first: seq<Record>, second: seq<Record>, third: seq<Record>)
    requires Grew(first, second)
    ensures Grew(second, third) ==> Grew(first, third)
    ensures Answers(second, third) ==> Answers(first, third)
  {
  }

  lemma RefusedAnswers(stream: seq<Record>, refused: seq<Record>, n: nat, reply: string)
    ensures Answers(stream, stream + refused + [ReplyOf(n, reply)])
  {
  }

  // ---------------------------------------------------------------- the driver

  ghost predicate AllValid(sent: seq<seq<Message>>) {
    forall i :: 0 <= i < |sent| ==> Valid(sent[i])
  }

  /** During a turn: the stream leaves exactly the pending calls unanswered, and what it held when
      last none was pending is covered by the summary state and holds the current input. */
  ghost predicate HistoryOk(stream: seq<Record>, pending: seq<Call>, answered: seq<Record>, current: nat,
                            covered: nat, sources: set<nat>)
  {
    && StreamOk(stream, pending)
    && answered <= Usable(stream)
    && AllUsable(answered)
    && Valid(Msgs(answered))
    && HasCurrent(answered, current)
    && Covers(answered, current, covered, sources)
    && (pending == [] ==> answered == Usable(stream))
  }

  class Driver {
    const config: Config
    var stream: seq<Record>
    var summary: string
    var coveredThrough: nat
    var sources: set<nat>
    ghost var sent: seq<seq<Message>>  // every message list the model was given

    constructor (config: Config)
      ensures Settled() && stream == [] && sent == [] && this.config == config
    {
      this.config := config;
      stream, summary, coveredThrough, sources, sent := [], "", 0, {}, [];
    }

    /** Between turns: every call is answered, the kept summary covers what it says, and every
        message list sent so far was valid. */
    ghost predicate Settled()
      reads this
    {
      && StreamOk(stream, [])
      && Summarised(Usable(stream), coveredThrough, sources)
      && coveredThrough <= |stream|
      && AllValid(sent)
    }

    method Append(kind: Kind, message: Message)
      modifies this`stream
      ensures stream == old(stream) + [Record(|old(stream)| + 1, kind, message)]
    {
      stream := stream + [Record(|stream| + 1, kind, message)];
    }

    /** The only way to the model, which answers as it likes. */
    method CallModel(messages: seq<Message>, answer: Answer) returns (said: Answer)
      requires Valid(messages)
      modifies this`sent
      ensures sent == old(sent) + [messages] && said == answer
    {
      sent := sent + [messages];
      said := answer;
    }
  }

  // ---------------------------------------------------------------- the loop

  class SellerAgentRuntime {
    const driver: Driver
    const budget: Budget
    const options: Options
    const current: nat            // number of the buyer input of this turn
    const state: ContextState
    var steps: nat
    var calls: nat
    var tools: nat
    var maintenanceCalls: nat
    var reservedTokens: nat
    var reservations: map<Key, Reservation>
    var reservedToolIds: set<string>
    var pendingCalls: seq<Call>
    var batchError: bool
    var repair: bool
    var endingJsonRequired: bool
    var memoryRefreshDone: bool
    var compressed: bool          // the checkpoint holds a summary of this turn
    var reviews: map<string, bool>
    ghost var ledger: seq<Entry>     // every call of the turn
    ghost var lastStep: nat          // the last model step a call was reserved for
    ghost var answered: seq<Record>  // the usable stream when last no call was pending
    ghost var verdicts: map<string, Answer>  // what the provider said about each text it approved
    ghost var applied: seq<Applied>          // every finish reply that was carried out

    constructor (driver: Driver, budget: Budget, options: Options)
      requires driver.Settled() && driver.stream != [] && driver.stream[|driver.stream| - 1].kind == BUYER_INPUT
      requires driver.coveredThrough < |driver.stream| && |driver.stream| !in driver.sources
      ensures TurnOk() && pendingCalls == [] && steps == 0 && lastStep == 0
      ensures this.driver == driver && this.budget == budget && this.options == options && fresh(state)
      ensures calls == 0 && ledger == [] && reviews == map[] && reservedToolIds == {}
      ensures ReviewsOk() && applied == []
    {
      this.driver, this.budget, this.options := driver, budget, options;
      current := |driver.stream|;
      state := new ContextState(driver.summary, driver.coveredThrough, driver.sources);
      steps, calls, tools, maintenanceCalls, reservedTokens := 0, 0, 0, 0, 0;
      reservations, reservedToolIds, pendingCalls, reviews := map[], {}, [], map[];
      batchError, repair, endingJsonRequired, memoryRefreshDone, compressed := false, false, false, false, false;
      ledger, lastStep, verdicts, applied := [], 0, map[], [];
      answered := Usable(driver.stream);
      new;
      CurrentIsUsable(driver.stream);
    }

    ghost predicate WithinBudgets()
      reads this
    {
      && steps <= budget.modelSteps
      && tools <= budget.toolCalls && tools == |reservedToolIds|
      && lastStep <= steps + 1
      && CallsOk(budget, calls, maintenanceCalls, reservedTokens, reservations, ledger, lastStep)
    }

    /** The checkpoint's summary is the state's; without one the state is still the driver's. */
    ghost predicate ContextOk()
      reads this, driver, state
    {
      && state.coveredThrough < current <= |driver.stream|
      && (!compressed ==> state.coveredThrough == driver.coveredThrough && state.sources == driver.sources)
    }

    ghost predicate TurnOk()
      reads this, driver, state
    {
      && HistoryOk(driver.stream, pendingCalls, answered, current, state.coveredThrough, state.sources)
      && (batchError || EndsTurnLast(pendingCalls))
      && WithinBudgets()
      && ContextOk()
      && AllValid(driver.sent)
    }

    /** No approval is on record without the provider's word, and no finish reply was carried out in a
        conversation without one for its very text and evidence. */
    ghost predicate ReviewsOk()
      reads this, driver
    {
      && GivenByProvider(reviews, verdicts)
      && AllApproved(applied, options.conversational, driver.config.reviewKey, reviews)
    }

    // ------------------------------------------------------------ model calls

    /** Whether a call is made at all: its messages fit, and no budget is spent. The wall clock and
        the money budget may refuse at any time. */
    predicate Admits(messages: seq<Message>, purpose: Purpose, refused: bool)
      reads this
    {
      && !refused
      && driver.config.estimate(messages) <= driver.config.limit
      && calls < budget.totalCalls
      && reservedTokens + Reserve(messages, purpose) <= budget.totalTokens
      && (purpose in {SUMMARY, MEMORY} ==> maintenanceCalls < budget.maintenanceCalls)
    }

    function Reserve(messages: seq<Message>, purpose: Purpose): nat {
      driver.config.estimate(messages) + OutputOf(budget, options, purpose)
    }

    /** Admit, reserve, call and reconcile. `review` is the hash of the reviewed text; `refused` and
        `answer` are what the clock and the provider do. A call for a model step is the first one
        for that step. */
    method CallWith(messages: seq<Message>, purpose: Purpose, review: string, refused: bool, answer: Answer)
      returns (r: Result<Reply>)
      requires Valid(messages) && WithinBudgets() && AllValid(driver.sent)
      requires IsStep(purpose) ==> lastStep <= steps
      modifies this`calls, this`maintenanceCalls, this`reservedTokens, this`reservations, this`ledger, this`lastStep,
               driver`sent
      ensures WithinBudgets() && AllValid(driver.sent)
      ensures !IsStep(purpose) ==> lastStep == old(lastStep)
      ensures !old(Admits(messages, purpose, refused)) ==>
                && r == Failure(BudgetExhausted)
                && unchanged(this) && driver.sent == old(driver.sent)
      ensures old(Admits(messages, purpose, refused)) ==>
                var used := if answer.Said? then answer.reply.tokens else None;
                var key := old(KeyOf(purpose, review, steps, calls));
                var e := Entry(key, Reservation(Reserve(messages, purpose), used));
                && r == (if answer.Said? then Success(answer.reply) else Failure(ErrorOf(answer.fault)))
                && driver.sent == old(driver.sent) + [messages]
                && calls == old(calls) + 1
                && ledger == old(ledger) + [e]
                && reservations == old(reservations)[e.key := e.reservation]
                && reservedTokens == old(reservedTokens) + Charge(e.reservation)
                && maintenanceCalls == old(maintenanceCalls) + if purpose in {SUMMARY, MEMORY} then 1 else 0
    {
      hide Protocol.Valid, CallsOk, AllValid;
      var admitted := Admit(messages, purpose, review, refused);
      if !admitted {
        return Failure(BudgetExhausted);
      }
      SentIsValid(driver.sent, messages);
      var said := driver.CallModel(messages, answer);
      if said.Raised? {
        return Failure(ErrorOf(said.fault));
      }
      Reconcile(said.reply, KeyOf(purpose, review, steps, calls - 1));
      r := Success(said.reply);
    }

    /** Check every budget, then put the reservation of the call on record. */
    method Admit(messages: seq<Message>, purpose: Purpose, review: string, refused: bool) returns (admitted: bool)
      requires WithinBudgets() && (IsStep(purpose) ==> lastStep <= steps)
      modifies this`calls, this`maintenanceCalls, this`reservedTokens, this`reservations, this`ledger, this`lastStep
      ensures WithinBudgets() && admitted == old(Admits(messages, purpose, refused))
      ensures !IsStep(purpose) ==> lastStep == old(lastStep)
      ensures !admitted ==> unchanged(this)
      ensures admitted ==>
                var key := old(KeyOf(purpose, review, steps, calls));
                var e := Entry(key, Reservation(Reserve(messages, purpose), None));
                && calls == old(calls) + 1
                && ledger == old(ledger) + [e]
                && reservations == old(reservations)[e.key := e.reservation]
                && reservedTokens == old(reservedTokens) + e.reservation.reserved
                && maintenanceCalls == old(maintenanceCalls) + if purpose in {SUMMARY, MEMORY} then 1 else 0
    {
      hide CallsOk;
      var count := driver.config.estimate(messages);
      if refused || count > driver.config.limit {
        return false;
      }
      var reserve := count + OutputOf(budget, options, purpose);
      CallsAreCounted();
      if calls >= budget.totalCalls || reservedTokens + reserve > budget.totalTokens {
        return false;
      }
      ghost var maintained := maintenanceCalls + if purpose in {SUMMARY, MEMORY} then 1 else 0;
      ghost var last := if IsStep(purpose) then steps + 1 else lastStep;
      if purpose in {SUMMARY, MEMORY} {
        if maintenanceCalls >= budget.maintenanceCalls {
          return false;
        }
      }
      var key := KeyOf(purpose, review, steps, calls);
      CallReserved(budget, calls, maintenanceCalls, maintained, reservedTokens, reservations, ledger,
                   lastStep, last, Entry(key, Reservation(reserve, None)));
      if purpose in {SUMMARY, MEMORY} {
        maintenanceCalls := maintenanceCalls + 1;
      }
      calls := calls + 1;
      reservedTokens := reservedTokens + reserve;
      reservations := reservations[key := Reservation(reserve, None)];
      ledger := ledger + [Entry(key, Reservation(reserve, None))];
      lastStep := last;
      admitted := true;
    }

    lemma CallsAreCounted()
      requires WithinBudgets()
      ensures calls <= budget.totalCalls && maintenanceCalls <= budget.maintenanceCalls && calls == |ledger|
      ensures reservedTokens == Total(ledger) && reservations == Latest(ledger)
    {
    }

    /** Charge what a call used beyond its reservation, once, and only if it says what it used. */
    method Reconcile(reply: Reply, key: Key)
      requires WithinBudgets() && ledger != [] && ledger[|ledger| - 1].key == key
      requires key in reservations && reservations[key] == ledger[|ledger| - 1].reservation
      modifies this`reservedTokens, this`reservations, this`ledger
      ensures WithinBudgets()
      ensures old(reservations)[key].actual.Some? || reply.tokens.None? ==> unchanged(this)
      ensures old(reservations)[key].actual.None? && reply.tokens.Some? ==>
                var r := old(reservations)[key].(actual := reply.tokens);
                && reservations == old(reservations)[key := r]
                && ledger == old(ledger)[..|old(ledger)| - 1] + [Entry(key, r)]
                && reservedTokens == old(reservedTokens) + Excess(reply.tokens.value, r.reserved)
    {
      hide CallsOk;
      if key !in reservations || reservations[key].actual.Some? || reply.tokens.None? {
        return;
      }
      var actual := reply.tokens.value;
      CallReconciled(budget, calls, maintenanceCalls, reservedTokens, reservations, ledger, lastStep, actual);
      ledger := ledger[..|ledger| - 1] + [Entry(key, reservations[key].(actual := Some(actual)))];
      reservedTokens := reservedTokens + Excess(actual, reservations[key].reserved);
      reservations := reservations[key := reservations[key].(actual := Some(actual))];
    }

    /** A call with whatever the clock and the provider do. */
    method Call(messages: seq<Message>, purpose: Purpose, review: string) returns (r: Result<Reply>)
      requires Valid(messages) && WithinBudgets() && AllValid(driver.sent)
      requires IsStep(purpose) ==> lastStep <= steps
      modifies this`calls, this`maintenanceCalls, this`reservedTokens, this`reservations, this`ledger, this`lastStep,
               driver`sent
      ensures WithinBudgets() && AllValid(driver.sent)
      ensures !IsStep(purpose) ==> lastStep == old(lastStep)
    {
      var refused: bool, answer: Answer := *, *;
      r := CallWith(messages, purpose, review, refused, answer);
    }

    /** The tokens charged so far are the sum over the reservations that the program keeps, exactly
        if no review was asked for twice under one key. */
    lemma BooksBalance()
      requires WithinBudgets() && budget.outputTokens > 0 && budget.reviewTokens > 0
      ensures reservedTokens == Kept(reservations) <==>
                forall i, j :: 0 <= i < j < |ledger| && ledger[i].key.ReviewKey? ==> ledger[i].key != ledger[j].key
      ensures Kept(reservations) <= reservedTokens
    {
      BalancedUnlessReviewedTwice(ledger, lastStep, MinOutput(budget));
    }

    // ------------------------------------------------------------ context

    ghost function Selected(): seq<Record>
      reads driver, state
    {
      Selection(Usable(driver.stream), state.coveredThrough, state.sources)
    }

    /** Summarise older exchanges; any failure leaves the state as it was. */
    method Compress(selected: seq<Record>) returns (taken: bool)
      requires TurnOk() && pendingCalls == []
      requires selected == Selection(answered, state.coveredThrough, state.sources)
      modifies this`calls, this`maintenanceCalls, this`reservedTokens, this`reservations, this`ledger, this`lastStep,
               this`compressed, driver`sent, state
      ensures TurnOk() && lastStep == old(lastStep)
      ensures !taken ==> unchanged(state) && compressed == old(compressed)
      ensures taken ==> compressed && old(state.sources) <= state.sources
    {
      hide HistoryOk, CallsOk, AllValid, Older, GroupsOf, Selection, NewCoverage, EndsTurnLast, Acceptable,
           StreamOk;
      var groups := Groups(selected);
      var earlier, count := ChooseOld(driver.config, groups, current, state);
      if earlier == [] {
        return false;
      }
      var request := SummaryRequest(driver.config, state.summary, state.sources, earlier);
      PlainIsSkipped(request);
      var r := Call(request, SUMMARY, "");
      if r.Failure? {
        return false;
      }
      HistoryAbsorbs(driver.stream, answered, current, state.coveredThrough, state.sources, count);
      taken := Absorb(state, earlier, current, r.value.summary);
      compressed := compressed || taken;
    }

    /** The messages of the next step: always a valid list with the current input in it, or the
        pinned part does not fit. */
    method Build(fixed: seq<Message>)
      returns (r: Result<seq<Message>>, ghost kept: seq<Record>, ghost omitted: seq<nat>)
      requires TurnOk() && pendingCalls == [] && Plain(fixed)
      modifies this`calls, this`maintenanceCalls, this`reservedTokens, this`reservations, this`ledger, this`lastStep,
               this`compressed, driver`sent, state
      ensures TurnOk() && lastStep == old(lastStep)
      ensures r.Failure? ==> r == Failure(BudgetExhausted)
      // nothing is summarised before the whole selection is past the trigger
      ensures AllUsable(old(Selected()))
      ensures var full := driver.config.estimate(Assembled(driver.config, fixed, old(state.summary), current,
                                                           old(Selected())));
              var reserve := if steps == 0 then budget.growthReserve else 0;
              reserve <= driver.config.limit
              && full as real <= (driver.config.limit - reserve) as real * driver.config.trigger ==>
                unchanged(this) && unchanged(state) && driver.sent == old(driver.sent)
      ensures r.Success? ==>
                && Valid(r.value)
                && AllUsable(kept) && HasCurrent(kept, current)
                && r.value == Assembled(driver.config, fixed, state.summary, current, kept)
                && (forall x :: x in answered ==> x in kept || x.seqNo in omitted || x.seqNo in state.sources)
                && driver.config.estimate(r.value) <= driver.config.limit
    {
      hide HistoryOk, CallsOk, AllValid, GroupsOf, Selection, EndsTurnLast, StreamOk, Ordered, Protocol.Valid;
      var config := driver.config;
      var usable := Usable(driver.stream);
      kept, omitted := [], [];
      HistorySelects(driver.stream, answered, current, state.coveredThrough, state.sources);
      var selected := Selection(usable, state.coveredThrough, state.sources);
      var reserve := if steps == 0 then budget.growthReserve else 0;
      var inputLimit := if config.limit < reserve then 0 else config.limit - reserve;
      var estimate := config.estimate(Assembled(config, fixed, state.summary, current, selected));
      if estimate as real > inputLimit as real * config.trigger {
        var _ := Compress(selected);
        selected := Selection(usable, state.coveredThrough, state.sources);
        HistorySelects(driver.stream, answered, current, state.coveredThrough, state.sources);
      }
      var trimmed, _ := Trim(config, fixed, state.summary, current, selected, inputLimit);
      if trimmed.Failure? {
        return Failure(BudgetExhausted), [], [];
      }
      kept, omitted := trimmed.value.0, trimmed.value.1;
      var messages := Assembled(config, fixed, state.summary, current, trimmed.value.0);
      AssembledIsValid(config, fixed, state.summary, current, trimmed.value.0);
      var checked := Validate(messages, false);
      assert checked.Success?;
      r := Success(messages);
    }

    /** At most once a turn, catch the working memory up. */
    method RefreshMemory()
      requires TurnOk()
      modifies this`calls, this`maintenanceCalls, this`reservedTokens, this`reservations, this`ledger, this`lastStep,
               this`memoryRefreshDone, driver`sent
      ensures TurnOk() && lastStep == old(lastStep)
      ensures !options.memoryEnabled || old(memoryRefreshDone) ==> unchanged(this) && driver.sent == old(driver.sent)
      ensures options.memoryEnabled ==> memoryRefreshDone
    {
      hide HistoryOk, CallsOk, AllValid, StreamOk, EndsTurnLast;
      if !options.memoryEnabled || memoryRefreshDone {
        return;
      }
      memoryRefreshDone := true;
      var due: bool := *;
      if due {
        var prompt: string, data: string := *, *;
        var request := [System(prompt), Human(data)];
        PlainIsSkipped(request);
        var _ := Call(request, MEMORY, "");
      }
    }

    // ------------------------------------------------------------ tools

    /** Record the result of the first pending call. */
    method Result(content: string)
      requires TurnOk() && pendingCalls != []
      modifies this`pendingCalls, this`answered, driver`stream
      ensures TurnOk() && pendingCalls == old(pendingCalls)[1..]
      ensures driver.stream == old(driver.stream) + [ResultOf(|old(driver.stream)|, old(pendingCalls)[0], content)]
      ensures Answered(driver.stream) == old(Answered(driver.stream)) + {old(pendingCalls)[0].id}
    {
      hide HistoryOk, CallsOk, AllValid, StreamOk, Answered;
      var call := pendingCalls[0];
      AnsweredOneMore(driver.stream, Record(|driver.stream| + 1, TOOL_RESULT, Tool(call.id, content)));
      HistoryResult(driver.stream, pendingCalls, answered, current, state.coveredThrough, state.sources, content);
      driver.Append(TOOL_RESULT, Tool(call.id, content));
      pendingCalls := pendingCalls[1..];
      if pendingCalls == [] {
        answered := Usable(driver.stream);
      }
    }

    /** Run the first pending call, which was counted before. Only a tool that ends the turn can do so,
        and never after a protocol error; what a tool answers is arbitrary. In a conversation a finish
        reply is carried out only if its text, against the evidence of this moment, was approved. */
    method Execute(protocolError: bool) returns (finished: bool)
      requires TurnOk() && ReviewsOk() && pendingCalls != [] && (batchError ==> protocolError)
      requires pendingCalls[0].id in reservedToolIds
      modifies this`pendingCalls, this`answered, this`applied, driver`stream, driver`summary, driver`coveredThrough,
               driver`sources
      ensures ReviewsOk() && WithinBudgets() && AllValid(driver.sent)
      ensures finished ==>
                && driver.Settled() && pendingCalls == []
                && !protocolError && EndsTurn(old(pendingCalls)[0].name)
                && (exists content :: driver.stream ==
                      old(driver.stream) + [ResultOf(|old(driver.stream)|, old(pendingCalls)[0], content)]
                      + [ReplyOf(|old(driver.stream)| + 1, content)])
      ensures finished && old(pendingCalls)[0].name == "finish_turn" ==>
                |applied| == |old(applied)| + 1 && applied[|old(applied)|].call == old(pendingCalls)[0]
      ensures !finished ==>
                && TurnOk() && pendingCalls == old(pendingCalls)[1..]
                && Answered(driver.stream) == old(Answered(driver.stream)) + {old(pendingCalls)[0].id}
                && (exists content :: driver.stream ==
                      old(driver.stream) + [ResultOf(|old(driver.stream)|, old(pendingCalls)[0], content)])
      ensures protocolError ==> applied == old(applied)
      ensures if finished then Answers(old(driver.stream), driver.stream) else Grew(old(driver.stream), driver.stream)
    {
      hide Answered, HistoryOk, CallsOk, AllValid, StreamOk, EndsTurnLast, Summarised, GivenByProvider, AllApproved;
      var call := pendingCalls[0];
      var ok: bool, content: string := *, *;
      if !protocolError && call.name == "finish_turn" {
        var evidence: string := *;
        var key := driver.config.reviewKey(call.args, evidence);
        if options.conversational && !(key in reviews && reviews[key]) {
          ok := false;
        } else {
          OneMoreApplied(applied, options.conversational, driver.config.reviewKey, reviews, Applied(call, evidence));
          applied := applied + [Applied(call, evidence)];
        }
      }
      finished := !protocolError && call.name in TERMINAL_TOOLS && ok;
      EndsWithLast(pendingCalls);
      Result(content);
      if finished {
        Finish(content);
      }
    }

    /** The public reply closes the turn; a summary made in it becomes the driver's. */
    method Finish(reply: string)
      requires TurnOk() && pendingCalls == []
      modifies driver`stream, driver`summary, driver`coveredThrough, driver`sources
      ensures driver.Settled() && driver.sent == old(driver.sent)
      ensures driver.stream == old(driver.stream) + [ReplyOf(|old(driver.stream)|, reply)]
      ensures compressed ==>
                && driver.summary == state.summary
                && driver.coveredThrough == state.coveredThrough && driver.sources == state.sources
      ensures !compressed ==> unchanged(driver`summary) && unchanged(driver`coveredThrough) && unchanged(driver`sources)
    {
      hide HistoryOk, CallsOk, AllValid, StreamOk, Summarised;
      HistoryReply(driver.stream, answered, current, state.coveredThrough, state.sources, reply);
      driver.Append(PUBLIC_REPLY, AI(reply, []));
      if compressed {
        driver.summary, driver.coveredThrough, driver.sources := state.summary, state.coveredThrough, state.sources;
      }
    }

    /** Answer every pending call, in order, with the reason, then reply. */
    method Stop(reason: string)
      requires TurnOk()
      modifies this`pendingCalls, this`answered, driver`stream, driver`summary, driver`coveredThrough, driver`sources
      ensures driver.Settled() && pendingCalls == [] && WithinBudgets()
      ensures driver.sent == old(driver.sent) && AllValid(driver.sent)
      ensures var refused := Refused(|old(driver.stream)|, old(pendingCalls), reason);
              driver.stream == old(driver.stream) + refused + [ReplyOf(|old(driver.stream)| + |refused|, reason)]
      ensures Answers(old(driver.stream), driver.stream)
    {
      hide HistoryOk, CallsOk, StreamOk, EndsTurnLast, Answered, Summarised;
      ghost var refused := Refused(|driver.stream|, pendingCalls, reason);
      while pendingCalls != []
        invariant TurnOk() && driver.sent == old(driver.sent)
        invariant driver.stream + Refused(|driver.stream|, pendingCalls, reason) == old(driver.stream) + refused
        decreases |pendingCalls|
      {
        RefusedOneByOne(driver.stream, pendingCalls, reason);
        Result(reason);
      }
      assert driver.stream == old(driver.stream) + refused;
      Finish(reason);
      RefusedAnswers(old(driver.stream), refused, |old(driver.stream)| + |refused|, reason);
    }

    /** A finish plan is published only after a review of its text, whatever happens to the review. A
        plan that cannot be read is refused without one. */
    method ReviewReply(call: Call) returns (r: Result<bool>)
      requires TurnOk() && ReviewsOk()
      modifies this`calls, this`maintenanceCalls, this`reservedTokens, this`reservations, this`ledger, this`lastStep,
               this`reviews, this`verdicts, this`repair, driver`sent
      ensures TurnOk() && ReviewsOk() && lastStep == old(lastStep)
      ensures r.Failure? ==> r.error in {BudgetExhausted, ProviderError}
      ensures r == Success(true) ==> exists evidence :: Approved(driver.config.reviewKey(call.args, evidence))
    {
      hide HistoryOk, CallsOk, AllValid, StreamOk, EndsTurnLast, GivenByProvider, AllApproved;
      var wellFormed: bool, evidence: string, unsafe: bool, refused: bool, answer: Answer := *, *, *, *, *;
      if !wellFormed {
        return Success(false);
      }
      var prompt: string, data: string := *, *;
      var key := driver.config.reviewKey(call.args, evidence);
      r := ReviewWith(key, unsafe, [System(prompt), Human(data)], refused, answer);
      assert r == Success(true) ==> Approved(driver.config.reviewKey(call.args, evidence));
    }

    predicate Approved(key: string)
      reads this`reviews
    {
      key in reviews && reviews[key]
    }

    /** The review of one text, asked for until a verdict is on record. A value error puts a
        rejection there, while a type or key error only fails the call and leaves nothing. */
    method ReviewWith(key: string, unsafe: bool, request: seq<Message>, refused: bool, answer: Answer)
      returns (r: Result<bool>)
      requires TurnOk() && ReviewsOk() && Plain(request)
      modifies this`calls, this`maintenanceCalls, this`reservedTokens, this`reservations, this`ledger, this`lastStep,
               this`reviews, this`verdicts, this`repair, driver`sent
      ensures TurnOk() && ReviewsOk() && lastStep == old(lastStep)
      // what is recorded stays, and a rejection on record asks for a repair
      ensures forall k :: k in old(reviews) ==> k in reviews && reviews[k] == old(reviews)[k]
      ensures key in reviews ==> reviews == old(reviews)[key := reviews[key]] && r == Success(reviews[key])
      ensures key !in reviews ==> reviews == old(reviews)
      ensures repair == (old(repair) || (key in reviews && !reviews[key]))
      ensures r == Success(true) ==> key in reviews && reviews[key]
      ensures r.Failure? ==> r.error in {BudgetExhausted, ProviderError}
      // a text on record, or an unsafe one, or a refused call
      ensures key in old(reviews) || unsafe || !old(Admits(request, REPLY_REVIEW, refused)) ==>
                ledger == old(ledger) && calls == old(calls) && driver.sent == old(driver.sent)
      ensures key !in old(reviews) && unsafe ==> r == Success(false) && key in reviews
      ensures key !in old(reviews) && !unsafe && !old(Admits(request, REPLY_REVIEW, refused)) ==>
                r == Failure(BudgetExhausted) && key !in reviews
      // an admitted call, by what the provider does
      ensures key !in old(reviews) && !unsafe && old(Admits(request, REPLY_REVIEW, refused)) ==>
                var used := if answer.Said? then answer.reply.tokens else None;
                && ledger == old(ledger) + [Entry(ReviewKey(key), Reservation(Reserve(request, REPLY_REVIEW), used))]
                && calls == old(calls) + 1
                && driver.sent == old(driver.sent) + [request]
                && (answer.Said? ==>
                      && r.Success?
                      && (r.value <==> answer.reply.verdict == Some(true) && answer.reply.calls == []
                                       && !answer.reply.invalidCalls))
                && (key in reviews <==> answer.Said? || answer.fault == VALUE_FAULT)
                && (answer == Raised(VALUE_FAULT) || answer == Raised(TYPE_FAULT) ==> r == Success(false))
                && (answer == Raised(BUDGET_FAULT) ==> r == Failure(BudgetExhausted))
                && (answer == Raised(OTHER_FAULT) ==> r == Failure(ProviderError))
    {
      hide HistoryOk, CallsOk, AllValid, StreamOk, EndsTurnLast, GivenByProvider, AllApproved, Admits, Reserve;
      if key !in reviews {
        var approved := false;
        if !unsafe {
          var verdict := AskReview(key, request, refused, answer);
          if verdict.Failure? {
            return Failure(verdict.error);
          }
          if verdict.value.None? {
            return Success(false);
          }
          approved := verdict.value.value;
        }
        Remember(key, approved, answer);
      }
      if !reviews[key] {
        repair := true;
      }
      r := Success(reviews[key]);
    }

    /** Put the verdict on a text on record. */
    method Remember(key: string, approved: bool, answer: Answer)
      requires TurnOk() && ReviewsOk() && key !in reviews && (approved ==> Approves(answer))
      modifies this`reviews, this`verdicts
      ensures TurnOk() && ReviewsOk() && reviews == old(reviews)[key := approved]
    {
      hide HistoryOk, CallsOk, AllValid, StreamOk, EndsTurnLast, GivenByProvider, AllApproved, Approves;
      OneMoreReview(reviews, verdicts, applied, options.conversational, driver.config.reviewKey, key, approved, answer);
      reviews := reviews[key := approved];
      verdicts := verdicts[key := answer];
    }

    /** The call of a review: the verdict to put on record, or none after a type or key error. */
    method AskReview(key: string, request: seq<Message>, refused: bool, answer: Answer)
      returns (verdict: Result<Option<bool>>)
      requires TurnOk() && Plain(request)
      modifies this`calls, this`maintenanceCalls, this`reservedTokens, this`reservations, this`ledger, this`lastStep,
               driver`sent
      ensures TurnOk() && lastStep == old(lastStep)
      ensures verdict == Success(Some(true)) ==> Approves(answer)
      ensures !old(Admits(request, REPLY_REVIEW, refused)) ==>
                verdict == Failure(BudgetExhausted) && unchanged(this) && driver.sent == old(driver.sent)
      ensures old(Admits(request, REPLY_REVIEW, refused)) ==>
                var used := if answer.Said? then answer.reply.tokens else None;
                && ledger == old(ledger) + [Entry(ReviewKey(key), Reservation(Reserve(request, REPLY_REVIEW), used))]
                && calls == old(calls) + 1
                && driver.sent == old(driver.sent) + [request]
                && (answer.Said? ==> verdict == Success(Some(Approves(answer))))
                && (verdict.Success? && verdict.value.Some? <==> answer.Said? || answer.fault == VALUE_FAULT)
                && (answer == Raised(VALUE_FAULT) ==> verdict == Success(Some(false)))
                && (answer == Raised(TYPE_FAULT) ==> verdict == Success(None))
                && (answer == Raised(BUDGET_FAULT) ==> verdict == Failure(BudgetExhausted))
                && (answer == Raised(OTHER_FAULT) ==> verdict == Failure(ProviderError))
    {
      hide HistoryOk, CallsOk, AllValid, StreamOk, EndsTurnLast, Admits;
      PlainIsSkipped(request);
      var reviewed := CallWith(request, REPLY_REVIEW, key, refused, answer);
      match reviewed
      case Failure(ValueError) => return Success(Some(false));
      case Failure(TypeError) => return Success(None);
      case Failure(error) => return Failure(error);
      case Success(reply) =>
        return Success(Some(reply.verdict == Some(true) && reply.calls == [] && !reply.invalidCalls));
    }

    // ------------------------------------------------------------ steps

    predicate IdsOk(reply: Reply)
      reads driver
    {
      && FreshCalls(reply.calls, {})
      && (forall i :: 0 <= i < |reply.calls| ==> |reply.calls[i].id| <= MAX_CALL_ID)
      && CallIds(reply.calls) !! Answered(driver.stream)
    }

    /** A rejected response becomes a candidate message without calls. */
    method Reject(note: string)
      requires TurnOk() && pendingCalls == [] && steps < budget.modelSteps
      modifies this`steps, this`repair, this`answered, driver`stream
      ensures TurnOk() && pendingCalls == [] && steps == old(steps) + 1 && repair
      ensures Grew(old(driver.stream), driver.stream)
    {
      steps := steps + 1;
      repair := true;
      Note(MODEL_CANDIDATE, AI(note, []));
    }

    /** Append a message that calls nothing. */
    method Note(kind: Kind, message: Message)
      requires TurnOk() && pendingCalls == [] && kind == MODEL_CANDIDATE && message.AI? && message.calls == []
      modifies this`answered, driver`stream
      ensures TurnOk() && pendingCalls == [] && Answered(driver.stream) == old(Answered(driver.stream))
      ensures Grew(old(driver.stream), driver.stream)
    {
      hide HistoryOk, CallsOk, AllValid, StreamOk, Answered;
      AnsweredOneMore(driver.stream, Record(|driver.stream| + 1, kind, message));
      HistoryNote(driver.stream, answered, current, state.coveredThrough, state.sources, message);
      driver.Append(kind, message);
      answered := Usable(driver.stream);
    }

    /** Take an accepted response in: its calls become pending, its text a candidate. */
    method Accept(reply: Reply)
      requires TurnOk() && pendingCalls == [] && steps < budget.modelSteps && IdsOk(reply)
      modifies this`steps, this`repair, this`batchError, this`pendingCalls, this`answered, driver`stream
      ensures TurnOk() && steps == old(steps) + 1 && pendingCalls == reply.calls && batchError == !BatchOk(reply.calls)
      ensures repair == (reply.calls == []) && Grew(old(driver.stream), driver.stream)
      ensures Answered(driver.stream) == old(Answered(driver.stream))
    {
      hide HistoryOk, CallsOk, AllValid, StreamOk, FreshCalls, CallIds, Answered;
      steps := steps + 1;
      batchError := BatchError(reply.calls);
      repair := reply.calls == [];
      if reply.calls == [] {
        Note(MODEL_CANDIDATE, AI(reply.content, []));
      } else {
        Pend(reply);
      }
    }

    /** Append a message that calls tools; the calls are pending from then on. */
    method Pend(reply: Reply)
      requires TurnOk() && pendingCalls == [] && reply.calls != [] && IdsOk(reply)
      requires batchError || EndsTurnLast(reply.calls)
      modifies this`pendingCalls, driver`stream
      ensures TurnOk() && pendingCalls == reply.calls
      ensures Answered(driver.stream) == old(Answered(driver.stream)) && Grew(old(driver.stream), driver.stream)
    {
      hide HistoryOk, CallsOk, AllValid, StreamOk, FreshCalls, CallIds, Answered, EndsTurnLast;
      AnsweredOneMore(driver.stream, Record(|driver.stream| + 1, TOOL_CALL, AI(reply.content, reply.calls)));
      HistoryCalls(driver.stream, answered, current, state.coveredThrough, state.sources, reply.content, reply.calls);
      driver.Append(TOOL_CALL, AI(reply.content, reply.calls));
      pendingCalls := reply.calls;
    }

    /** The internal tool envelope of a finish plan. */
    method StructuredFinish(content: string) returns (id: string, plan: string)
      ensures plan == content
    {
      id := *;
      plan := content;
    }

    /** What becomes of a response; `None` means that the loop goes on. */
    method Handle(response: Reply, purpose: Purpose) returns (end: Option<TurnEnd>)
      requires TurnOk() && pendingCalls == [] && steps < budget.modelSteps
      modifies this`steps, this`repair, this`batchError, this`endingJsonRequired, this`pendingCalls, this`answered,
               driver`stream, driver`summary, driver`coveredThrough, driver`sources
      ensures WithinBudgets() && AllValid(driver.sent)
      ensures end.None? ==> TurnOk() && steps == old(steps) + 1 && Grew(old(driver.stream), driver.stream)
      ensures end.Some? ==> driver.Settled() && pendingCalls == [] && Answers(old(driver.stream), driver.stream)
      // text where calls were asked for ends the turn, or asks for a finish plan
      ensures end.Some? <==> purpose != REACT_FINISH && response.calls == [] && old(repair) && !options.structuredFinish
      ensures endingJsonRequired ==
              (old(endingJsonRequired)
               || (purpose != REACT_FINISH && response.calls == [] && old(repair) && options.structuredFinish))
      // a finish plan becomes one call, and otherwise the calls are taken as they are or not at all
      ensures end.None? ==> repair == (pendingCalls == [])
      ensures end.None? && pendingCalls != [] ==> batchError == !BatchOk(pendingCalls)
      ensures purpose == REACT_FINISH && pendingCalls != [] ==>
                && response.calls == [] && !response.invalidCalls && response.planOk
                && |pendingCalls| == 1 && pendingCalls[0].name == "finish_turn"
                && pendingCalls[0].args == response.content
      ensures purpose != REACT_FINISH && end.None? ==>
                pendingCalls ==
                if !response.invalidCalls && old(IdsOk(response))
                   && (purpose == REACT_ENDING ==>
                         |response.calls| <= 1 && forall c :: c in response.calls ==> c.name == "finish_turn")
                then response.calls else []
    {
      hide HistoryOk, CallsOk, AllValid, StreamOk, FreshCalls, CallIds, Answered, EndsTurnLast, Summarised, BatchOk,
           IdsOk;
      var reply := response;
      if purpose == REACT_FINISH {
        if reply.calls != [] || reply.invalidCalls || !reply.planOk {
          Reject("finish plan rejected");
          return None;
        }
        var id, plan := StructuredFinish(reply.content);
        reply := reply.(content := "", calls := [Protocol.Call(id, "finish_turn", plan)]);
      }
      var issue := reply.invalidCalls;
      if purpose == REACT_ENDING && reply.calls != [] && (|reply.calls| != 1 || reply.calls[0].name != "finish_turn") {
        issue := true;
      }
      if reply.calls == [] && repair {
        if !options.structuredFinish {
          Stop("STRUCTURED_ENDING_REQUIRED");
          return Some(Stopped);
        }
        endingJsonRequired := true;
      }
      if issue || !IdsOk(reply) {
        Reject("tool call rejected");
        return None;
      }
      Accept(reply);
      end := None;
    }

    /** Which of the model's endings this step asks for. */
    function StepPurpose(): (purpose: Purpose)
      reads this
      ensures IsStep(purpose)
    {
      if options.structuredFinish && (endingJsonRequired || steps == budget.modelSteps - 1) then REACT_FINISH
      else if repair && options.endingTools then REACT_ENDING
      else REACT
    }

    /** Catch the memory up, build the messages of the step, and ask the model. */
    method Ask(fixed: seq<Message>, purpose: Purpose) returns (r: Result<Reply>)
      requires TurnOk() && pendingCalls == [] && Plain(fixed) && IsStep(purpose) && lastStep <= steps
      modifies this`calls, this`maintenanceCalls, this`reservedTokens, this`reservations, this`ledger, this`lastStep,
               this`compressed, this`memoryRefreshDone, driver`sent, state
      ensures TurnOk()
    {
      hide HistoryOk, CallsOk, AllValid, StreamOk, EndsTurnLast, Answered;
      RefreshMemory();
      var built, _, _ := Build(fixed);
      if built.Failure? {
        return Failure(BudgetExhausted);
      }
      r := Call(built.value, purpose, "");
    }

    /** One model step. Any exception of the provider but a budget refusal ends the turn at once. */
    method Step(fixed: seq<Message>) returns (r: Result<Option<TurnEnd>>)
      requires TurnOk() && pendingCalls == [] && steps < budget.modelSteps && Plain(fixed) && lastStep <= steps
      requires ReviewsOk()
      modifies this, driver, state
      ensures WithinBudgets() && AllValid(driver.sent) && ReviewsOk()
      ensures r == Success(None) ==>
                TurnOk() && steps == old(steps) + 1 && lastStep <= steps && Grew(old(driver.stream), driver.stream)
      ensures r.Success? && r.value.Some? ==>
                driver.Settled() && pendingCalls == [] && Answers(old(driver.stream), driver.stream)
      ensures r.Failure? ==> r == Failure(ProviderError) && StreamOk(driver.stream, [])
    {
      hide HistoryOk, CallsOk, AllValid, StreamOk, EndsTurnLast, Summarised, Answered, GivenByProvider, AllApproved,
           Grew, Answers, IdsOk, BatchOk, Refused, ResultOf, ReplyOf;
      var purpose := StepPurpose();
      var answer := Ask(fixed, purpose);
      if answer == Failure(BudgetExhausted) {
        Stop("AGENT_BUDGET_EXCEEDED");
        return Success(Some(Stopped));
      }
      if answer.Failure? {
        HistoryIsSettled(driver.stream, answered, current, state.coveredThrough, state.sources);
        return Failure(ProviderError);
      }
      var end := Handle(answer.value, purpose);
      r := Success(end);
    }

    /** One pending call: reserve it, have a finish reviewed, and run it. */
    method UseTool() returns (r: Result<Option<TurnEnd>>)
      requires TurnOk() && ReviewsOk() && pendingCalls != []
      modifies this, driver
      ensures WithinBudgets() && AllValid(driver.sent) && ReviewsOk()
      ensures r == Success(None) ==>
                && TurnOk() && steps == old(steps) && lastStep == old(lastStep) && |pendingCalls| < |old(pendingCalls)|
                && Grew(old(driver.stream), driver.stream)
      ensures r.Success? && r.value.Some? ==>
                driver.Settled() && pendingCalls == [] && Answers(old(driver.stream), driver.stream)
      ensures r.Failure? ==> r == Failure(ProviderError)
    {
      hide TurnOk, AllValid, WithinBudgets, GivenByProvider, AllApproved, Answered, Refused, ResultOf, ReplyOf,
           Approved;
      var call := pendingCalls[0];
      var counted := CountTool(call);
      if !counted {
        Stop("TOOL_BUDGET");
        return Success(Some(Stopped));
      }
      var error := Rejected(call);
      if error == Failure(BudgetExhausted) {
        Stop("MODEL_CALL_OR_TOKEN_BUDGET");
        return Success(Some(Stopped));
      }
      if error.Failure? {
        return Failure(ProviderError);
      }
      var finished := Execute(error.value);
      r := Success(if finished then Some(Replied) else None);
    }

    /** Whether the first pending call is refused unheard: in a bad batch, or without an approval for
        the finish of a conversation. */
    method Rejected(call: Call) returns (r: Result<bool>)
      requires TurnOk() && ReviewsOk()
      modifies this`calls, this`maintenanceCalls, this`reservedTokens, this`reservations, this`ledger, this`lastStep,
               this`reviews, this`verdicts, this`repair, driver`sent
      ensures TurnOk() && ReviewsOk() && WithinBudgets() && AllValid(driver.sent) && lastStep == old(lastStep)
      ensures r.Failure? ==> r.error in {BudgetExhausted, ProviderError}
      ensures batchError ==> r == Success(true)
      ensures r == Success(false) && call.name == "finish_turn" && options.conversational ==>
                exists evidence :: Approved(driver.config.reviewKey(call.args, evidence))
    {
      hide HistoryOk, CallsOk, AllValid, StreamOk, EndsTurnLast, GivenByProvider, AllApproved, Approved;
      if !batchError && call.name == "finish_turn" && options.conversational {
        var review := ReviewReply(call);
        return if review.Failure? then review else Success(!review.value);
      }
      r := Success(batchError);
    }

    /** Every call that is carried out is counted, once. */
    method CountTool(call: Call) returns (counted: bool)
      requires TurnOk()
      modifies this`tools, this`reservedToolIds
      ensures TurnOk()
      ensures counted <==> call.id in old(reservedToolIds) || old(tools) < budget.toolCalls
      ensures reservedToolIds == old(reservedToolIds) + if counted then {call.id} else {}
    {
      hide HistoryOk, CallsOk, AllValid, StreamOk, EndsTurnLast;
      if call.id !in reservedToolIds {
        if tools >= budget.toolCalls {
          return false;
        }
        tools := tools + 1;
        reservedToolIds := reservedToolIds + {call.id};
      }
      counted := true;
    }

    /** The loop ends: every round returns, or takes a model step, or answers a pending call. */
    method Run(fixed: seq<Message>) returns (r: Result<TurnEnd>)
      requires TurnOk() && ReviewsOk() && Plain(fixed) && lastStep <= steps
      modifies this, driver, state
      ensures r.Success? ==> driver.Settled() && pendingCalls == [] && Answers(old(driver.stream), driver.stream)
      ensures r.Failure? ==> r == Failure(ProviderError)
      ensures WithinBudgets() && AllValid(driver.sent) && ReviewsOk()
    {
      hide HistoryOk, CallsOk, AllValid, StreamOk, EndsTurnLast, Summarised, Grew, Answers;
      GrewNot(driver.stream);
      while true
        invariant TurnOk() && ReviewsOk() && lastStep <= steps && Grew(old(driver.stream), driver.stream)
        decreases budget.modelSteps - steps, |pendingCalls|
      {
        ghost var before := driver.stream;
        var outOfTime: bool, changed: bool := *, *;
        if outOfTime || changed {
          Stop("WALL_TIME");
          GrewTwice(old(driver.stream), before, driver.stream);
          return Success(Stopped);
        }
        var round: Result<Option<TurnEnd>>;
        if pendingCalls != [] {
          round := UseTool();
        } else if steps >= budget.modelSteps {
          Stop("MODEL_STEP_BUDGET");
          GrewTwice(old(driver.stream), before, driver.stream);
          return Success(Stopped);
        } else {
          round := Step(fixed);
        }
        GrewTwice(old(driver.stream), before, driver.stream);
        match round
        case Failure(e) => return Failure(e);
        case Success(Some(end)) => return Success(end);
        case Success(None) =>
      }
    }
  }

  // ---------------------------------------------------------------- a review asked for twice

  const SMALL := Budget(4, 4, 8, 1, 1000, 20, 30, 0)

  /** A response that asks to finish the turn. */
  function FinishCall(id: string): Reply {
    Reply("", [Protocol.Call(id, "finish_turn", "args")], false, None, true, None, None)
  }

  /** The calls of one round in which the model finishes with the same text and the review of that
      text ends in a type error. */
  function RoundEntries(step: nat): seq<Entry> {
    [Entry(StepKey(REACT, step), Reservation(30, None)), Entry(ReviewKey("text"), Reservation(40, None))]
  }

  predicate IsSmall(runtime: SellerAgentRuntime, request: seq<Message>) {
    && runtime.budget == SMALL
    && runtime.options == Options(true, false, false, false)
    && runtime.driver.config.estimate(request) == 10 <= runtime.driver.config.limit
  }

  lemma FinishIsInOrder(id: string)
    ensures BatchOk(FinishCall(id).calls)
  {
  }

  /** The model step of such a round. */
  method FinishAsked(runtime: SellerAgentRuntime, request: seq<Message>, id: string)
    requires runtime.TurnOk() && runtime.pendingCalls == [] && runtime.lastStep <= runtime.steps < 4
    requires IsSmall(runtime, request) && Valid(request) && |runtime.ledger| <= 4 && Total(runtime.ledger) <= 500
    requires 0 < |id| <= MAX_CALL_ID && id !in Answered(runtime.driver.stream)
    requires runtime.ReviewsOk()
    modifies runtime, runtime.driver
    ensures runtime.TurnOk() && runtime.pendingCalls == [Protocol.Call(id, "finish_turn", "args")]
    ensures runtime.steps == old(runtime.steps) + 1 && runtime.reviews == old(runtime.reviews)
    ensures runtime.ReviewsOk()
    ensures runtime.tools == old(runtime.tools) && runtime.reservedToolIds == old(runtime.reservedToolIds)
    ensures runtime.ledger == old(runtime.ledger) + [RoundEntries(runtime.steps)[0]]
    ensures runtime.lastStep <= runtime.steps && !runtime.batchError
    ensures Answered(runtime.driver.stream) == old(Answered(runtime.driver.stream))
  {
    hide HistoryOk, AllValid, StreamOk, Answered, CallsOk, EndsTurnLast, GivenByProvider, AllApproved, Grew,
         Protocol.Valid;
    runtime.CallsAreCounted();
    assert runtime.Admits(request, REACT, false);
    var response := runtime.CallWith(request, REACT, "", false, Said(FinishCall(id)));
    FinishIsInOrder(id);
    runtime.Accept(FinishCall(id));
  }

  /** Its pending call, which the loop answers with the error. */
  method FinishFails(runtime: SellerAgentRuntime, request: seq<Message>, id: string)
    requires runtime.TurnOk() && runtime.pendingCalls == [Protocol.Call(id, "finish_turn", "args")]
    requires IsSmall(runtime, request) && Plain(request) && |runtime.ledger| <= 5 && Total(runtime.ledger) <= 600
    requires "text" !in runtime.reviews && runtime.ReviewsOk() && |runtime.reservedToolIds| < 4
    modifies runtime, runtime.driver
    ensures runtime.TurnOk() && runtime.pendingCalls == []
    ensures runtime.steps == old(runtime.steps) && runtime.reviews == old(runtime.reviews)
    ensures runtime.ledger == old(runtime.ledger) + [RoundEntries(runtime.steps)[1]]
    ensures runtime.lastStep == old(runtime.lastStep)
    ensures runtime.ReviewsOk() && runtime.reservedToolIds == old(runtime.reservedToolIds) + {id}
    ensures Answered(runtime.driver.stream) == old(Answered(runtime.driver.stream)) + {id}
  {
    hide HistoryOk, AllValid, StreamOk, Answered, CallsOk, EndsTurnLast, GivenByProvider, AllApproved;
    var counted := runtime.CountTool(runtime.pendingCalls[0]);
    runtime.CallsAreCounted();
    assert runtime.Admits(request, REPLY_REVIEW, false);
    var review := runtime.ReviewWith("text", false, request, false, Raised(TYPE_FAULT));
    var finished := runtime.Execute(true);
  }

  lemma TwoMoreTotal(ledger: seq<Entry>, e: Entry)
    ensures Total(ledger + [e]) == Total(ledger) + Charge(e.reservation)
  {
    assert (ledger + [e])[..|ledger|] == ledger;
  }

  /** The turn of a buyer's first message, before anything was asked. */
  method FirstTurn(request: seq<Message>) returns (runtime: SellerAgentRuntime)
    ensures fresh(runtime) && fresh(runtime.driver)
    ensures runtime.TurnOk() && runtime.pendingCalls == [] && runtime.steps == 0 && runtime.lastStep == 0
    ensures IsSmall(runtime, request) && runtime.ledger == [] && runtime.reviews == map[]
    ensures runtime.ReviewsOk() && runtime.reservedToolIds == {}
    ensures Answered(runtime.driver.stream) == {}
  {
    hide StreamOk, CallsOk, Summarised, AllValid;
    var driver := new Driver(Config(1000, 0.5, _ => 10, (_, _, _) => "", (_, _) => "", "", (args, evidence) => args));
    TurnStarts([], driver.coveredThrough, driver.sources, "hello");
    driver.Append(BUYER_INPUT, Human("hello"));
    runtime := new SellerAgentRuntime(driver, SMALL, Options(true, false, false, false));
  }

  /** A turn in which the books differ: two such rounds. The second review is reserved under the key
      of the first, so four calls are charged and three reservations are kept. */
  method ReviewedTwice() returns (runtime: SellerAgentRuntime)
    ensures runtime.WithinBudgets() && runtime.ledger == RoundEntries(1) + RoundEntries(2)
    ensures runtime.reservedTokens == 140 && Kept(runtime.reservations) == 100
  {
    hide HistoryOk, AllValid, StreamOk, CallsOk, Summarised, Total, Latest, Answered, EndsTurnLast, Protocol.Valid;
    var request := [System(""), Human("")];
    RequestIsValid(request);
    BooksDiffer();
    runtime := FirstTurn(request);
    FinishAsked(runtime, request, "c1");
    assert runtime.ledger == [RoundEntries(1)[0]];
    FinishFails(runtime, request, "c1");
    assert runtime.ledger == RoundEntries(1);
    FinishAsked(runtime, request, "c2");
    assert runtime.ledger == RoundEntries(1) + [RoundEntries(2)[0]];
    FinishFails(runtime, request, "c2");
    runtime.CallsAreCounted();
    assert runtime.ledger == RoundEntries(1) + RoundEntries(2);
  }

  lemma RequestIsValid(request: seq<Message>)
    requires Plain(request)
    ensures Valid(request)
  {
    PlainIsSkipped(request);
  }

  lemma BooksDiffer()
    ensures Total([]) == 0 && Total([RoundEntries(1)[0]]) == 30 && Total(RoundEntries(1)) == 70
    ensures Total(RoundEntries(1) + [RoundEntries(2)[0]]) == 100
    ensures Total(RoundEntries(1) + RoundEntries(2)) == 140
    ensures Kept(Latest(RoundEntries(1) + RoundEntries(2))) == 100
  {
    var e1, e2, e3 := RoundEntries(1)[0], RoundEntries(1)[1], RoundEntries(2)[0];
    assert RoundEntries(1) == [e1, e2] && RoundEntries(1) + [e3] == [e1, e2, e3];
    assert RoundEntries(1) + RoundEntries(2) == [e1, e2, e3] + [e2];
    hide Total, Latest, Kept;
    TotalsOf(e1, e2, e3);
    LatestOf(e1, e2, e3);
    KeptOf(e1, e2, e3);
  }

  lemma TotalsOf(e1: Entry, e2: Entry, e3: Entry)
    ensures Total([]) == 0 && Total([e1]) == Charge(e1.reservation)
    ensures Total([e1, e2]) == Total([e1]) + Charge(e2.reservation)
    ensures Total([e1, e2, e3]) == Total([e1, e2]) + Charge(e3.reservation)
    ensures Total([e1, e2, e3] + [e2]) == Total([e1, e2, e3]) + Charge(e2.reservation)
  {
    assert [e1] == [] + [e1] && [e1, e2] == [e1] + [e2] && [e1, e2, e3] == [e1, e2] + [e3];
    TwoMoreTotal([], e1);
    TwoMoreTotal([e1], e2);
    TwoMoreTotal([e1, e2], e3);
    TwoMoreTotal([e1, e2, e3], e2);
  }

  /** A second call under the key of `e2` leaves three reservations. */
  lemma LatestOf(e1: Entry, e2: Entry, e3: Entry)
    requires e3.key != e2.key
    ensures Latest([e1, e2, e3] + [e2])
            == map[][e1.key := e1.reservation][e2.key := e2.reservation][e3.key := e3.reservation]
  {
    assert [e1][..0] == [] && [e1, e2][..1] == [e1] && [e1, e2, e3][..2] == [e1, e2];
    assert ([e1, e2, e3] + [e2])[..3] == [e1, e2, e3];
    assert Latest([]) == map[] && Latest([e1]) == map[][e1.key := e1.reservation];
    assert Latest([e1, e2]) == map[][e1.key := e1.reservation][e2.key := e2.reservation];
  }

  lemma KeptOf(e1: Entry, e2: Entry, e3: Entry)
    requires e1.key != e2.key && e1.key != e3.key && e2.key != e3.key
    ensures Kept(map[][e1.key := e1.reservation][e2.key := e2.reservation][e3.key := e3.reservation])
            == Charge(e1.reservation) + Charge(e2.reservation) + Charge(e3.reservation)
  {
    KeptWith(map[], e1.key, e1.reservation);
    KeptWith(map[][e1.key := e1.reservation], e2.key, e2.reservation);
    KeptWith(map[][e1.key := e1.reservation][e2.key := e2.reservation], e3.key, e3.reservation);
  }

  // ---------------------------------------------------------------- turns and episodes

  /** One turn: the buyer's message, then either a deterministic reply or the agent loop. */
  method RunTurn(driver: Driver, budget: Budget, options: Options, text: string, fixed: seq<Message>)
    returns (r: Result<TurnEnd>)
    requires driver.Settled() && Plain(fixed)
    modifies driver
    ensures r.Success? ==> driver.Settled()
    ensures r.Success? ==>
              Answers(old(driver.stream) + [Record(|old(driver.stream)| + 1, BUYER_INPUT, Human(text))], driver.stream)
    ensures r.Failure? ==> r == Failure(ProviderError)
    ensures AllValid(driver.sent)
  {
    hide StreamOk, Summarised, AllValid;
    TurnStarts(driver.stream, driver.coveredThrough, driver.sources, text);
    driver.Append(BUYER_INPUT, Human(text));
    var deterministic: bool, reply: string := *, *;
    if deterministic {
      EventAndReply(driver.stream, driver.coveredThrough, driver.sources, reply);
      driver.Append(RUNTIME_EVENT, System("route"));
      driver.Append(PUBLIC_REPLY, AI(reply, []));
      return Success(Replied);
    }
    var runtime := new SellerAgentRuntime(driver, budget, options);
    r := runtime.Run(fixed);
  }

  /** A seller's answer that came in between two turns is announced in public. */
  method Notify(driver: Driver, text: string)
    requires driver.Settled()
    modifies driver`stream
    ensures driver.Settled() && driver.sent == old(driver.sent)
    ensures driver.stream ==
            old(driver.stream) + [Record(|old(driver.stream)| + 1, APPROVAL_NOTIFICATION, AI(text, []))]
  {
    hide StreamOk, Summarised, AllValid;
    NotificationSettles(driver.stream, driver.coveredThrough, driver.sources, text);
    driver.Append(APPROVAL_NOTIFICATION, AI(text, []));
  }

  /** Any conversation, whatever the buyer and the model say, with or without an announcement after
      each turn: every message list that reaches the model is a valid one. A provider failure ends
      the conversation. */
  method RunConversation(driver: Driver, budget: Budget, options: Options, texts: seq<string>, fixed: seq<Message>)
    returns (turns: nat, failed: bool)
    requires driver.Settled() && Plain(fixed)
    modifies driver
    ensures if failed then turns < |texts| else turns == |texts| && driver.Settled()
    ensures forall i :: 0 <= i < |driver.sent| ==> Valid(driver.sent[i])
  {
    turns, failed := 0, false;
    while turns < |texts|
      invariant turns <= |texts| && driver.Settled()
    {
      var r := RunTurn(driver, budget, options, texts[turns], fixed);
      if r.Failure? {
        return turns, true;
      }
      var notified: bool, notification: string := *, *;
      if notified {
        Notify(driver, notification);
      }
      turns := turns + 1;
    }
  }

  lemma NotificationSettles(stream: seq<Record>, covered: nat, sources: set<nat>, text: string)
    ensures var stream' := stream + [Record(|stream| + 1, APPROVAL_NOTIFICATION, AI(text, []))];
            StreamOk(stream, []) && Summarised(Usable(stream), covered, sources) && covered <= |stream| ==>
              StreamOk(stream', []) && Summarised(Usable(stream'), covered, sources)
  {
    var r := Record(|stream| + 1, APPROVAL_NOTIFICATION, AI(text, []));
    if StreamOk(stream, []) && Summarised(Usable(stream), covered, sources) && covered <= |stream| {
      AppendPlain(stream, r);
      AppendKeepsSummary(stream, r, covered, sources);
    }
  }

  lemma TurnStarts(stream: seq<Record>, covered: nat, sources: set<nat>, text: string)
    ensures var stream' := stream + [Record(|stream| + 1, BUYER_INPUT, Human(text))];
            StreamOk(stream, []) && Summarised(Usable(stream), covered, sources) && covered <= |stream| ==>
              StreamOk(stream', []) && Summarised(Usable(stream'), covered, sources) && |stream'| !in sources
  {
    var r := Record(|stream| + 1, BUYER_INPUT, Human(text));
    if StreamOk(stream, []) && Summarised(Usable(stream), covered, sources) && covered <= |stream| {
      AppendPlain(stream, r);
      AppendKeepsSummary(stream, r, covered, sources);
      UsableAreRecords(stream);
    }
  }

  lemma EventAndReply(stream: seq<Record>, covered: nat, sources: set<nat>, reply: string)
    ensures var stream' := stream + [Record(|stream| + 1, RUNTIME_EVENT, System("route"))];
            var stream'' := stream' + [Record(|stream'| + 1, PUBLIC_REPLY, AI(reply, []))];
            StreamOk(stream, []) && Summarised(Usable(stream), covered, sources) && covered <= |stream| ==>
              StreamOk(stream'', []) && Summarised(Usable(stream''), covered, sources)
  {
    var event := Record(|stream| + 1, RUNTIME_EVENT, System("route"));
    var stream' := stream + [event];
    var answer := Record(|stream'| + 1, PUBLIC_REPLY, AI(reply, []));
    if StreamOk(stream, []) && Summarised(Usable(stream), covered, sources) && covered <= |stream| {
      AppendPlain(stream, event);
      AppendKeepsSummary(stream, event, covered, sources);
      AppendPlain(stream', answer);
      AppendKeepsSummary(stream', answer, covered, sources);
    }
  }

  lemma AppendKeepsSummary(stream: seq<Record>, r: Record, covered: nat, sources: set<nat>)
    requires StreamOk(stream, []) && StreamOk(stream + [r], []) && r.seqNo == |stream| + 1 && covered <= |stream|
    requires Summarised(Usable(stream), covered, sources)
    ensures Summarised(Usable(stream + [r]), covered, sources)
  {
    UsableInTwo(stream, [r]);
    NumberedIsOrdered(stream + [r]);
    UsableAreRecords([r]);
    CoversLater(Usable(stream), Usable([r]), covered, sources);
  }

  // ---------------------------------------------------------------- lemmas of the loop

  lemma AnsweredOneMore(stream: seq<Record>, r: Record)
    ensures Answered(stream + [r]) ==
            Answered(stream) + if r.kind == TOOL_RESULT && r.message.Tool? then {r.message.callId} else {}
  {
    assert forall x :: x in stream + [r] <==> x in stream || x == r;
  }

  lemma SentIsValid(sent: seq<seq<Message>>, messages: seq<Message>)
    requires Valid(messages)
    ensures AllValid(sent) ==> AllValid(sent + [messages])
  {
  }

  lemma CurrentIsUsable(stream: seq<Record>)
    requires StreamOk(stream, []) && stream != [] && stream[|stream| - 1].kind == BUYER_INPUT
    ensures HasCurrent(Usable(stream), |stream|)
  {
    UsableAreRecords(stream);
    var r := stream[|stream| - 1];
    assert r in stream && r in Usable(stream) && r.seqNo == |stream|;
  }

  lemma HistoryIsSettled(stream: seq<Record>, answered: seq<Record>, current: nat, covered: nat, sources: set<nat>)
    ensures HistoryOk(stream, [], answered, current, covered, sources) ==>
                StreamOk(stream, []) && answered == Usable(stream)
  {
  }

  /** What is selected from a settled history: a valid list with the current input in it, which
      leaves out only what is summarised. */
  lemma HistorySelects(stream: seq<Record>, answered: seq<Record>, current: nat, covered: nat, sources: set<nat>)
    ensures var selected := Selection(answered, covered, sources);
            HistoryOk(stream, [], answered, current, covered, sources) ==>
              && answered == Usable(stream)
              && AllUsable(selected) && Ordered(selected) && Valid(Msgs(selected)) && HasCurrent(selected, current)
              && (forall x :: x in answered ==> x in selected || x.seqNo in sources)
  {
    if HistoryOk(stream, [], answered, current, covered, sources) {
      NumberedIsOrdered(stream);
      SelectionIsGrouped(answered, current, covered, sources);
      WithoutAreRecords(answered, sources);
      ExchangesRead(GroupsOf(Selection(answered, covered, sources)), {});
    }
  }

  lemma HistoryAbsorbs(stream: seq<Record>, answered: seq<Record>, current: nat, covered: nat, sources: set<nat>,
          taken: nat)
    ensures HistoryOk(stream, [], answered, current, covered, sources)
            && taken <= |GroupsOf(Selection(answered, covered, sources))|
            && Flatten(Older(GroupsOf(Selection(answered, covered, sources))[..taken], current)) != []
            ==>
              var earlier := Flatten(Older(GroupsOf(Selection(answered, covered, sources))[..taken], current));
              && current > 0
              && NewCoverage(covered, current, earlier) < current
              && HistoryOk(stream, [], answered, current, NewCoverage(covered, current, earlier),
                             SeqSet(earlier) + sources)
  {
    if HistoryOk(stream, [], answered, current, covered, sources)
       && taken <= |GroupsOf(Selection(answered, covered, sources))|
       && Flatten(Older(GroupsOf(Selection(answered, covered, sources))[..taken], current)) != []
    {
      NumberedIsOrdered(stream);
      CoverageGrows(answered, current, covered, sources, taken);
    }
  }

  lemma HistoryResult(stream: seq<Record>, pending: seq<Call>, answered: seq<Record>, current: nat, covered: nat,
                      sources: set<nat>, content: string)
    requires pending != []
    ensures var stream' := stream + [Record(|stream| + 1, TOOL_RESULT, Tool(pending[0].id, content))];
            HistoryOk(stream, pending, answered, current, covered, sources) ==>
              HistoryOk(stream', pending[1..], if pending[1..] == [] then Usable(stream') else
                        answered, current, covered, sources)
  {
    var r := Record(|stream| + 1, TOOL_RESULT, Tool(pending[0].id, content));
    if HistoryOk(stream, pending, answered, current, covered, sources) {
      AppendResult(stream, r, pending);
      UsableInTwo(stream, [r]);
      if pending[1..] == [] {
        CatchUp(stream + [r], answered, current, covered, sources);
      }
    }
  }

  lemma HistoryNote(stream: seq<Record>, answered: seq<Record>, current: nat, covered: nat, sources: set<nat>,
          message: Message)
    requires message.AI? && message.calls == []
    ensures var stream' := stream + [Record(|stream| + 1, MODEL_CANDIDATE, message)];
            HistoryOk(stream, [], answered, current, covered, sources) ==>
              HistoryOk(stream', [], Usable(stream'), current, covered, sources)
  {
    var r := Record(|stream| + 1, MODEL_CANDIDATE, message);
    if HistoryOk(stream, [], answered, current, covered, sources) {
      AppendPlain(stream, r);
      UsableInTwo(stream, [r]);
      CatchUp(stream + [r], answered, current, covered, sources);
    }
  }

  lemma HistoryCalls(stream: seq<Record>, answered: seq<Record>, current: nat, covered: nat, sources: set<nat>,
                     content: string, calls: seq<Call>)
    requires calls != []
    ensures var stream' := stream + [Record(|stream| + 1, TOOL_CALL, AI(content, calls))];
            HistoryOk(stream, [], answered, current, covered, sources) && FreshCalls(calls, {})
            && CallIds(calls) !! Answered(stream) ==>
              HistoryOk(stream', calls, answered, current, covered, sources)
  {
    var r := Record(|stream| + 1, TOOL_CALL, AI(content, calls));
    if HistoryOk(stream, [], answered, current, covered, sources)
         && FreshCalls(calls, {}) && CallIds(calls) !! Answered(stream) {
      AppendCalls(stream, r, calls);
      UsableInTwo(stream, [r]);
    }
  }

  lemma HistoryReply(stream: seq<Record>, answered: seq<Record>, current: nat, covered: nat, sources: set<nat>,
          reply: string)
    ensures var stream' := stream + [Record(|stream| + 1, PUBLIC_REPLY, AI(reply, []))];
            HistoryOk(stream, [], answered, current, covered, sources) ==>
              StreamOk(stream', []) && Summarised(Usable(stream'), covered, sources)
  {
    var r := Record(|stream| + 1, PUBLIC_REPLY, AI(reply, []));
    if HistoryOk(stream, [], answered, current, covered, sources) {
      AppendPlain(stream, r);
      UsableInTwo(stream, [r]);
      CatchUp(stream + [r], answered, current, covered, sources);
    }
  }

  /** What follows the current input in an ordered stream is past the coverage cursor. */
  lemma LaterIsUncovered(before: seq<Record>, more: seq<Record>, current: nat, covered: nat)
    requires Ordered(before + more) && HasCurrent(before, current) && covered < current
    ensures forall n :: n in more ==> covered < n.seqNo
  {
    var c :| c in before && c.seqNo == current && c.kind == BUYER_INPUT;
    forall n | n in more ensures covered < n.seqNo {
      var i :| 0 <= i < |before| && before[i] == c;
      var j :| 0 <= j < |more| && more[j] == n;
      assert (before + more)[i] == c && (before + more)[|before| + j] == n;
    }
  }

  /** The stream is settled again: what was covered still is. */
  lemma CatchUp(stream: seq<Record>, before: seq<Record>, current: nat, covered: nat, sources: set<nat>)
    requires StreamOk(stream, []) && before <= Usable(stream) && AllUsable(before) && Valid(Msgs(before))
    requires Covers(before, current, covered, sources) && HasCurrent(before, current)
    ensures Covers(Usable(stream), current, covered, sources) && HasCurrent(Usable(stream), current)
  {
    NumberedIsOrdered(stream);
    var usable := Usable(stream);
    var more := usable[|before|..];
    assert usable == before + more;
    hide Ordered, Summarised, Usable, ResultsMarked, Numbered;
    LaterIsUncovered(before, more, current, covered);
    CoversLater(before, more, covered, sources);
  }
}
