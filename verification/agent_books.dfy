/** The token books of one turn of the agent loop: which calls were admitted under which key, and
    what the program keeps of them (backend/app/agent/runtime.py). */
module AgentBooks {
  import opened Outcomes

  datatype Purpose = REACT | REACT_ENDING | REACT_FINISH | SUMMARY | MEMORY | REPLY_REVIEW

  /** The key under which a call is reserved: the number of its model step, the hash of the reviewed
      text, or the number of the call. */
  datatype Key =
    | StepKey(purpose: Purpose, step: nat)
    | ReviewKey(hash: string)
    | CallKey(purpose: Purpose, call: nat)

  /** What was reserved for a call and, once reconciled, what it used. */
  datatype Reservation = Reservation(reserved: nat, actual: Option<nat>)

  /** One admitted call. */
  datatype Entry = Entry(key: Key, reservation: Reservation)

  predicate IsStep(purpose: Purpose) {
    purpose.REACT? || purpose.REACT_ENDING? || purpose.REACT_FINISH?
  }

  function KeyOf(purpose: Purpose, review: string, steps: nat, calls: nat): Key {
    if IsStep(purpose) then StepKey(purpose, steps + 1)
    else if purpose == REPLY_REVIEW then ReviewKey(review)
    else CallKey(purpose, calls + 1)
  }

  function Charge(r: Reservation): nat {
    if r.actual.Some? && r.actual.value > r.reserved then r.actual.value else r.reserved
  }

  function Total(ledger: seq<Entry>): nat {
    if ledger == [] then 0 else Total(ledger[..|ledger| - 1]) + Charge(ledger[|ledger| - 1].reservation)
  }

  /** Each call was admitted within the total. */
  predicate Admitted(ledger: seq<Entry>, total: nat) {
    forall i :: 0 <= i < |ledger| ==> Total(ledger[..i]) + ledger[i].reservation.reserved <= total
  }

  lemma AdmitOne(ledger: seq<Entry>, total: nat, e: Entry)
    requires Admitted(ledger, total) && Total(ledger) + e.reservation.reserved <= total
    ensures Admitted(ledger + [e], total) && Total(ledger + [e]) == Total(ledger) + Charge(e.reservation)
  {
    var ledger' := ledger + [e];
    assert ledger'[..|ledger|] == ledger;
    forall i | 0 <= i < |ledger'| ensures Total(ledger'[..i]) + ledger'[i].reservation.reserved <= total {
      assert ledger'[..i] == ledger[..i];
    }
  }

  // ---------------------------------------------------------------- keys

  /** A call number is used once; step numbers do not pass the last one; each call reserves at least
      its output. */
  predicate KeysOk(ledger: seq<Entry>, lastStep: nat, output: nat) {
    forall i :: 0 <= i < |ledger| ==>
      && (ledger[i].key.CallKey? ==> ledger[i].key.call == i + 1)
      && (ledger[i].key.StepKey? ==> ledger[i].key.step <= lastStep)
      && ledger[i].reservation.reserved >= output
  }

  /** No key but that of a review is ever used for a second call. */
  predicate OnlyReviewsRecur(ledger: seq<Entry>) {
    forall i, j :: 0 <= i < j < |ledger| && ledger[i].key == ledger[j].key ==> ledger[i].key.ReviewKey?
  }

  lemma LatestWith(ledger: seq<Entry>, e: Entry)
    ensures Latest(ledger + [e]) == Latest(ledger)[e.key := e.reservation]
  {
    assert (ledger + [e])[..|ledger|] == ledger;
  }

  /** The key of the next call: of a later model step than any before, of a review, or of that call. */
  predicate NextKey(key: Key, calls: nat, before: nat, lastStep: nat) {
    && before <= lastStep
    && (key.StepKey? ==> before < key.step <= lastStep)
    && (key.CallKey? ==> key.call == calls + 1)
  }

  lemma OneMoreKey(ledger: seq<Entry>, before: nat, lastStep: nat, output: nat, e: Entry)
    requires NextKey(e.key, |ledger|, before, lastStep) && e.reservation.reserved >= output
    ensures KeysOk(ledger, before, output) && OnlyReviewsRecur(ledger) ==>
              KeysOk(ledger + [e], lastStep, output) && OnlyReviewsRecur(ledger + [e])
  {
  }

  // ---------------------------------------------------------------- what the program keeps

  /** One reservation per key: a second call under a key replaces the first. */
  function Latest(ledger: seq<Entry>): map<Key, Reservation> {
    if ledger == [] then map[]
    else
      var last := ledger[|ledger| - 1];
      Latest(ledger[..|ledger| - 1])[last.key := last.reservation]
  }

  /** The sum over what is kept. */
  ghost function Kept(reservations: map<Key, Reservation>): nat {
    if reservations == map[] then 0
    else
      var key :| key in reservations;
      Charge(reservations[key]) + Kept(reservations - {key})
  }

  lemma {:induction false} KeptWithout(reservations: map<Key, Reservation>, key: Key)
    requires key in reservations
    ensures Kept(reservations) == Charge(reservations[key]) + Kept(reservations - {key})
    decreases |reservations|
  {
    var first :| first in reservations && Kept(reservations) ==
                                          Charge(reservations[first]) + Kept(reservations - {first});
    if first != key {
      KeptWithout(reservations - {first}, key);
      KeptWithout(reservations - {key}, first);
      assert reservations - {first} - {key} == reservations - {key} - {first};
    }
  }

  lemma KeptWith(reservations: map<Key, Reservation>, key: Key, r: Reservation)
    ensures Kept(reservations[key := r]) ==
            Charge(r) + Kept(reservations) - if key in reservations then Charge(reservations[key]) else 0
  {
    KeptWithout(reservations[key := r], key);
    if key in reservations {
      KeptWithout(reservations, key);
      assert reservations[key := r] - {key} == reservations - {key};
    } else {
      assert reservations[key := r] - {key} == reservations;
    }
  }

  /** What the replaced reservations had charged. */
  function Replaced(ledger: seq<Entry>): nat {
    if ledger == [] then 0
    else
      var front := ledger[..|ledger| - 1];
      var key := ledger[|ledger| - 1].key;
      Replaced(front) + if key in Latest(front) then Charge(Latest(front)[key]) else 0
  }

  predicate NoKeyTwice(ledger: seq<Entry>) {
    forall i, j :: 0 <= i < j < |ledger| ==> ledger[i].key != ledger[j].key
  }

  lemma {:induction false} LatestHas(ledger: seq<Entry>, key: Key)
    ensures key in Latest(ledger) <==> exists i :: 0 <= i < |ledger| && ledger[i].key == key
    ensures key in Latest(ledger) ==> exists i :: 0 <= i < |ledger| && Latest(ledger)[key] == ledger[i].reservation
  {
    if ledger != [] {
      var front := ledger[..|ledger| - 1];
      LatestHas(front, key);
      assert forall i :: 0 <= i < |front| ==> front[i] == ledger[i];
    }
  }

  /** Charged is what is kept, and what was replaced. */
  lemma {:induction false} ChargedIsKeptAndReplaced(ledger: seq<Entry>)
    ensures Total(ledger) == Kept(Latest(ledger)) + Replaced(ledger)
  {
    if ledger != [] {
      var front := ledger[..|ledger| - 1];
      var last := ledger[|ledger| - 1];
      ChargedIsKeptAndReplaced(front);
      KeptWith(Latest(front), last.key, last.reservation);
    }
  }

  /** When every call reserves something, nothing was replaced exactly if no key was used twice. */
  lemma {:induction false} NothingReplaced(ledger: seq<Entry>)
    requires forall i :: 0 <= i < |ledger| ==> ledger[i].reservation.reserved > 0
    ensures Replaced(ledger) == 0 <==> NoKeyTwice(ledger)
  {
    if ledger != [] {
      var front := ledger[..|ledger| - 1];
      var key := ledger[|ledger| - 1].key;
      assert forall i :: 0 <= i < |front| ==> front[i] == ledger[i];
      NothingReplaced(front);
      LatestHas(front, key);
    }
  }

  /** The tokens charged are the sum over the reservations that the program keeps exactly if no
      review was asked for twice under one key. */
  lemma BalancedUnlessReviewedTwice(ledger: seq<Entry>, lastStep: nat, output: nat)
    requires KeysOk(ledger, lastStep, output) && OnlyReviewsRecur(ledger) && output > 0
    ensures Total(ledger) == Kept(Latest(ledger)) <==>
              forall i, j :: 0 <= i < j < |ledger| && ledger[i].key.ReviewKey? ==> ledger[i].key != ledger[j].key
    ensures Kept(Latest(ledger)) <= Total(ledger)
  {
    ChargedIsKeptAndReplaced(ledger);
    NothingReplaced(ledger);
  }

  /** Reconciling the last call. */
  lemma ReconcileLast(ledger: seq<Entry>, actual: nat)
    requires ledger != [] && ledger[|ledger| - 1].reservation.actual.None?
    ensures var last := ledger[|ledger| - 1];
            var r := last.reservation.(actual := Some(actual));
            var ledger' := ledger[|ledger| - 1 := last.(reservation := r)];
            && ledger' == ledger[..|ledger| - 1] + [last.(reservation := r)]
            && Total(ledger') == Total(ledger) - last.reservation.reserved + Charge(r)
            && last.key in Latest(ledger) && Latest(ledger)[last.key] == last.reservation
            && Latest(ledger') == Latest(ledger)[last.key := r]
  {
    var last := ledger[|ledger| - 1];
    var r := last.reservation.(actual := Some(actual));
    var ledger' := ledger[|ledger| - 1 := last.(reservation := r)];
    assert ledger'[..|ledger| - 1] == ledger[..|ledger| - 1];
  }
}
