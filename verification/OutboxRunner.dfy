/**
 * The atomic updates of one run of the outbox runner, and what they promise:
 * every selected submission is legal, and the check made before broadcasting
 * is enough for the acceptance to be recorded afterwards.
 */
module OutboxRunner {
  import opened Common
  import opened Sequences
  import opened Rotation
  import opened OutboxTypes
  import opened OutboxOps

  // ----- The updates

  /** The first update: recover interrupted submissions, then choose the endpoint to inspect. */
  function FirstUpdate(s: State, now: Date): (r: (State, Option<string>)) {
    NextEndpoint(RecoverInterrupted(s, now))
  }

  /** What the selecting update does before it selects. */
  function Prepare(s: State, endpoint: string, height: U64, verifyProofs: bool, now: Date): State {
    var s1 := ExpireItems(s, height, endpoint, now);
    var s2 := MarkNeedingResign(s1, height, endpoint, now);
    if verifyProofs then s2 else MarkProofReady(s2, height, endpoint, now).0
  }

  datatype Selected = Selected(state: State, selection: Option<Selection>)

  /** The selecting update: expire, mark, select one due item, check its peers and begin the submission. */
  function SelectUpdate(s: State, endpoint: string, height: U64, verifyProofs: bool, attemptId: string, now: Date)
    : (r: Result<Selected, OutboxError>)
  {
    var (s', selection) := SelectDue(Prepare(s, endpoint, height, verifyProofs, now), height, Some(endpoint), now);
    if selection.None? then Ok(Selected(s', None))
    else
      var itemId := selection.value.item.itemId;
      match ValidateRescheduling(s', itemId, height)
      case Err(e) => Err(e)
      case Ok(_) =>
        match BeginSubmission(s', itemId, attemptId, now)
        case Err(e) => Err(e)
        case Ok(s'') => Ok(Selected(s'', selection))
  }

  /** The update after an accepting response. */
  function AcceptUpdate(s: State, selection: Selection, response: SendResponse, height: U64, now: Date,
                        random: Randomness)
    : (r: Result<State, OutboxError>)
    requires RandomnessFits(s, selection.item.itemId, height, random)
  {
    match RecordAccepted(s, selection.item.itemId, response.errorCode != 0, height, response.errorCode,
                         response.errorMessage, now, random)
    case Err(e) => Err(e)
    case Ok(s') => Ok(MarkSent(s', selection.batchId, now))
  }

  // ----- What a run without a selection reports

  /** The batch has something to do at this height: an armed item to send, or a proof to announce. */
  predicate Acts(b: Batch, height: U64) {
    || (exists k :: 0 <= k < |b.items| && b.items[k].status == Armed && b.items[k].scheduledHeight == height)
    || (b.armedAt.Some? && b.AwaitsProofReady() && b.proofPendingAt.None? && b.nextProofHeight == Some(height))
  }

  function Earliest(a: Option<U64>, b: Option<U64>): Option<U64> {
    if a.None? then b else if b.None? || a.value <= b.value then a else b
  }

  function FirstArmedHeight(items: seq<Item>): (r: Option<U64>)
    ensures r.Some? ==> exists k :: 0 <= k < |items| && items[k].status == Armed && items[k].scheduledHeight == r.value
    ensures forall k :: 0 <= k < |items| && items[k].status == Armed ==> r.Some? && r.value <= items[k].scheduledHeight
  {
    if items == [] then None
    else
      var last := |items| - 1;
      assert forall k :: 0 <= k < last ==> items[k] == items[..last][k];
      Earliest(FirstArmedHeight(items[..last]), if items[last].status == Armed then Some(items[last].scheduledHeight)
               else None)
  }

  function BatchActionHeight(b: Batch): (r: Option<U64>)
    ensures r.Some? ==> Acts(b, r.value)
    ensures forall h :: Acts(b, h) ==> r.Some? && r.value <= h
  {
    Earliest(FirstArmedHeight(b.items),
             if b.armedAt.Some? && b.AwaitsProofReady() && b.proofPendingAt.None? then b.nextProofHeight else None)
  }

  /** `nextActionHeight`: the least height at which a batch of the endpoint has something to do. */
  function NextActionHeight(batches: seq<Batch>, endpoint: string): (r: Option<U64>)
    ensures r.Some? ==> exists i :: 0 <= i < |batches| && batches[i].url == endpoint && Acts(batches[i], r.value)
    ensures forall i, h :: 0 <= i < |batches| && batches[i].url == endpoint && Acts(batches[i], h) ==>
              r.Some? && r.value <= h
  {
    if batches == [] then None
    else
      var last := |batches| - 1;
      assert forall i :: 0 <= i < last ==> batches[i] == batches[..last][i];
      Earliest(NextActionHeight(batches[..last], endpoint),
               if batches[last].url == endpoint then BatchActionHeight(batches[last]) else None)
  }

  /** Some item was found retired at this very height. */
  predicate RetiredAt(receipts: seq<Receipt>, height: U64) {
    exists m :: 0 <= m < |receipts| && (receipts[m].outcome == Expired || receipts[m].outcome == NeedsResign)
                && receipts[m].remoteHeight == height
  }

  // ----- What selection finds

  lemma {:induction false} DueScopesMember(batches: seq<Batch>, height: U64, endpoint: Option<string>, date: Date,
                                           scope: string)
    ensures scope in DueScopes(batches, height, endpoint, date) <==>
            exists i :: 0 <= i < |batches| && Selectable(batches[i], height, endpoint, date)
                && batches[i].ScopeKey() == scope
  {
    if batches != [] {
      DueScopesMember(batches[1..], height, endpoint, date, scope);
      assert forall i :: 1 <= i < |batches| ==> batches[i] == batches[1..][i - 1];
      if exists i :: 0 <= i < |batches[1..]| && Selectable(batches[1..][i], height, endpoint, date)
                     && batches[1..][i].ScopeKey() == scope {
        var i :| 0 <= i < |batches[1..]| && Selectable(batches[1..][i], height, endpoint, date)
                 && batches[1..][i].ScopeKey() == scope;
        assert batches[i + 1] == batches[1..][i];
      }
    }
  }

  lemma {:induction false} EarliestDueIsFirst(items: seq<Item>, height: U64, date: Date, k: nat)
    requires EarliestDue(items, height, date).Some? && k < |items| && Due(items[k], height, date)
    ensures !Earlier(items[k], items[EarliestDue(items, height, date).value])
  {
    var last := |items| - 1;
    var best := EarliestDue(items, height, date).value;
    var rest := EarliestDue(items[..last], height, date);
    LessTotal(items[k].txid, items[k].txid);
    if k < last {
      assert items[..last][k] == items[k];
      EarliestDueIsFirst(items[..last], height, date, k);
      var r := rest.value;
      assert !Earlier(items[k], items[r]);
      if best == last {
        EarlierTotal(items[k], items[last], items[r]);
      }
    } else if best != last {
      LessTotal(items[last].txid, items[best].txid);
    }
  }

  lemma EarlierTotal(a: Item, b: Item, c: Item)
    requires Earlier(b, c) && !Earlier(a, c)
    ensures !Earlier(a, b)
  {
    if Earlier(a, b) && a.scheduledHeight == b.scheduledHeight == c.scheduledHeight {
      LessTransitive(a.txid, b.txid, c.txid);
    }
  }

  /** The chosen item is due, first in sending order, and sits in the first eligible batch of the chosen scope. */
  ghost predicate ChosenAt(s: State, height: U64, endpoint: Option<string>, date: Date, selection: Selection,
                           at: Location) {
    && At(s.batches, at)
    && ItemAt(s.batches, at) == selection.item
    && selection.batchId == s.batches[at.batch].batchId
    && selection.url == s.batches[at.batch].url
    && selection.scopeKey == s.batches[at.batch].ScopeKey()
    && Selectable(s.batches[at.batch], height, endpoint, date)
    && Due(selection.item, height, date)
    && (forall i :: 0 <= i < at.batch ==>
          !(Selectable(s.batches[i], height, endpoint, date) && s.batches[i].ScopeKey() == selection.scopeKey))
    && (forall k :: 0 <= k < |s.batches[at.batch].items| && Due(s.batches[at.batch].items[k], height, date) ==>
          !Earlier(s.batches[at.batch].items[k], selection.item))
  }

  lemma SelectDueChooses(s: State, height: U64, endpoint: Option<string>, date: Date) returns (at: Location)
    requires SelectDue(s, height, endpoint, date).1.Some?
    ensures ChosenAt(s, height, endpoint, date, SelectDue(s, height, endpoint, date).1.value, at)
    ensures var scopes := DueScopes(s.batches, height, endpoint, date);
            scopes != [] && SelectDue(s, height, endpoint, date).1.value.scopeKey == NextKey(scopes, s.lastScope)
    ensures SelectDue(s, height, endpoint, date).0
            == s.(lastScope := Some(SelectDue(s, height, endpoint, date).1.value.scopeKey))
  {
    var scopes := DueScopes(s.batches, height, endpoint, date);
    var scope := NextKey(scopes, s.lastScope);
    var i := FirstIndex(s.batches, (b: Batch) => Selectable(b, height, endpoint, date) && b.ScopeKey() == scope).value;
    var items := s.batches[i].items;
    var k := EarliestDue(items, height, date).value;
    at := Location(i, k);
    forall j | 0 <= j < |items| && Due(items[j], height, date)
      ensures !Earlier(items[j], items[k])
    {
      EarliestDueIsFirst(items, height, date, j);
    }
  }

  /** Something is selected exactly when some batch is selectable. */
  lemma SelectDueExact(s: State, height: U64, endpoint: Option<string>, date: Date)
    ensures SelectDue(s, height, endpoint, date).1.Some?
            <==> exists i :: 0 <= i < |s.batches| && Selectable(s.batches[i], height, endpoint, date)
  {
    var scopes := DueScopes(s.batches, height, endpoint, date);
    if scopes == [] {
      forall i | 0 <= i < |s.batches|
        ensures !Selectable(s.batches[i], height, endpoint, date)
      {
        DueScopesMember(s.batches, height, endpoint, date, s.batches[i].ScopeKey());
      }
    } else {
      var scope := NextKey(scopes, s.lastScope);
      NextKeyIn(scopes, s.lastScope);
      DueScopesMember(s.batches, height, endpoint, date, scope);
    }
  }

  // ----- Fairness of the account rotation

  /** Consecutive `selectDue` calls that carry the cursor along and see the same due scopes. */
  ghost predicate SelectionRound(states: seq<State>, heights: seq<U64>, dates: seq<Date>, endpoint: Option<string>,
                                 keys: seq<string>) {
    && |heights| == |states| && |dates| == |states|
    && (forall j :: 0 <= j < |states| ==>
          forall x :: x in DueScopes(states[j].batches, heights[j], endpoint, dates[j]) <==> x in keys)
    && (forall i, j :: 0 <= i < j < |states| && j == i + 1 ==>
          states[j].lastScope == SelectDue(states[i], heights[i], endpoint, dates[i]).0.lastScope)
  }

  lemma SelectedScope(s: State, height: U64, date: Date, endpoint: Option<string>, keys: seq<string>)
    requires keys != []
    requires forall x :: x in DueScopes(s.batches, height, endpoint, date) <==> x in keys
    ensures var r := SelectDue(s, height, endpoint, date);
            r.1.Some? && r.1.value.scopeKey == NextKey(keys, s.lastScope)
                && r.0.lastScope == Some(NextKey(keys, s.lastScope))
  {
    var scopes := DueScopes(s.batches, height, endpoint, date);
    assert keys[0] in scopes;
    DueScopesMember(s.batches, height, endpoint, date, keys[0]);
    SelectDueExact(s, height, endpoint, date);
    NextKeyExtensional(scopes, keys, s.lastScope);
    var at := SelectDueChooses(s, height, endpoint, date);
  }

  /** The scope chosen by one selection, if any. */
  function ChosenScope(s: State, height: U64, endpoint: Option<string>, date: Date): Option<string> {
    match SelectDue(s, height, endpoint, date).1
    case None => None
    case Some(selection) => Some(selection.scopeKey)
  }

  lemma {:induction false} RoundFollowsRotation(states: seq<State>, heights: seq<U64>, dates: seq<Date>,
                                                endpoint: Option<string>,
                                                keys: seq<string>, j: nat)
    requires keys != [] && SelectionRound(states, heights, dates, endpoint, keys) && j < |states|
    ensures ChosenScope(states[j], heights[j], endpoint, dates[j])
            == Some(Chosen(keys, states[0].lastScope, |states|)[j])
  {
    SelectedScope(states[0], heights[0], dates[0], endpoint, keys);
    if j > 0 {
      RoundFollowsRotation(states[1..], heights[1..], dates[1..], endpoint, keys, j - 1);
    }
  }

  /**
   * Over as many consecutive selections as there are due scopes, each scope is
   * chosen exactly once, whatever the cursor held before.
   */
  lemma SelectionIsFair(states: seq<State>, heights: seq<U64>, dates: seq<Date>, endpoint: Option<string>,
                        keys: seq<string>,
                        scope: string)
    requires scope in keys && SelectionRound(states, heights, dates, endpoint, keys)
    requires |states| == |SortedDistinct(keys)|
    ensures exists j :: 0 <= j < |states| && ChosenScope(states[j], heights[j], endpoint, dates[j]) == Some(scope)
    ensures forall i, j :: 0 <= i < j < |states| ==>
              ChosenScope(states[i], heights[i], endpoint, dates[i]) != ChosenScope(states[j], heights[j], endpoint,
                        dates[j])
  {
    SortedDistinctIsSorted(keys);
    var last := if states == [] then None else states[0].lastScope;
    RotationIsFair(keys, last, scope);
    var round := Chosen(keys, last, |states|);
    forall j | 0 <= j < |states|
      ensures ChosenScope(states[j], heights[j], endpoint, dates[j]) == Some(round[j])
    {
      RoundFollowsRotation(states, heights, dates, endpoint, keys, j);
    }
  }

  // ----- Fairness of the endpoint rotation

  lemma {:induction false} EndpointsMember(batches: seq<Batch>, url: string)
    ensures url in Endpoints(batches) <==>
              exists i :: 0 <= i < |batches| && Inspectable(batches[i]) && batches[i].url == url
  {
    if batches != [] {
      EndpointsMember(batches[1..], url);
      assert forall i :: 1 <= i < |batches| ==> batches[i] == batches[1..][i - 1];
      if exists i :: 0 <= i < |batches[1..]| && Inspectable(batches[1..][i]) && batches[1..][i].url == url {
        var i :| 0 <= i < |batches[1..]| && Inspectable(batches[1..][i]) && batches[1..][i].url == url;
        assert batches[i + 1] == batches[1..][i];
      }
    }
  }

  /** Consecutive endpoint choices that carry the cursor along over a stable set of endpoints. */
  ghost predicate InspectionRound(states: seq<State>, keys: seq<string>) {
    && (forall j :: 0 <= j < |states| ==> forall x :: x in Endpoints(states[j].batches) <==> x in keys)
    && (forall i, j :: 0 <= i < j < |states| && j == i + 1 ==>
        states[j].lastEndpoint == NextEndpoint(states[i]).0.lastEndpoint)
  }

  lemma {:induction false} InspectionFollowsRotation(states: seq<State>, keys: seq<string>, j: nat)
    requires keys != [] && InspectionRound(states, keys) && j < |states|
    ensures NextEndpoint(states[j]).1 == Some(Chosen(keys, states[0].lastEndpoint, |states|)[j])
  {
    var endpoints := Endpoints(states[0].batches);
    assert keys[0] in endpoints;
    NextKeyExtensional(endpoints, keys, states[0].lastEndpoint);
    if j > 0 {
      InspectionFollowsRotation(states[1..], keys, j - 1);
    }
  }

  /** Over a stable set of endpoints, each is inspected exactly once per round. */
  lemma InspectionIsFair(states: seq<State>, keys: seq<string>, url: string)
    requires url in keys && InspectionRound(states, keys)
    requires |states| == |SortedDistinct(keys)|
    ensures exists j :: 0 <= j < |states| && NextEndpoint(states[j]).1 == Some(url)
    ensures forall i, j | 0 <= i < |states| && 0 <= j < |states| ::
              NextEndpoint(states[i]).1 == NextEndpoint(states[j]).1 ==> i == j
  {
    SortedDistinctIsSorted(keys);
    var last := if states == [] then None else states[0].lastEndpoint;
    RotationIsFair(keys, last, url);
    var round := Chosen(keys, last, |states|);
    forall j | 0 <= j < |states|
      ensures NextEndpoint(states[j]).1 == Some(round[j])
    {
      InspectionFollowsRotation(states, keys, j);
    }
  }
}
