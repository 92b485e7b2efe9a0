/** The admin's new-order notifier. Every tick fetches the restaurant's orders,
    keeps the ids of the pending and confirmed ones, and compares them with the
    ids seen at the previous tick: ids not seen before raise the counter and
    sound the alarm. Failed fetches are counted, and after three in a row the
    interval skips its checks until a one-minute pause has passed. */
module OrderNotifications {
  import opened Wrappers
  import opened Text
  import opened GraphQLTypes

  const REST_PREFIX: string := "rest_"

  /** `cleanRestaurantId`: one leading `rest_` is removed. */
  function CleanRestaurantId(id: string): (r: string)
    ensures StartsWith(id, REST_PREFIX) ==> id == REST_PREFIX + r
    ensures !StartsWith(id, REST_PREFIX) ==> r == id
  {
    if StartsWith(id, REST_PREFIX) then id[|REST_PREFIX|..] else id
  }

  /** Only one prefix goes: `rest_rest_x` becomes `rest_x`, and an id without
      the prefix is kept whole. */
  lemma CleanRestaurantIdOnce(s: string)
    ensures CleanRestaurantId(REST_PREFIX + s) == s
    ensures CleanRestaurantId("rest_rest_x") == "rest_x"
    ensures CleanRestaurantId("choripam") == "choripam"
  {
    assert StartsWith(REST_PREFIX + s, REST_PREFIX);
    assert (REST_PREFIX + s)[|REST_PREFIX|..] == s;
    assert "rest_rest_x" == REST_PREFIX + "rest_x";
    assert "choripam"[..5][0] != REST_PREFIX[0];
  }

  /** The orders the notifier watches. */
  predicate Relevant(o: LegacyOrder) {
    o.status == "pending" || o.status == "confirmed"
  }

  /** The ids of the pending and confirmed orders of a listing. */
  function TrackedIds(orders: seq<LegacyOrder>): set<string> {
    if orders == [] then {}
    else
      var last := orders[|orders| - 1];
      TrackedIds(orders[..|orders| - 1]) + (if Relevant(last) then {last.order_id} else {})
  }

  /** The tracked set holds exactly the ids of the pending and confirmed orders. */
  lemma {:induction false} TrackedIdsSpec(orders: seq<LegacyOrder>)
    ensures forall id :: id in TrackedIds(orders) <==>
              exists i :: 0 <= i < |orders| && Relevant(orders[i]) && orders[i].order_id == id
  {
    if orders != [] {
      var init := orders[..|orders| - 1];
      TrackedIdsSpec(init);
      assert forall i :: 0 <= i < |init| ==> init[i] == orders[i];
    }
  }

  const MAX_ERRORS: nat := 3

  /** The notifier's state between ticks. `baseline` is `previousOrderIds`. */
  datatype NotifierState = NotifierState(
    baseline: set<string>, firstRun: bool, newOrdersCount: nat, isPlaying: bool, consecutiveErrors: nat)

  const INITIAL: NotifierState := NotifierState({}, true, 0, false, 0)

  /** `playAlarm` on the state: starts the alarm unless it is already sounding. */
  function PlayAlarmStep(s: NotifierState): NotifierState {
    s.(isPlaying := true)
  }

  /** One `checkOrders` run on the answer to the fetch; `None` is a failed
      fetch or an answer without an `orders` array. */
  function Check(s: NotifierState, answer: Option<seq<LegacyOrder>>): NotifierState {
    match answer
    case None => s.(consecutiveErrors := s.consecutiveErrors + 1)
    case Some(orders) =>
      var current := TrackedIds(orders);
      if s.firstRun then
        s.(consecutiveErrors := 0, firstRun := false, baseline := current)
      else
        var unseen := current - s.baseline;
        var s' := s.(consecutiveErrors := 0, newOrdersCount := s.newOrdersCount + |unseen|);
        var s'' := if |unseen| > 0 then PlayAlarmStep(s') else s';
        s''.(baseline := current)
  }

  /** An interval tick: the check runs only while fewer than three errors in a row were seen. */
  function Tick(s: NotifierState, answer: Option<seq<LegacyOrder>>): NotifierState {
    if s.consecutiveErrors < MAX_ERRORS then Check(s, answer) else s
  }

  /** The first successful check only records the baseline: no alarm, no count. */
  lemma FirstCheckSetsBaseline(s: NotifierState, orders: seq<LegacyOrder>)
    requires s.firstRun
    ensures var r := Check(s, Some(orders));
            && r.baseline == TrackedIds(orders) && !r.firstRun
            && r.newOrdersCount == s.newOrdersCount && r.isPlaying == s.isPlaying
            && r.consecutiveErrors == 0
  {
  }

  /** A later successful check counts the tracked ids missing from the
      baseline, sounds the alarm exactly when there are some, and always
      replaces the baseline. */
  lemma LaterCheckCountsNewIds(s: NotifierState, orders: seq<LegacyOrder>)
    requires !s.firstRun
    ensures var r := Check(s, Some(orders));
            && r.newOrdersCount == s.newOrdersCount + |TrackedIds(orders) - s.baseline|
            && (r.isPlaying <==> s.isPlaying || exists id :: id in TrackedIds(orders) && id !in s.baseline)
            && r.baseline == TrackedIds(orders) && !r.firstRun && r.consecutiveErrors == 0
  {
    var unseen := TrackedIds(orders) - s.baseline;
    if exists id :: id in TrackedIds(orders) && id !in s.baseline {
      var id :| id in TrackedIds(orders) && id !in s.baseline;
      assert id in unseen;
    } else {
      assert unseen == {};
    }
  }

  /** A failed check only counts the error. */
  lemma FailedCheckCountsError(s: NotifierState)
    ensures Check(s, None) == s.(consecutiveErrors := s.consecutiveErrors + 1)
    ensures Check(s, None).baseline == s.baseline && Check(s, None).newOrdersCount == s.newOrdersCount
  {
  }

  /** Three failures in a row pause the interval: from then on ticks change
      nothing, whatever the answer, until the pause resets the count. */
  lemma ThreeFailuresPause(s: NotifierState, answer: Option<seq<LegacyOrder>>)
    requires s.consecutiveErrors == 0
    ensures var p := Tick(Tick(Tick(s, None), None), None);
            && p.consecutiveErrors == MAX_ERRORS
            && Tick(p, answer) == p
            && p.baseline == s.baseline && p.newOrdersCount == s.newOrdersCount
  {
  }

  /** One success between failures starts the error count again. */
  lemma SuccessResetsErrors(s: NotifierState, orders: seq<LegacyOrder>)
    requires s.consecutiveErrors == 2
    ensures Tick(Tick(Tick(s, Some(orders)), None), None).consecutiveErrors == 2
  {
  }

  /** The alarm is not queued: a new order found while the alarm sounds still
      raises the counter, and the alarm simply keeps sounding. */
  lemma AlarmNotQueued(s: NotifierState, orders: seq<LegacyOrder>)
    requires !s.firstRun && s.isPlaying
    ensures Check(s, Some(orders)).isPlaying
    ensures Check(s, Some(orders)).newOrdersCount >= s.newOrdersCount
  {
  }

  function PendingOrder(id: string): LegacyOrder {
    LegacyOrder(id, "choripam", "", "", "", [], 0, "efectivo", "mesa", None, None, "pending", 0)
  }

  /** Orders A and B at the first tick, A, B and C at the second, A and B
      again at the third: only the second tick finds something new (C), and
      the third forgets C, so C would be new again if it came back. */
  lemma ThreeTickScenario()
    ensures var a, b, c := PendingOrder("A"), PendingOrder("B"), PendingOrder("C");
            var s1 := Check(INITIAL, Some([a, b]));
            var s2 := Check(s1, Some([a, b, c]));
            var s3 := Check(s2, Some([a, b]));
            && s1.newOrdersCount == 0 && !s1.isPlaying
            && s2.newOrdersCount == 1 && s2.isPlaying
            && s3.newOrdersCount == 1 && s3.baseline == {"A", "B"}
            && Check(s3, Some([a, b, c])).newOrdersCount == 2
  {
    var a, b, c := PendingOrder("A"), PendingOrder("B"), PendingOrder("C");
    TrackedTwo(a, b);
    TrackedThree(a, b, c);
    assert "C" != "A" && "C" != "B";
    assert {"A", "B", "C"} - {"A", "B"} == {"C"};
  }

  lemma TrackedTwo(a: LegacyOrder, b: LegacyOrder)
    requires Relevant(a) && Relevant(b)
    ensures TrackedIds([a, b]) == {a.order_id, b.order_id}
  {
    assert TrackedIds([a]) == {a.order_id} by {
      assert [a][..0] == [];
    }
    assert [a, b][..1] == [a];
  }

  lemma TrackedThree(a: LegacyOrder, b: LegacyOrder, c: LegacyOrder)
    requires Relevant(a) && Relevant(b) && Relevant(c)
    ensures TrackedIds([a, b, c]) == {a.order_id, b.order_id, c.order_id}
  {
    assert [a, b, c][..2] == [a, b];
    TrackedTwo(a, b);
  }

  class OrderNotifier {
    var baseline: set<string>
    var firstRun: bool
    var newOrdersCount: nat
    var isPlaying: bool
    var consecutiveErrors: nat

    function State(): NotifierState
      reads this
    {
      NotifierState(baseline, firstRun, newOrdersCount, isPlaying, consecutiveErrors)
    }

    constructor()
      ensures State() == INITIAL
    {
      baseline := {};
      firstRun := true;
      newOrdersCount := 0;
      isPlaying := false;
      consecutiveErrors := 0;
    }

    /** `playAlarm`: does nothing while the alarm sounds; `started` says
        whether this call started it. */
    method PlayAlarm() returns (started: bool)
      modifies this
      ensures started == !old(isPlaying)
      ensures State() == PlayAlarmStep(old(State()))
    {
      if isPlaying {
        return false;
      }
      isPlaying := true;
      started := true;
    }

    /** `stopAlarm`, and the end of the alarm's sound. */
    method StopAlarm()
      modifies this
      ensures State() == old(State()).(isPlaying := false)
    {
      isPlaying := false;
    }

    method ResetNewOrdersCount()
      modifies this
      ensures State() == old(State()).(newOrdersCount := 0)
    {
      newOrdersCount := 0;
    }

    /** `checkOrders` on the answer to the fetch. `newIds` are the ids it
        reports as new. */
    method CheckOrders(answer: Option<seq<LegacyOrder>>) returns (newIds: set<string>)
      modifies this
      ensures State() == Check(old(State()), answer)
      ensures newIds == if answer.Some? && !old(firstRun) then TrackedIds(answer.value) - old(baseline) else {}
    {
      newIds := {};
      if answer.None? {
        consecutiveErrors := consecutiveErrors + 1;
      } else {
        var current := TrackedIds(answer.value);
        if firstRun {
          firstRun := false;
        } else {
          newIds := current - baseline;
          if |newIds| > 0 {
            newOrdersCount := newOrdersCount + |newIds|;
            var _ := PlayAlarm();
          }
        }
        consecutiveErrors := 0;
        baseline := current;
      }
    }

    /** The interval callback: checks unless three errors in a row were seen. */
    method IntervalTick(answer: Option<seq<LegacyOrder>>) returns (checked: bool)
      modifies this
      ensures checked <==> old(consecutiveErrors) < MAX_ERRORS
      ensures State() == Tick(old(State()), answer)
    {
      checked := consecutiveErrors < MAX_ERRORS;
      if checked {
        var _ := CheckOrders(answer);
      }
    }

    /** The one-minute pause after too many errors has passed. */
    method CooldownElapsed()
      modifies this
      ensures State() == old(State()).(consecutiveErrors := 0)
    {
      consecutiveErrors := 0;
    }
  }
}
