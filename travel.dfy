/**
 * `move_to_floor` (elevator.py): the total travel time of a visit list, the sum
 * over consecutive floors of the distance times the time per floor.
 */
module Travel {

  import opened Wrappers

  /** SINGLE_FLOOR_TRAVEL_TIME: the time to travel one floor. */
  const SingleFloorTravelTime: nat := 10

  /** The text of the ValueError that `move_to_floor` raises. */
  const MoveToFloorMessage: string :=
    "input to move_to_floor: floors_to_visit must be a list containing all positive numbers and be have at least 2 indices"

  datatype ValueError = ValueError(message: string)

  function Abs(x: int): nat {
    if x < 0 then -x else x
  }

  /**
   * The travel time along a list of floors, one leg at a time from the front,
   * in the shape of the recursive calculation the program keeps as a comment.
   */
  function TravelTime(floors: seq<int>): nat {
    if |floors| < 2 then 0
    else Abs(floors[0] - floors[1]) * SingleFloorTravelTime + TravelTime(floors[1..])
  }

  /** What `move_to_floor` accepts: at least two floors, none negative. */
  predicate IsVisitList(floors: seq<int>) {
    |floors| >= 2 && forall i :: 0 <= i < |floors| ==> floors[i] >= 0
  }

  /**
   * `move_to_floor`: rejects a list shorter than two or holding a negative
   * floor, and otherwise adds up the legs in a loop over the indices.
   */
  method MoveToFloor(floors: seq<int>) returns (r: Result<nat, ValueError>)
    ensures r.Ok? <==> IsVisitList(floors)
    ensures r.Ok? ==> r.value == TravelTime(floors)
    ensures r.Err? ==> r.error == ValueError(MoveToFloorMessage)
  {
    if |floors| < 2 || exists i | 0 <= i < |floors| :: floors[i] < 0 {
      return Err(ValueError(MoveToFloorMessage));
    }
    var travelTime: nat := 0;
    for i := 0 to |floors| - 1
      invariant travelTime == TravelTime(floors[..i + 1])
    {
      TravelTimeExtend(floors, i);
      travelTime := travelTime + Abs(floors[i] - floors[i + 1]) * SingleFloorTravelTime;
    }
    assert floors[..|floors|] == floors;
    return Ok(travelTime);
  }

  /** Additivity: a trip split at a floor b costs the trip up to b plus the trip from b. */
  lemma {:induction false} TravelTimeSplit(xs: seq<int>, b: int, ys: seq<int>)
    ensures TravelTime(xs + [b] + ys) == TravelTime(xs + [b]) + TravelTime([b] + ys)
  {
    if xs == [] {
      assert xs + [b] + ys == [b] + ys;
    } else {
      assert (xs + [b] + ys)[1..] == xs[1..] + [b] + ys;
      assert (xs + [b])[1..] == xs[1..] + [b];
      assert (xs + [b] + ys)[1] == (xs + [b])[1];
      TravelTimeSplit(xs[1..], b, ys);
    }
  }

  /** One more leg at the end of a prefix: the step the loop of MoveToFloor takes. */
  lemma TravelTimeExtend(floors: seq<int>, i: nat)
    requires i + 1 < |floors|
    ensures TravelTime(floors[..i + 2]) == TravelTime(floors[..i + 1]) + Abs(floors[i] - floors[i + 1]) * SingleFloorTravelTime
  {
    assert floors[..i + 2] == floors[..i] + [floors[i]] + [floors[i + 1]];
    assert floors[..i + 1] == floors[..i] + [floors[i]];
    TravelTimeSplit(floors[..i], floors[i], [floors[i + 1]]);
  }

  /** The list read backwards. */
  function Reversed(s: seq<int>): (r: seq<int>)
    ensures |r| == |s|
    ensures forall k :: 0 <= k < |s| ==> r[k] == s[|s| - 1 - k]
  {
    if s == [] then [] else Reversed(s[1..]) + [s[0]]
  }

  /** Symmetry: the trip back through the same floors takes as long. */
  lemma {:induction false} TravelTimeReversed(floors: seq<int>)
    ensures TravelTime(Reversed(floors)) == TravelTime(floors)
  {
    if |floors| >= 2 {
      var rest := Reversed(floors[1..]);
      TravelTimeReversed(floors[1..]);
      var init := rest[..|rest| - 1];
      assert rest == init + [floors[1]];
      assert Reversed(floors) == init + [floors[1]] + [floors[0]];
      TravelTimeSplit(init, floors[1], [floors[0]]);
    }
  }

  /** The time is zero exactly when every floor on the list is the same. */
  lemma {:induction false} TravelTimeZero(floors: seq<int>)
    ensures TravelTime(floors) == 0 <==> forall i :: 0 <= i < |floors| ==> floors[i] == floors[0]
  {
    if |floors| >= 2 {
      TravelTimeZero(floors[1..]);
      if TravelTime(floors) == 0 {
        forall i | 0 <= i < |floors| ensures floors[i] == floors[0] {
          if i > 0 {
            assert floors[i] == floors[1..][i - 1];
          }
        }
      }
      if forall i :: 0 <= i < |floors| ==> floors[i] == floors[0] {
        assert forall i :: 0 <= i < |floors| - 1 ==> floors[1..][i] == floors[i + 1];
      }
    }
  }

  /** On a list that only goes up, the time is that of the direct trip from first to last. */
  lemma {:induction false} TravelTimeAscending(floors: seq<int>)
    requires |floors| >= 1
    requires forall i :: 0 <= i < |floors| - 1 ==> floors[i] <= floors[i + 1]
    ensures TravelTime(floors) == (floors[|floors| - 1] - floors[0]) * SingleFloorTravelTime
  {
    if |floors| >= 2 {
      assert forall i :: 0 <= i < |floors| - 2 ==> floors[1..][i] == floors[i + 1];
      TravelTimeAscending(floors[1..]);
    }
  }

  /** No trip through intermediate floors is shorter than the direct trip. */
  lemma {:induction false} DirectTripIsShortest(floors: seq<int>)
    requires |floors| >= 1
    ensures TravelTime(floors) >= Abs(floors[0] - floors[|floors| - 1]) * SingleFloorTravelTime
  {
    if |floors| >= 2 {
      DirectTripIsShortest(floors[1..]);
    }
  }

  /** The lists of test_elevator.py and the times it expects for them. */
  lemma TravelTimeExamples()
    ensures TravelTime([5, 1, 5, 3]) == 100
    ensures TravelTime([12, 2, 9, 1, 32]) == 560
    ensures TravelTime([4, 4, 4, 4, 4, 4, 4]) == 0
    ensures TravelTime([0, 2, 0, 2, 0]) == 80
  {
  }

  /** The integration cases of test_elevator.py with small floors. */
  lemma TravelTimeRunExamples()
    ensures TravelTime([1, 2, 3, 4]) == 30
    ensures TravelTime([0, 1, 2, 3]) == 30
    ensures TravelTime([10, 9, 0, 7]) == 170
    ensures TravelTime([1, 4]) == 30
  {
  }

  /** The large lists of test_elevator.py: the floors 0 to 9999, and 1 to 1000, in order. */
  lemma TravelTimeLargeListExample()
    ensures TravelTime(seq(10000, i => i)) == 99990
    ensures TravelTime(seq(1000, i => i + 1)) == 9990
  {
    TravelTimeAscending(seq(10000, i => i));
    TravelTimeAscending(seq(1000, i => i + 1));
  }

  /** The lists of test_elevator.py that `move_to_floor` must refuse: too short, or with a negative floor. */
  lemma RejectedVisitLists()
    ensures !IsVisitList([]) && !IsVisitList([1])
    ensures !IsVisitList([-1, 1, 3]) && !IsVisitList([1, -1, 3]) && !IsVisitList([1, 1, -3])
  {
    assert [-1, 1, 3][0] < 0;
    assert [1, -1, 3][1] < 0;
    assert [1, 1, -3][2] < 0;
  }
}
