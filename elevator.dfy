/**
 * `main` (elevator.py): validate the arguments, build the visit list, compute
 * the travel time and print it with the list. What the process writes to
 * standard output and its exit status are returned as an Outcome.
 */
module Elevator {

  import opened Wrappers
  import opened PyText
  import opened Patterns
  import opened Arguments
  import opened Travel
  import opened Output

  /** What one run of the program leaves behind. */
  datatype Outcome = Outcome(stdout: string, exitStatus: nat)

  const UsageLines: string :=
    "Usage: python Elevator.py [start floor] [list of floors to visit]\ne.g. elevator start=12 floor=2,9,1,32\n"

  /** The text `validate_input` prints before it exits with status 1. */
  function UsageText(e: UsageError): string {
    match e
    case WrongArgumentCount => "Invalid number of arguments.\n" + UsageLines
    case InvalidFormat => "Invalid input format. Please provide valid arguments.\n" + UsageLines
  }

  /**
   * `main`. A usage error prints the usage text and exits with status 1;
   * otherwise the visit list is built from the two regular-expression searches,
   * and the line `print_output` writes is the whole output, with status 0.
   * The `except Exception` branch of the source is not modelled. On validated
   * arguments both searches succeed and `move_to_floor` accepts the list, so
   * only CPython's 4300-digit limit on integer conversion can reach it.
   */
  method Run(argv: seq<string>) returns (out: Outcome)
    ensures out.exitStatus == (if ParseArguments(argv).Ok? then 0 else 1)
    ensures ParseArguments(argv).Err? ==> out.stdout == UsageText(ParseArguments(argv).error)
    ensures ParseArguments(argv).Ok? ==>
              var floors := ParseArguments(argv).value;
              out.stdout == PrintOutput(TravelTime(floors), floors)
  {
    var invalid := ValidateInput(argv);
    if invalid.Some? {
      return Outcome(UsageText(invalid.value), 1);
    }
    // The start floor is the first digit run of the start= argument, read as a number.
    SearchStartToken(argv[2]);
    var floorsToVisit: seq<int> := [ParseDigits(SearchDigitRun(argv[2]).value)];
    // Each comma-separated entry of the first digit list in the floor= argument follows it.
    SearchFloorToken(argv[3]);
    var floorsString := SearchDigitList(argv[3]).value;
    assert Split(floorsString) == FloorPieces(argv[3]);
    floorsToVisit := floorsToVisit + ParseAll(Split(floorsString));
    var travelTime := MoveToFloor(floorsToVisit);
    return Outcome(PrintOutput(travelTime.value, floorsToVisit), 0);
  }

  /** The list the argument stage builds is always one that `move_to_floor` accepts. */
  lemma ParsedListIsVisitList(argv: seq<string>)
    requires ParseArguments(argv).Ok?
    ensures IsVisitList(ParseArguments(argv).value)
  {
  }

  /**
   * When the numbers are written without leading zeros, the printed visit list
   * is the `start=` value, a comma, and the `floor=` value, as typed.
   */
  lemma PrintedListEchoesArguments(argv: seq<string>)
    requires ParseArguments(argv).Ok?
    requires IsCanonical(argv[2][6..])
    requires forall k :: 0 <= k < |FloorPieces(argv[3])| ==> IsCanonical(FloorPieces(argv[3])[k])
    ensures Join(FloorTexts(ParseArguments(argv).value)) == argv[2][6..] + "," + argv[3][6..]
  {
    var start := argv[2][6..];
    var pieces := FloorPieces(argv[3]);
    assert ParseArguments(argv).value == [ParseDigits(start)] + ParseAll(pieces);
    TextsOfParsed(start, pieces);
    JoinCons(start, pieces);
    JoinSplit(argv[3][6..]);
  }

  /** Writing back numbers read from texts without leading zeros gives the texts. */
  lemma TextsOfParsed(start: string, pieces: seq<string>)
    requires IsCanonical(start)
    requires forall k :: 0 <= k < |pieces| ==> IsDigitRun(pieces[k])
    requires forall k :: 0 <= k < |pieces| ==> |pieces[k]| <= 1 || pieces[k][0] != '0'
    ensures FloorTexts([ParseDigits(start)] + ParseAll(pieces)) == [start] + pieces
  {
    var values := [ParseDigits(start)] + ParseAll(pieces);
    var texts := FloorTexts(values);
    var expected := [start] + pieces;
    NatToStringParse(start);
    forall i | 0 <= i < |texts| ensures texts[i] == expected[i] {
      if i > 0 {
        assert values[i] == ParseDigits(pieces[i - 1]);
        assert IsCanonical(pieces[i - 1]);
        NatToStringParse(pieces[i - 1]);
      }
    }
  }

  lemma StartTokenOf(start: string)
    requires IsDigitRun(start)
    ensures MatchesStartPattern("start=" + start) && ("start=" + start)[6..] == start
  {
    var t := "start=" + start;
    assert t[..6] == "start=" && t[6..] == start;
  }

  lemma TwoFloorToken(a: string, b: string)
    requires IsDigitRun(a) && IsDigitRun(b)
    ensures MatchesFloorPattern("floor=" + a + "," + b)
    ensures FloorPieces("floor=" + a + "," + b) == [a, b]
  {
    var t := "floor=" + a + "," + b;
    assert t[..6] == "floor=" && t[6..] == a + "," + b;
    ScanDigitListCons(a, b, false);
    ScanDigitListRun(b, false);
    assert ',' !in a && ',' !in b by {
      assert forall k :: 0 <= k < |a| ==> IsDigit(a[k]);
      assert forall k :: 0 <= k < |b| ==> IsDigit(b[k]);
    }
    SplitConcat(a, b);
    SplitNoComma(b);
  }

  /** An argument list whose `floor=` value lists two floors. */
  lemma TwoFloorArguments(argv: seq<string>, start: string, a: string, b: string)
    requires IsDigitRun(start) && IsDigitRun(a) && IsDigitRun(b)
    requires argv == ["Elevator.py", "elevator", "start=" + start, "floor=" + a + "," + b]
    ensures ParseArguments(argv) == Ok([ParseDigits(start), ParseDigits(a), ParseDigits(b)])
  {
    StartTokenOf(start);
    TwoFloorToken(a, b);
    assert ValidateInput(argv) == None;
    var values := ParseAll([a, b]);
    assert values[0] == ParseDigits(a) && values[1] == ParseDigits(b);
    assert |values| == 2;
    var r := ParseArguments(argv);
    assert r.Ok? && r.value == [ParseDigits(start)] + values;
    assert [ParseDigits(start)] + values == [ParseDigits(start), ParseDigits(a), ParseDigits(b)];
  }

  /** The large-floor case of test_elevator.py: the arguments give the visit list 1, 10000000000, 1. */
  lemma LargeFloorsArguments()
    ensures ParseArguments(["Elevator.py", "elevator", "start=" + "1", "floor=" + "10000000000" + "," + "1"])
         == Ok([1, 10000000000, 1])
  {
    TwoFloorArguments(["Elevator.py", "elevator", "start=" + "1", "floor=" + "10000000000" + "," + "1"], "1", "10000000000", "1");
    ParseTenBillion();
  }

  lemma ParseTenBillion()
    ensures ParseDigits("10000000000") == 10000000000
  {
    DecimalOfTenBillion();
    ParseNatToString(10000000000);
  }

  lemma DecimalOfTenBillion()
    ensures NatToString(10000000000) == "10000000000"
  {
    assert NatToString(1) == "1";
    assert NatToString(10) == "10";
    assert NatToString(100) == "100";
    assert NatToString(1000) == "1000";
    assert NatToString(10000) == "10000";
    assert NatToString(100000) == "100000";
    assert NatToString(1000000) == "1000000";
    assert NatToString(10000000) == "10000000";
    assert NatToString(100000000) == "100000000";
    assert NatToString(1000000000) == "1000000000";
    assert NatToString(10000000000) == "10000000000";
  }

  lemma DecimalOfLargeTime()
    ensures NatToString(199999999980) == "199999999980"
  {
    assert NatToString(1) == "1";
    assert NatToString(19) == "19";
    assert NatToString(199) == "199";
    assert NatToString(1999) == "1999";
    assert NatToString(19999) == "19999";
    assert NatToString(199999) == "199999";
    assert NatToString(1999999) == "1999999";
    assert NatToString(19999999) == "19999999";
    assert NatToString(199999999) == "199999999";
    assert NatToString(1999999999) == "1999999999";
    assert NatToString(19999999998) == "19999999998";
    assert NatToString(199999999980) == "199999999980";
  }

  /** The large-floor case of test_elevator.py: the time needs more than 32 bits. */
  lemma LargeFloorsTime()
    ensures TravelTime([1, 10000000000, 1]) == 199999999980
  {
    var floors := [1, 10000000000, 1];
    assert floors[1..] == [10000000000, 1] && floors[1..][1..] == [1];
  }

  /** The large-floor case of test_elevator.py: the line printed for it. */
  lemma LargeFloorsLine()
    ensures PrintOutput(199999999980, [1, 10000000000, 1]) == "199999999980 1,10000000000,1\n"
  {
    LargeTimeText();
    LargeFloorsTexts();
    PrintOutputOf(199999999980, [1, 10000000000, 1], "199999999980", ["1", "10000000000", "1"]);
    JoinOfThree("1", "10000000000", "1");
    LargeLineText();
  }

  /**
   * The large-floor case of test_elevator.py end to end: the visit list the
   * arguments give, and the line printed for it, which is what Run writes.
   */
  lemma LargeFloorsOutput()
    ensures var argv := ["Elevator.py", "elevator", "start=" + "1", "floor=" + "10000000000" + "," + "1"];
      && ParseArguments(argv).Ok?
      && var floors := ParseArguments(argv).value;
         PrintOutput(TravelTime(floors), floors) == "199999999980 1,10000000000,1\n"
  {
    LargeFloorsArguments();
    LargeFloorsTime();
    LargeFloorsLine();
  }

  lemma LargeTimeText()
    ensures IntToString(199999999980) == "199999999980"
  {
    DecimalOfLargeTime();
  }

  lemma LargeFloorsTexts()
    ensures forall k :: 0 <= k < 3 ==> IntToString([1, 10000000000, 1][k]) == ["1", "10000000000", "1"][k]
  {
    DecimalOfTenBillion();
  }

  /**
   * The literal text of the large-floor line, kept apart from LargeFloorsLine
   * because with the numbers' decimal expansions in scope it is expensive.
   */
  lemma LargeLineText()
    ensures "199999999980" + " " + ("1" + "," + "10000000000" + "," + "1") + "\n" == "199999999980 1,10000000000,1\n"
  {
  }
}
