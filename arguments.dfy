/**
 * `validate_input` and the visit list that `main` builds from the validated
 * arguments (elevator.py). `argv` includes the program name at index 0, as
 * `sys.argv` does; the program name itself is never inspected.
 */
module Arguments {

  import opened Wrappers
  import opened PyText
  import opened Patterns

  /** Why `validate_input` prints the usage text and exits with status 1. */
  datatype UsageError = WrongArgumentCount | InvalidFormat

  /** The value of the `floor=` token as the comma-separated texts it lists. */
  function FloorPieces(t: string): seq<string>
    requires |t| >= 6
  {
    Split(t[6..])
  }

  /**
   * The `floor=` token described without a regular expression: the prefix
   * `floor=`, then a value each of whose comma-separated pieces is a non-empty
   * run of digits.
   */
  predicate IsFloorToken(t: string) {
    && |t| >= 6
    && t[..6] == "floor="
    && forall k :: 0 <= k < |FloorPieces(t)| ==> IsDigitRun(FloorPieces(t)[k])
  }

  lemma FloorPatternByPieces(t: string)
    ensures MatchesFloorPattern(t) <==> IsFloorToken(t)
  {
    if |t| >= 6 {
      assert FloorPieces(t) == Split(t[6..]);
      DigitListBySplit(t[6..]);
    }
  }

  /** The checks of `validate_input`, in the order it makes them; None when it returns normally. */
  function ValidateInput(argv: seq<string>): (r: Option<UsageError>)
    ensures r == Some(WrongArgumentCount) <==> |argv| != 4
    ensures r.None? <==>
              && |argv| == 4
              && argv[1] == "elevator"
              && MatchesStartPattern(argv[2])
              && IsFloorToken(argv[3])
  {
    if |argv| != 4 then Some(WrongArgumentCount)
    else
      FloorPatternByPieces(argv[3]);
      if argv[1] != "elevator" || !MatchesStartPattern(argv[2]) || !MatchesFloorPattern(argv[3])
      then Some(InvalidFormat)
      else None
  }

  /** Each piece read as a decimal number, in order. */
  function ParseAll(pieces: seq<string>): (values: seq<nat>)
    requires forall k :: 0 <= k < |pieces| ==> IsDigitRun(pieces[k])
    ensures |values| == |pieces|
  {
    seq(|pieces|, k requires 0 <= k < |pieces| => assert IsDigitRun(pieces[k]); ParseDigits(pieces[k]))
  }

  /**
   * The whole argument stage: the usage error, or the floors to visit, which
   * are the start floor followed by the `floor=` values in the order given.
   */
  function ParseArguments(argv: seq<string>): (r: Result<seq<nat>, UsageError>)
    ensures r.Err? <==> ValidateInput(argv).Some?
    ensures r.Err? ==> r.error == ValidateInput(argv).value
    ensures r.Ok? ==>
              && |r.value| == 1 + |FloorPieces(argv[3])| >= 2
              && r.value[0] == ParseDigits(argv[2][6..])
              && forall k :: 0 <= k < |FloorPieces(argv[3])| ==> r.value[k + 1] == ParseDigits(FloorPieces(argv[3])[k])
  {
    match ValidateInput(argv)
    case Some(e) => Err(e)
    case None => Ok([ParseDigits(argv[2][6..])] + ParseAll(FloorPieces(argv[3])))
  }

  /** Argument lists that test_elevator.py expects `validate_input` to accept. */
  lemma AcceptedExampleSimple()
    ensures ValidateInput(["program", "elevator", "start=1", "floor=2,3,4"]) == None
  {
    var t := "floor=2,3,4";
    assert t[..6] == "floor=";
    assert t[6..] == "2" + "," + "3" + "," + "4";
    ScanDigitListCons("2", "3" + "," + "4", false);
    ScanDigitListCons("3", "4", false);
    ScanDigitListRun("4", false);
    assert MatchesFloorPattern(t);
  }

  /** One destination is enough: the visit list then has the minimum length 2. */
  lemma AcceptedExampleSingleFloor()
    ensures ParseArguments(["program", "elevator", "start=1", "floor=4"]) == Ok([1, 4])
  {
    var t := "floor=4";
    assert t[..6] == "floor=" && t[6..] == "4";
    ScanDigitListRun("4", false);
    assert MatchesFloorPattern(t);
    assert "start=1"[6..] == "1";
    SplitNoComma("4");
    assert FloorPieces(t) == ["4"];
    assert ParseDigits("1") == 1 && ParseDigits("4") == 4;
    assert ParseAll(["4"]) == [4];
    var argv := ["program", "elevator", "start=1", "floor=4"];
    assert MatchesStartPattern(argv[2]);
    assert ValidateInput(argv) == None;
    assert ParseArguments(argv) == Ok([ParseDigits("1")] + ParseAll(["4"]));
    assert [ParseDigits("1")] + ParseAll(["4"]) == [1, 4];
  }

  /** The argument lists with a bad `start=` token that test_elevator.py expects `validate_input` to reject. */
  lemma RejectedStartExamples()
    ensures ValidateInput(["program", "elevator", "floor=2,3,4,5"]) == Some(WrongArgumentCount)
    ensures ValidateInput(["program", "elevator", "start=", "floor=2,3,4,5"]) == Some(InvalidFormat)
    ensures ValidateInput(["program", "elevator", "start=a", "floor=2,3,4,5"]) == Some(InvalidFormat)
    ensures ValidateInput(["program", "elevator", "start=1a", "floor=2,3,4,5"]) == Some(InvalidFormat)
    ensures ValidateInput(["program", "elevator", "start=1,4", "floor=2,3,4,5"]) == Some(InvalidFormat)
  {
    assert "start="[6..] == [];
    assert "start=a"[6..][0] == 'a';
    assert "start=1a"[6..][1] == 'a';
    assert "start=1,4"[6..][1] == ',';
  }

  /** The argument lists with a bad `floor=` token that test_elevator.py expects `validate_input` to reject. */
  lemma RejectedFloorExamples()
    ensures ValidateInput(["program", "elevator", "start=1"]) == Some(WrongArgumentCount)
    ensures ValidateInput(["program", "elevator", "start=1", "floor="]) == Some(InvalidFormat)
    ensures ValidateInput(["program", "elevator", "start=1", "floor=a"]) == Some(InvalidFormat)
    ensures ValidateInput(["program", "elevator", "start=1", "floor=2,3,a,5"]) == Some(InvalidFormat)
    ensures ValidateInput(["program", "elevator", "start=1", "floor=2,3,1a,5"]) == Some(InvalidFormat)
    ensures ValidateInput(["program", "elevator", "start=1", "floor=2,3,,5"]) == Some(InvalidFormat)
    ensures ValidateInput(["program", "elevator", "start=1", "floor=2,-3,4,5"]) == Some(InvalidFormat)
  {
    assert "floor="[6..] == [];
    ScanRejectsForeignChar("floor=a"[6..], 0, false);
    ScanRejectsForeignChar("floor=2,3,a,5"[6..], 4, false);
    ScanRejectsForeignChar("floor=2,3,1a,5"[6..], 5, false);
    ScanRejectsEmptyEntry("floor=2,3,,5"[6..], 3, false);
    ScanRejectsForeignChar("floor=2,-3,4,5"[6..], 2, false);
  }
}
