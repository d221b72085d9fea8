/**
 * `print_output` (elevator.py), modelled as the text it writes to standard
 * output: the decimal travel time and a space, then the floors separated by
 * commas and ended by a newline.
 */
module Output {

  import opened Wrappers
  import opened PyText

  /** `str` of each floor, in order. */
  function FloorTexts(floors: seq<int>): (texts: seq<string>)
    ensures |texts| == |floors|
    ensures forall k :: 0 <= k < |floors| ==> texts[k] == IntToString(floors[k])
  {
    seq(|floors|, k requires 0 <= k < |floors| => IntToString(floors[k]))
  }

  /** The line `print_output` writes: the time, one space, the floors joined by commas, a newline. */
  function PrintOutput(travelTime: int, floorsVisited: seq<int>): string {
    IntToString(travelTime) + " " + Join(FloorTexts(floorsVisited)) + "\n"
  }

  /** The position of the first c in s, or |s| when there is none. */
  function IndexOf(s: string, c: char): (k: nat)
    ensures k <= |s|
    ensures forall j :: 0 <= j < k ==> s[j] != c
    ensures k < |s| ==> s[k] == c
  {
    if s == [] || s[0] == c then 0 else 1 + IndexOf(s[1..], c)
  }

  /** Reads each text as an int, failing if any of them is not one. */
  function ReadInts(texts: seq<string>): Option<seq<int>> {
    if texts == [] then Some([])
    else
      match (ReadInt(texts[0]), ReadInts(texts[1..]))
      case (Some(x), Some(xs)) => Some([x] + xs)
      case _ => None
  }

  /** Reads back a line in the format PrintOutput writes. */
  function ReadOutput(line: string): Option<(int, seq<int>)> {
    if |line| == 0 || line[|line| - 1] != '\n' then None
    else
      var body := line[..|line| - 1];
      var k := IndexOf(body, ' ');
      if k == |body| then None
      else
        match ReadInt(body[..k])
        case None => None
        case Some(t) =>
          var listText := body[k + 1..];
          if listText == "" then Some((t, []))
          else
            match ReadInts(Split(listText))
            case None => None
            case Some(floors) => Some((t, floors))
  }

  /** The decimal texts of ints hold no space, comma or newline, so the separators stay unambiguous. */
  lemma IntToStringHasNoSeparator(i: int)
    ensures |IntToString(i)| > 0
    ensures ' ' !in IntToString(i) && ',' !in IntToString(i) && '\n' !in IntToString(i)
  {
    IntToStringChars(i);
  }

  lemma {:induction false} ReadFloorTexts(floors: seq<int>)
    ensures ReadInts(FloorTexts(floors)) == Some(floors)
  {
    if floors != [] {
      assert FloorTexts(floors)[1..] == FloorTexts(floors[1..]);
      ReadFloorTexts(floors[1..]);
      ReadIntToString(floors[0]);
      assert floors == [floors[0]] + floors[1..];
    }
  }

  lemma {:induction false} JoinedFloorTexts(floors: seq<int>)
    ensures Join(FloorTexts(floors)) == "" <==> floors == []
    ensures ' ' !in Join(FloorTexts(floors)) && '\n' !in Join(FloorTexts(floors))
  {
    if floors != [] {
      IntToStringHasNoSeparator(floors[0]);
      if |floors| > 1 {
        assert FloorTexts(floors)[1..] == FloorTexts(floors[1..]);
        JoinedFloorTexts(floors[1..]);
      }
    }
  }

  /**
   * The line has one space, right after the time, and one newline, at the end;
   * there are no spaces around the commas.
   */
  lemma PrintOutputShape(travelTime: int, floorsVisited: seq<int>)
    ensures var line := PrintOutput(travelTime, floorsVisited);
      && line[|line| - 1] == '\n'
      && '\n' !in line[..|line| - 1]
      && IndexOf(line, ' ') == |IntToString(travelTime)|
      && ' ' !in line[|IntToString(travelTime)| + 1..]
  {
    var line := PrintOutput(travelTime, floorsVisited);
    var time := IntToString(travelTime);
    var list := Join(FloorTexts(floorsVisited));
    IntToStringHasNoSeparator(travelTime);
    JoinedFloorTexts(floorsVisited);
    assert line[..|line| - 1] == time + " " + list;
    assert line[|time| + 1..] == list + "\n";
    assert line[|time|] == ' ';
    assert forall j :: 0 <= j < |time| ==> line[j] == time[j];
  }

  /** Reading the printed line gives back the time and the floors. */
  lemma ReadPrintOutput(travelTime: int, floorsVisited: seq<int>)
    ensures ReadOutput(PrintOutput(travelTime, floorsVisited)) == Some((travelTime, floorsVisited))
  {
    var line := PrintOutput(travelTime, floorsVisited);
    var time := IntToString(travelTime);
    var list := Join(FloorTexts(floorsVisited));
    PrintOutputShape(travelTime, floorsVisited);
    var body := line[..|line| - 1];
    assert body == time + " " + list;
    assert IndexOf(body, ' ') == |time| by {
      IntToStringHasNoSeparator(travelTime);
      assert forall j :: 0 <= j < |time| ==> body[j] == time[j];
    }
    assert body[..|time|] == time;
    assert body[|time| + 1..] == list;
    ReadIntToString(travelTime);
    JoinedFloorTexts(floorsVisited);
    if floorsVisited != [] {
      forall k | 0 <= k < |FloorTexts(floorsVisited)| ensures ',' !in FloorTexts(floorsVisited)[k] {
        IntToStringHasNoSeparator(floorsVisited[k]);
      }
      SplitJoin(FloorTexts(floorsVisited));
      ReadFloorTexts(floorsVisited);
    }
  }

  lemma JoinCons(first: string, rest: seq<string>)
    requires |rest| >= 1
    ensures Join([first] + rest) == first + "," + Join(rest)
  {
    assert ([first] + rest)[1..] == rest;
  }

  /** The printed line, given the texts `str` makes of the time and of each floor. */
  lemma PrintOutputOf(travelTime: int, floorsVisited: seq<int>, timeText: string, texts: seq<string>)
    requires IntToString(travelTime) == timeText
    requires |texts| == |floorsVisited|
    requires forall k :: 0 <= k < |floorsVisited| ==> IntToString(floorsVisited[k]) == texts[k]
    ensures PrintOutput(travelTime, floorsVisited) == timeText + " " + Join(texts) + "\n"
  {
    assert FloorTexts(floorsVisited) == texts;
  }

  lemma JoinOfThree(a: string, b: string, c: string)
    ensures Join([a, b, c]) == a + "," + b + "," + c
  {
    assert [a, b, c][1..] == [b, c];
    assert [b, c][1..] == [c];
    assert Join([b, c]) == b + "," + c;
    assert a + "," + (b + "," + c) == a + "," + b + "," + c;
  }

  lemma JoinOfFive(a: string, b: string, c: string, d: string, e: string)
    ensures Join([a, b, c, d, e]) == a + "," + b + "," + c + "," + d + "," + e
  {
    assert [a, b, c, d, e][1..] == [b, c, d, e];
    assert [b, c, d, e][1..] == [c, d, e];
    JoinOfThree(c, d, e);
    assert Join([b, c, d, e]) == b + "," + (c + "," + d + "," + e);
    assert a + "," + (b + "," + (c + "," + d + "," + e)) == a + "," + b + "," + c + "," + d + "," + e;
  }

  /** The first line test_elevator.py expects `print_output` to write. */
  lemma PrintOutputExampleShort()
    ensures PrintOutput(1, [1, 2, 3]) == "1 1,2,3\n"
  {
    assert "1" + " " + ("1" + "," + "2" + "," + "3") + "\n" == "1 1,2,3\n";
    PrintOutputOf(1, [1, 2, 3], "1", ["1", "2", "3"]);
    JoinOfThree("1", "2", "3");
  }

  /** The second line test_elevator.py expects `print_output` to write. */
  lemma PrintOutputExampleGiven()
    ensures PrintOutput(560, [12, 2, 9, 1, 32]) == "560 12,2,9,1,32\n"
  {
    assert "560" + " " + ("12" + "," + "2" + "," + "9" + "," + "1" + "," + "32") + "\n" == "560 12,2,9,1,32\n";
    var floors := [12, 2, 9, 1, 32];
    var texts := ["12", "2", "9", "1", "32"];
    assert IntToString(560) == "560" by {
      assert NatToString(5) == "5" && NatToString(56) == "56";
    }
    assert forall k :: 0 <= k < |floors| ==> IntToString(floors[k]) == texts[k] by {
      assert NatToString(1) == "1" && NatToString(12) == "12";
      assert NatToString(3) == "3" && NatToString(32) == "32";
    }
    PrintOutputOf(560, floors, "560", texts);
    JoinOfFive("12", "2", "9", "1", "32");
  }
}
