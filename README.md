# Elevator travel time, modelled in Dafny

`elevator.py` is a command-line program. It takes a start floor
(`start=12`) and a comma-separated list of floors to visit
(`floor=2,9,1,32`). It prints the total travel time, then the whole visit
order: `560 12,2,9,1,32`. Each floor travelled costs
`SINGLE_FLOOR_TRAVEL_TIME` = 10. Malformed arguments print a usage text and
exit with status 1.

The model follows the program's four functions:

| module | file | models |
|---|---|---|
| `Wrappers` | wrappers.dfy | `Option` and `Result` |
| `PyText` | py_text.dfy | `int()` on digit strings, `str()` on ints, `str.split(',')`, `','.join` |
| `Patterns` | patterns.dfy | the regular expressions `start=\d+$` and `floor=\d+(?:,\d+)*$` (used with `re.match`), and `\d+` and `\d+(?:,\d+)*` (used with `re.search`) |
| `Arguments` | arguments.dfy | `validate_input`, and the visit list `main` builds from the arguments |
| `Travel` | travel.dfy | `move_to_floor`: a method with the source's loop, proved equal to a recursive specification |
| `Output` | output.dfy | `print_output`, as the exact text it writes to standard output |
| `Elevator` | elevator.dfy | `main`, as a method returning what is written to standard output and the exit status |

Three facts connect the parts:

- The two regex searches in `main` return exactly the text after `start=`
  and `floor=` once `validate_input` has passed.
- The visit list `main` builds always satisfies `move_to_floor`'s check.
- So the `except Exception` branch of `main` cannot be reached, as long as
  every number involved has at most 4300 digits (see "## Left out").

The `floor=` pattern is proved equivalent to a grammar without regular
expressions: every comma-separated piece is a non-empty run of digits.
The printed line is proved to read back to the time and the floors.

On a usage error the program prints three lines: the error line, then a
usage line and an example line.

In two places the code does something other than what its messages or its
shape suggest, and the model follows the code:

- The `move_to_floor` error message says "positive numbers", but floor 0 is
  accepted; only negative floors are refused.
- The catch-all `except` in `main` looks like a path for calculator errors.
  On arguments that pass `validate_input` it is reached only through the
  digit limit of CPython's integer conversion (see "## Left out").

## Model

| member | source | states |
|---|---|---|
| PyText.NatToString | elevator.py:113-114 | `str()` of a non-negative int is a digit run without a leading zero |
| PyText.ParseNatToString | elevator.py:16 | `int(str(n)) == n` for every non-negative n |
| PyText.NatToStringParse | elevator.py:16 | `str(int(s)) == s` for every digit run s without a leading zero |
| PyText.LeadingNonZeroIsPositive | elevator.py:16 | a digit run that does not start with 0 reads as a number of at least 1 |
| PyText.ReadIntToString | elevator.py:113 | the text `str()` writes for any int, negative included, reads back as that int |
| PyText.IntToStringChars | elevator.py:113 | `str()` of an int is non-empty and holds only digits and the minus sign |
| PyText.Split | elevator.py:16 | `s.split(',')` has at least one piece, and no piece holds a comma |
| PyText.JoinSplit | elevator.py:16 | joining the pieces of `s.split(',')` with commas gives s back |
| PyText.SplitJoin | elevator.py:114 | splitting comma-free pieces joined with commas gives the pieces back |
| PyText.SplitNoComma | elevator.py:16 | a text without a comma splits into itself alone |
| PyText.SplitConcat | elevator.py:16 | a comma-free text before a comma is the first piece, and the rest splits on its own |
| Patterns.ScanDigitListBySplit | elevator.py:42 | the scanner for `\d+(?:,\d+)*` accepts a text iff its comma-separated pieces are digit runs, for either scanner state |
| Patterns.DigitListBySplit | elevator.py:42 | `\d+(?:,\d+)*` matches all of s iff every piece of `s.split(',')` is a non-empty digit run |
| Patterns.ScanDigitListCons | elevator.py:42 | a digit run and a comma leave the rest of the list to be matched from the start |
| Patterns.ScanDigitListRun | elevator.py:42 | a lone digit run matches the list pattern |
| Patterns.ScanRejectsForeignChar | elevator.py:42 | any character other than a digit or a comma makes the list pattern fail |
| Patterns.ScanRejectsEmptyEntry | elevator.py:42 | two commas in a row make the list pattern fail |
| Patterns.ScanSkipsDigits | elevator.py:42 | the scanner reads a run of digits to its end and is then in the digit state |
| Patterns.FirstDigit | elevator.py:12 | the search for `\d+` starts at the first digit, and no digit comes before it |
| Patterns.DigitRunEnd | elevator.py:12 | the greedy `\d+` stops at the first non-digit after its start |
| Patterns.SearchDigitRun | elevator.py:12 | the search for `\d+` returns None iff s has no digit; otherwise a digit run that starts after a stretch without digits and is not followed by a digit, so the leftmost run, taken whole |
| Patterns.SearchDigitList | elevator.py:15 | the search for `\d+(?:,\d+)*` returns None iff s has no digit; otherwise a text the list pattern accepts, starting after a stretch without digits, and followed neither by a digit nor by a comma and a digit, so the leftmost match, taken as far as greed goes |
| Patterns.ListMatchEndReachesEnd | elevator.py:15 | on a well-formed list tail the greedy `(?:,\d+)*` runs to the end of the text |
| Patterns.ListTailScans | elevator.py:15 | what the greedy `(?:,\d+)*` takes is accepted by the list scanner from the digit state |
| Patterns.SearchStartToken | elevator.py:12 | on an argument accepted by `start=\d+$`, the search returns exactly the digits after `start=` |
| Patterns.SearchFloorToken | elevator.py:15 | on an argument accepted by `floor=\d+(?:,\d+)*$`, the search returns exactly the text after `floor=` |
| Arguments.FloorPatternByPieces | elevator.py:42 | `floor=\d+(?:,\d+)*$` accepts a token iff it is `floor=` followed by comma-separated non-empty digit runs |
| Arguments.ValidateInput | elevator.py:34-46 | reports a wrong argument count iff there are not 4 arguments; passes iff there are 4, the literal `elevator`, a valid `start=` token and a valid `floor=` token |
| Arguments.ParseArguments | elevator.py:9-16 | fails iff validation fails, with the same error; otherwise gives the start floor then the `floor=` values in order, with at least 2 entries |
| Arguments.AcceptedExampleSimple | test_elevator.py:14 | `start=1 floor=2,3,4` passes validation |
| Arguments.AcceptedExampleSingleFloor | test_elevator.py:20 | `start=1 floor=4` passes and gives the visit list 1, 4 |
| Arguments.RejectedStartExamples | test_elevator.py:26-30 | the test file's arguments with a missing or malformed `start=` token are refused with the expected error |
| Arguments.RejectedFloorExamples | test_elevator.py:31-37 | the test file's arguments with a missing or malformed `floor=` token are refused with the expected error |
| Travel.MoveToFloor | elevator.py:59-71 | succeeds iff the list has at least 2 floors and none is negative; the loop's sum equals TravelTime; otherwise raises the ValueError with the source's message |
| Travel.TravelTimeSplit | elevator.py:89-92 | a trip split at an intermediate floor takes the time of the two parts together |
| Travel.TravelTimeExtend | elevator.py:68-69 | one more leg adds its distance times 10; this is the loop step |
| Travel.TravelTimeReversed | elevator.py:68-69 | visiting the same floors in reverse order takes the same time |
| Travel.TravelTimeZero | elevator.py:68-69 | the time is 0 iff every floor on the list is the same |
| Travel.TravelTimeAscending | elevator.py:68-69 | on a list that never goes down, the time is (last − first) × 10 |
| Travel.DirectTripIsShortest | elevator.py:68-69 | no route is quicker than the direct trip from the first floor to the last |
| Travel.TravelTimeExamples | test_elevator.py:44-49 | the test file's small lists take 100, 560, 0 and 80 |
| Travel.TravelTimeRunExamples | test_elevator.py:106-121 | the integration lists take 30, 30, 170 and 30 |
| Travel.TravelTimeLargeListExample | test_elevator.py:48 | floors 0..9999 take 99990, and floors 1..1000 take 9990 |
| Travel.RejectedVisitLists | test_elevator.py:54-59 | the empty list, a single floor and lists with a negative floor are not accepted |
| Output.IntToStringHasNoSeparator | elevator.py:113-114 | the text of an int holds no space, comma or newline |
| Output.ReadFloorTexts | elevator.py:114 | the texts of the floors read back as the floors |
| Output.JoinedFloorTexts | elevator.py:114 | the comma-joined floor list is empty iff there are no floors, and holds no space or newline |
| Output.PrintOutputShape | elevator.py:113-114 | the line ends in its only newline; its first space follows the time, and no space comes after that |
| Output.ReadPrintOutput | elevator.py:113-114 | reading the printed line gives back exactly the time and the floors |
| Output.PrintOutputExampleShort | test_elevator.py:74 | time 1 with floors 1, 2, 3 prints `1 1,2,3` and a newline |
| Output.PrintOutputExampleGiven | test_elevator.py:75 | time 560 with floors 12, 2, 9, 1, 32 prints `560 12,2,9,1,32` and a newline |
| Elevator.Run | elevator.py:7-24 | exit status 1 with the usage text on invalid arguments; otherwise status 0, and the output is the travel time of the parsed list, then the list |
| Elevator.ParsedListIsVisitList | elevator.py:16-19 | every list `main` builds is accepted by `move_to_floor` |
| Elevator.PrintedListEchoesArguments | elevator.py:12-21 | when no number has a leading zero, the printed floors are the `start=` value, a comma and the `floor=` value, as typed |
| Elevator.TextsOfParsed | elevator.py:16 | writing back the numbers read from texts without leading zeros gives those texts |
| Elevator.TwoFloorArguments | elevator.py:9-16 | arguments `start=s floor=a,b` with digit runs s, a and b give the visit list s, a, b |
| Elevator.LargeFloorsArguments | test_elevator.py:17 | `start=1 floor=10000000000,1` passes and gives the visit list 1, 10000000000, 1 |
| Elevator.LargeFloorsTime | test_elevator.py:110 | that list takes 199999999980, a time beyond 32 bits |
| Elevator.LargeFloorsLine | test_elevator.py:110 | that time and list print `199999999980 1,10000000000,1` and a newline |
| Elevator.LargeFloorsOutput | test_elevator.py:110 | end to end, those arguments give the line `199999999980 1,10000000000,1` |

## Left out

- Standard output and `sys.exit`: Run returns the printed text and the exit status as an Outcome instead of writing and exiting.
- Type checks in `move_to_floor` and `print_output` (elevator.py:60-61, 106-111): the model's lists hold ints, so a non-list, a string, a float or a bool cannot be passed. The test file's cases with such values (test_elevator.py:60-66, 82-92) are not modelled.
- Output.PrintOutput: a bool travel time is not modelled. The source does not refuse it and would print `True` or `False`.
- Arguments.ValidateInput: does not model `$` matching before a final newline. The source accepts `start=1` followed by a newline; the model refuses it.
- Arguments.ValidateInput: `\d` is taken as the ASCII digits only. Python also matches other Unicode decimal digits, and `int()` reads them.
- Arguments.ParseArguments: does not model CPython's limit of 4300 digits on converting a decimal string to an int (CPython 3.11 and later, and security releases of 3.7 to 3.10). `validate_input` puts no bound on the length of a number, so `start=` followed by 4301 digits passes validation; `int()` then raises a ValueError, while the model returns a visit list. Leading zeros count toward the limit.
- Elevator.Run: the `except Exception` branch and its message are not modelled. It is unreachable for numbers of at most 4300 digits: both searches succeed on validated arguments, and `move_to_floor` accepts the list they give. Under CPython's 4300-digit limit it is reached when a typed number has more than 4300 digits (`int()` raises), or when the travel time has more than 4300 digits (`str()` in `print_output` raises before anything is printed). The program then prints "An unexpected error occurred: " and the error's message, and exits with status 0; the model instead returns the travel line.
- The commented-out recursive `moveToFloor` (elevator.py:74-94) is dead code. Travel.TravelTime has its shape; its call of `.size()` on a list is not modelled.
- The subprocess harness of the integration tests (test_elevator.py:102-104) is not modelled. It strips the trailing newline before comparing, so the model's lines carry the newline the tests strip.
- Integer width: Python ints are unbounded, like Dafny's, so nothing wraps around. The only bound is the 4300-digit conversion limit named above.
