# Toy robot controller, modelled in Dafny

The model covers `RobotController`. CommandInput drives a robot on a 6×6 grid one text line at a time:

- `PLACE x,y,F` puts the robot on square (x, y) facing F.
- `MOVE` steps one square forward unless that would leave the grid.
- `LEFT` and `RIGHT` turn the robot.
- `REPORT` returns the line `Robot is at x, y, facing F`.

Every command answers with the report text. Before the first successful PLACE, it answers `No robot placed.` instead. A placed robot given an unknown verb gets no answer: the source returns null.

The project has four modules:

- `TextRules` (text_rules.dfy) holds the .NET string operations the controller relies on, as total functions over `string`:
  - ASCII upper-casing, for ToUpperInvariant;
  - an ordinal prefix test, for StartsWith;
  - IndexOf and LastIndexOf of a character;
  - Char.IsWhiteSpace and String.IsNullOrWhiteSpace;
  - `ParseInt`, which stands in for Int32.TryParse. It accepts surrounding white space, an optional sign and decimal digits, and fails outside 32 bits;
  - `IntToDecimal`, which renders an int like Int32.ToString.
- `RobotModel` (robot_model.dfy) holds the value side:
  - the `Directions` enum, with `Invalid` at ordinal 0;
  - `Coordinates` and `GRID_SIZE = 6`;
  - `GetDirection` and `GetLocation`;
  - one specification function per private operation: `PlaceResult`, `MoveResult`, `RotateResult` and `ReportText`;
  - `Execute`, the specification of CommandInput on a state value, with its response type: `Reported(text)`, or `Unrecognized` where the source returns null;
  - `Run`, which feeds a sequence of lines to CommandInput one after another.
- `Controller` (controller.dfy) holds the class `RobotController`. Its three fields are `position`, `currentFacing` and `robotPlaced`. CommandInput, Place, Move and Rotate update those fields in place. Each method's `ensures` ties the new fields and the returned text to the `RobotModel` function of the old fields.
- `RobotProperties` (robot_properties.dfy) holds the lemmas about the model:
  - the placement invariant;
  - PLACE acceptance and rejection, including the lenient forms without a space or without a y field;
  - the MOVE step;
  - the rotation table as the code has it;
  - the report;
  - gating before placement, recognition of unknown verbs, and case-insensitivity;
  - a few whole sessions.

Where the code and the documented intent differ, the model follows the code:

- `Rotate(1)` from West leaves the facing at West. It does not wrap round to North, so four RIGHTs do not restore the facing. Four LEFTs do.
- `firstSpacePos` is `IndexOf(' ') + 1`, so it is never negative and the `< 0` test is dead code. With no space, the x field starts at index 0. `PLACE1,2,NORTH` then has the x field `PLACE1`, which does not parse, so the PLACE is refused.
- A `PLACE` line whose y field does not parse still sets x. Y stays -1, which is off the grid, so the placement is refused.

## Model

| member | source | states |
|---|---|---|
| Controller.RobotController.constructor | ToyRobotLib/RobotController.cs:55-66 | a new controller is unplaced at (-1, -1) with the Invalid facing, and satisfies the placement invariant |
| Controller.RobotController.CommandInput | ToyRobotLib/RobotController.cs:75-101 | the fields after the call and the answer (a report, or Unrecognized for null) are exactly those of `Execute` on the old fields; the placement invariant is kept |
| Controller.RobotController.Rotate | ToyRobotLib/RobotController.cs:188-204 | the facing becomes `RotateFacing` of the old facing and the turn; position and placement are untouched; the answer is the new report |
| Controller.RobotController.Move | ToyRobotLib/RobotController.cs:210-238 | the position becomes the one-step candidate exactly when it is on the grid; the facing and placement are untouched; the invariant is kept |
| Controller.RobotController.Place | ToyRobotLib/RobotController.cs:247-269 | the fields become `PlaceResult`: unchanged for an off-grid position or an Invalid first facing; otherwise the position is taken, the facing only when it is a real one, and the robot is placed |
| Controller.RobotController.Report | ToyRobotLib/RobotController.cs:275-283 | the answer is "No robot placed." exactly when the robot is not placed |
| RobotModel.Ordinal | ToyRobotLib/RobotController.cs:24-31 | the enum's ordinals are 0..4, with 0 exactly for Invalid |
| RobotModel.FromOrdinal | ToyRobotLib/RobotController.cs:24-31 | FromOrdinal inverts Ordinal on 0..4 |
| RobotModel.DirectionOf | ToyRobotLib/RobotController.cs:122-129 | a real direction comes only from its exact upper-case word; every other text gives Invalid |
| RobotModel.GetDirection | ToyRobotLib/RobotController.cs:119-130 | a real direction means the line ends in that direction's word, preceded by a comma or by nothing |
| RobotModel.GetLocation | ToyRobotLib/RobotController.cs:137-182 | the coordinates always fit in 32 bits, and a line without a comma gives (-1, -1) |
| RobotModel.LocationAfterChecks | ToyRobotLib/RobotController.cs:151-165 | once the x field is located, the coordinates fit in 32 bits |
| RobotModel.LocationY | ToyRobotLib/RobotController.cs:167-181 | the y value fits in 32 bits, -1 when the field does not parse |
| RobotModel.RotateFacing | ToyRobotLib/RobotController.cs:188-201 | a turn from a real facing gives a real facing |
| RobotModel.ReportText | ToyRobotLib/RobotController.cs:275-283 | "No robot placed." exactly when not placed; otherwise "Robot is at X, Y, facing Name", with X and Y one digit each on the grid |
| RobotModel.Execute | ToyRobotLib/RobotController.cs:75-101 | CommandInput keeps the invariant (placed means on the grid with a real facing) and never unplaces the robot; Unrecognized changes nothing; a report is always the report of the new state |
| RobotModel.Dispatch | ToyRobotLib/RobotController.cs:78-100 | the same guarantees for a line that is already upper-cased |
| RobotModel.Verb | ToyRobotLib/RobotController.cs:93-100 | each of the four verbs of a placed robot keeps it placed and answers with its new report |
| RobotModel.Run | ToyRobotTest/Program.cs:17-25 | the session the console loop drives (one CommandInput call per line, on the state the previous call left): over any session the invariant holds, one answer comes per line, and placement is never lost |
| RobotModel.Name | ToyRobotLib/RobotController.cs:282 | the enum's ToString is never empty, and upper-cased it is the word a PLACE command uses for that direction |
| RobotModel.ValidPosition | ToyRobotLib/RobotController.cs:108-112 | a square of the grid is never the (-1, -1) sentinel; MoveBlockedExactlyAtEdge and PlaceCommand state what it lets through |
| RobotModel.Inv | ToyRobotLib/RobotController.cs:56-62 | in a reachable state, being placed is the same as standing on the grid, and the same as having a real facing |
| RobotModel.PlaceResult | ToyRobotLib/RobotController.cs:247-269 | Place keeps the invariant, never unplaces the robot, changes nothing for an off-grid position, and any change moves the robot to the given position and places it; the facing is the old one or the given one |
| RobotModel.Stepped | ToyRobotLib/RobotController.cs:212-230 | the candidate of Move is one unit from the old position for a real facing, and the old position for Invalid |
| RobotModel.MoveResult | ToyRobotLib/RobotController.cs:210-238 | Move keeps facing and placement and the invariant, and moves the robot by at most one unit |
| RobotModel.RotateResult | ToyRobotLib/RobotController.cs:188-204 | a turn keeps the position and placement and the invariant, and leaves a real facing |
| TextRules.UpperChar | ToyRobotLib/RobotController.cs:77 | a lower-case ASCII letter becomes its capital; every other character is kept; no result is lower-case |
| TextRules.ToUpper | ToyRobotLib/RobotController.cs:77 | upper-casing keeps the length, leaves no lower-case letter, and changes nothing but lower-case letters |
| TextRules.StartsWith | ToyRobotLib/RobotController.cs:78 | a line starting with a prefix holds that prefix character for character at its front |
| TextRules.IsWhiteSpace | ToyRobotLib/RobotController.cs:153 | the white space TryParse skips is white space here too, and no white space is a digit or a sign |
| TextRules.IsNullOrWhiteSpace | ToyRobotLib/RobotController.cs:153 | the empty field is blank, and a blank field holds no digit |
| TextRules.BlankNeverParses | ToyRobotLib/RobotController.cs:153-158 | a blank field never parses as a number |
| TextRules.ParseTrimmed | ToyRobotLib/RobotController.cs:158 | once white space is trimmed, a parsed value fits in 32 bits, the text starts with a digit or a sign, and the value's sign follows the leading '-' |
| TextRules.ToUpperIdempotent | ToyRobotLib/RobotController.cs:77 | upper-casing twice is upper-casing once |
| TextRules.ToUpperFixed | ToyRobotLib/RobotController.cs:77 | text without lower-case letters is left as it is |
| TextRules.IndexOf | ToyRobotLib/RobotController.cs:142-143 | the first index holding the character, or -1 exactly when it does not occur |
| TextRules.LastIndexOf | ToyRobotLib/RobotController.cs:168 | the last index holding the character, or -1 exactly when it does not occur |
| TextRules.ParseInt | ToyRobotLib/RobotController.cs:158 | a parsed value fits in 32 bits |
| TextRules.ParseIntToDecimal | ToyRobotLib/RobotController.cs:158-160 | parsing the decimal rendering of n gives n back exactly when n fits in 32 bits, and fails otherwise |
| TextRules.ParseIntFirstChar | ToyRobotLib/RobotController.cs:158-165 | text whose first character is not white space, a sign or a digit never parses |
| TextRules.NatToDecimal | ToyRobotLib/RobotController.cs:282 | the rendering is a digit string whose value is n, with no leading zero |
| TextRules.IntToDecimal | ToyRobotLib/RobotController.cs:282 | the rendering is non-empty, starts with something other than white space, and ends in a digit |
| TextRules.DecimalChars | ToyRobotLib/RobotController.cs:282 | every character of a rendering is a digit, apart from a leading minus for negative numbers |
| TextRules.SmallDecimal | ToyRobotLib/RobotController.cs:282 | 0..9 render as one digit |
| RobotProperties.IndexOfAt | ToyRobotLib/RobotController.cs:142-143 | a character at k with no earlier occurrence is found at k |
| RobotProperties.LastIndexOfAt | ToyRobotLib/RobotController.cs:168 | a character at k with no later occurrence is found last at k |
| RobotProperties.LocationFromFields | ToyRobotLib/RobotController.cs:142-181 | given where the first space, the first comma and the last comma are, GetLocation is Unset when x fails, (x, -1) when only y fails, and (x, y) when both parse |
| RobotProperties.LocationRefusedEarly | ToyRobotLib/RobotController.cs:142-156 | GetLocation gives Unset when the first comma comes before the x field would start (no comma included) and when the x field is blank |
| RobotProperties.CommaBeforeSpace | ToyRobotLib/RobotController.cs:142-149 | "PLACE,1 2,NORTH" gives Unset, because its first comma precedes its first space |
| RobotProperties.BlankXField | ToyRobotLib/RobotController.cs:151-156 | "PLACE ,1,NORTH" gives Unset, because its x field is empty |
| RobotProperties.YAfterOnlyComma | ToyRobotLib/RobotController.cs:170-179 | with a single comma, y is read from everything after it, and is -1 when that text does not parse |
| RobotProperties.LocationSingleComma | ToyRobotLib/RobotController.cs:142-181 | "PLACE xs,u" with one comma gives Unset when x fails, and otherwise x with y read from u (or -1) |
| RobotProperties.PlaceWithoutDirection | ToyRobotLib/RobotController.cs:75-81 | "PLACE x,y" moves a placed robot to (x, y) on the grid and keeps its facing; an unplaced robot or an off-grid square changes nothing |
| RobotProperties.PositionLineFields | ToyRobotLib/RobotController.cs:119-182 | "PLACE x,y" is read as the square (x, y) exactly when that square is on the grid, and gives no direction |
| RobotProperties.DecimalNoDirection | ToyRobotLib/RobotController.cs:122-129 | a decimal number is never a direction word |
| RobotProperties.XField | ToyRobotLib/RobotController.cs:151-165 | a non-blank x field that fails to parse gives Unset; one that parses sets x |
| RobotProperties.YField | ToyRobotLib/RobotController.cs:167-181 | y is read between the first and the last comma, and is -1 when that field fails |
| RobotProperties.ParsePlaceText | ToyRobotLib/RobotController.cs:119-182 | "PLACE x,y,w" is read back as (x, y), with y = -1 outside 32 bits and Unset when x is outside 32 bits; its direction is that of w |
| RobotProperties.UpperPlaceText | ToyRobotLib/RobotController.cs:77-78 | upper-casing "PLACE x,y,w" upper-cases only w, and the line still starts with PLACE |
| RobotProperties.PlaceCommand | ToyRobotLib/RobotController.cs:75-81 | for "PLACE x,y,w" the robot moves to (x, y) exactly when (x, y) is on the grid and w names a direction in any case or the robot is already placed; the facing comes from w when w names one, else it is kept; a refused PLACE changes nothing |
| RobotProperties.PlaceWithoutSpace | ToyRobotLib/RobotController.cs:142-165 | a PLACE line without a space never yields a location, because its x field starts with "PLACE" |
| RobotProperties.LocationWithoutY | ToyRobotLib/RobotController.cs:167-181 | "PLACE xs,u" where u does not parse never yields a square of the grid |
| RobotProperties.PlaceWithoutY | ToyRobotLib/RobotController.cs:75-81 | "PLACE x,WORD" with no y field changes nothing and answers with the unchanged report |
| RobotProperties.DirectionAfterLastComma | ToyRobotLib/RobotController.cs:119-130 | a direction word after the last comma is recognised, and so is a bare direction word |
| RobotProperties.CaseInsensitive | ToyRobotLib/RobotController.cs:77 | a line and its upper-case form have the same effect and answer |
| RobotProperties.GatedBeforePlacement | ToyRobotLib/RobotController.cs:83-86 | before placement every non-PLACE line, unknown verbs included, answers "No robot placed." and changes nothing |
| RobotProperties.UnrecognizedExactly | ToyRobotLib/RobotController.cs:83-91 | the answer is Unrecognized exactly when the robot is placed and the upper-cased line is not a PLACE and is none of MOVE, LEFT, RIGHT, REPORT |
| RobotProperties.PlaceLine | ToyRobotLib/RobotController.cs:78-81 | a line that upper-cases to a PLACE runs Place on the parsed location and direction, whatever the state |
| RobotProperties.MoveLine | ToyRobotLib/RobotController.cs:93-95 | MOVE of a placed robot runs Move and reports |
| RobotProperties.LeftLine | ToyRobotLib/RobotController.cs:96 | LEFT of a placed robot is a turn of -1 and reports |
| RobotProperties.RightLine | ToyRobotLib/RobotController.cs:97 | RIGHT of a placed robot is a turn of +1 and reports |
| RobotProperties.ReportLine | ToyRobotLib/RobotController.cs:98 | REPORT of a placed robot only reports |
| RobotProperties.MoveStep | ToyRobotLib/RobotController.cs:210-238 | Move takes the unit step of the facing exactly when the target is on the grid and otherwise keeps the position; facing and placement never change |
| RobotProperties.MoveBlockedExactlyAtEdge | ToyRobotLib/RobotController.cs:214-235 | Move leaves a placed robot where it is exactly when the robot faces the edge it stands on |
| RobotProperties.FourLeftTurns | ToyRobotLib/RobotController.cs:190-201 | four left turns bring every facing back |
| RobotProperties.RightTurnsStopAtWest | ToyRobotLib/RobotController.cs:194-201 | three right turns reach West from any facing, so four right turns restore the facing only from West |
| RobotProperties.TurnsUndo | ToyRobotLib/RobotController.cs:188-201 | right undoes left except from North, and left undoes right except from West |
| RobotProperties.TurnsInjective | ToyRobotLib/RobotController.cs:188-201 | left turns are one-to-one; right turns merge exactly South and West |
| RobotProperties.FourLeftCommands | ToyRobotLib/RobotController.cs:93-97 | four LEFT lines restore a placed robot's whole state; four RIGHT lines from North leave it facing West |
| RobotProperties.ReportDeterminesState | ToyRobotLib/RobotController.cs:275-283 | two placed robots with the same report are in the same state |
| RobotProperties.RunTwo | ToyRobotTest/Program.cs:17-25 | two lines run one after the other, the second on the state the first leaves |
| RobotProperties.PlaceWord | ToyRobotLib/RobotController.cs:247-269 | "PLACE x,y,F" with a direction word on the grid places the robot there facing F, whatever came before |
| RobotProperties.WordReadsBack | ToyRobotLib/RobotController.cs:122-129 | every direction word is already upper-case, holds no comma, and is read back as its direction |
| RobotProperties.PlaceThenReport | ToyRobotLib/RobotController.cs:247-283 | PLACE x,y,F then REPORT reports exactly that square and facing |
| RobotProperties.OffGridPlaceFirst | ToyRobotLib/RobotController.cs:249-252 | an off-grid first PLACE leaves the robot unplaced, so both answers are "No robot placed." |
| RobotProperties.CornerMove | ToyRobotLib/RobotController.cs:216-235 | from (5, 5) facing North, MOVE is discarded |
| RobotProperties.JumpLine | ToyRobotLib/RobotController.cs:88-91 | JUMP of a placed robot is Unrecognized and changes nothing |
| RobotProperties.UnknownVerbSession | ToyRobotLib/RobotController.cs:75-101 | PLACE 0,0,NORTH; JUMP; REPORT answers the position, then Unrecognized, then the same position |

## Left out

- ToyRobotTest/Program.cs, the console loop, is I/O. It echoes each answer, skips blank lines and stops at "x". `Run` models only the list of lines that reach CommandInput.
- ToyRobotLib/IRobotController.cs declares only the signature of CommandInput. It has no logic, and `Controller.RobotController` stands in for it.
- A null command line: CommandInput would throw on a null string. Dafny strings are never null, so this case does not arise in the model.
- Upper-casing is ASCII-only. ToUpperInvariant also upper-cases some letters outside ASCII to ASCII letters. For instance, under ICU casing it maps U+017F (long s) to 'S', so as a first placement the source accepts "PLACE 1,2,ſouth" facing South and the model refuses it.
- StartsWith("PLACE") is modelled as an ordinal prefix test. The .NET default compares under the current culture, which can ignore some zero-width characters.
- Int32.TryParse is modelled by `ParseInt` only:
  - white space U+0009..U+000D and U+0020 around the number, an optional '-' or '+', and ASCII digits;
  - no trailing NUL characters, no culture-specific signs, no thousands separators.
- Int32.ToString is modelled for the invariant culture only.
- Move: 32-bit wrap-around of `Y++` and `X++` is not modelled, because a placed robot's coordinates are always 0..5.
- Controller.RobotController.Rotate requires a real facing and a turn of -1 or +1. Its only caller, CommandInput, passes only those two turns, and only for a placed robot. The invariant guarantees that a placed robot has a real facing. Some other inputs would step the enum outside its named values: a left turn from Invalid, for instance, gives -1.
- Concurrency is not modelled. The class is not thread-safe, and the model treats each call as atomic.
