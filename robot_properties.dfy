/** What CommandInput promises, proved about RobotModel.Execute (and so about every
    RobotController object, whose CommandInput is tied to Execute). */
module RobotProperties {
  import opened TextRules
  import opened RobotModel

  // ---------------------------------------------------------------------------
  // Character search
  // ---------------------------------------------------------------------------

  lemma IndexOfAt(s: string, c: char, k: nat)
    requires k < |s| && s[k] == c && c !in s[..k]
    ensures IndexOf(s, c) == k
  {
    assert s[k] in s;
    var r := IndexOf(s, c);
    assert forall j :: 0 <= j < k ==> s[j] == s[..k][j];
    assert forall j :: 0 <= j < r ==> s[j] == s[..r][j];
  }

  lemma LastIndexOfAt(s: string, c: char, k: nat)
    requires k < |s| && s[k] == c && c !in s[k + 1..]
    ensures LastIndexOf(s, c) == k
  {
    assert s[k] in s;
    var r := LastIndexOf(s, c);
    assert forall j :: k < j < |s| ==> s[j] == s[k + 1..][j - k - 1];
    assert forall j :: r < j < |s| ==> s[j] == s[r + 1..][j - r - 1];
  }

  // ---------------------------------------------------------------------------
  // Parsing a well-formed PLACE line
  // ---------------------------------------------------------------------------

  /** The line "PLACE x,y,w" with x and y written in decimal. */
  function PlaceText(x: int, y: int, w: string): string {
    "PLACE " + IntToDecimal(x) + "," + IntToDecimal(y) + "," + w
  }

  /** The first space of a line "PLACE ..." is the one after PLACE. */
  lemma PlaceFirstSpace(rest: string)
    ensures IndexOf("PLACE " + rest, ' ') == 5
  {
    var cmd := "PLACE " + rest;
    assert cmd[..5] == "PLACE" && cmd[5] == ' ';
    IndexOfAt(cmd, ' ', 5);
  }

  /** The first comma of "PLACE xs,..." ends xs when xs holds none. */
  lemma PlaceFirstComma(xs: string, rest: string)
    requires ',' !in xs
    ensures IndexOf("PLACE " + xs + "," + rest, ',') == 6 + |xs|
  {
    var cmd := "PLACE " + xs + "," + rest;
    var c1 := 6 + |xs|;
    assert cmd[..c1] == "PLACE " + xs && cmd[c1] == ',';
    assert forall i :: 0 <= i < c1 ==> cmd[..c1][i] != ',' by {
      forall i | 0 <= i < c1 ensures cmd[..c1][i] != ',' {
        if i >= 6 { assert cmd[..c1][i] == xs[i - 6]; assert xs[i - 6] in xs; }
      }
    }
    IndexOfAt(cmd, ',', c1);
  }

  /** The last comma of "front,w" is the one before w when w holds none. */
  lemma LastCommaBefore(front: string, w: string)
    requires ',' !in w
    ensures LastIndexOf(front + "," + w, ',') == |front|
  {
    var cmd := front + "," + w;
    assert cmd[|front|] == ',' && cmd[|front| + 1..] == w;
    LastIndexOfAt(cmd, ',', |front|);
  }

  /** The three fields of "PLACE xs,ys,w" as slices. */
  lemma PlaceSlices(xs: string, ys: string, w: string)
    ensures var cmd := "PLACE " + xs + "," + ys + "," + w;
            cmd[6..6 + |xs|] == xs && cmd[7 + |xs|..7 + |xs| + |ys|] == ys
            && cmd[8 + |xs| + |ys|..] == w
  {
  }

  /** The two fields of "PLACE xs,u" as slices. */
  lemma PlaceSlicesWithoutY(xs: string, u: string)
    ensures var cmd := "PLACE " + xs + "," + u;
            cmd[6..6 + |xs|] == xs && cmd[7 + |xs|..] == u
  {
  }

  /** The decimal form of an int holds no comma and does not count as white space. */
  lemma DecimalShape(n: int)
    ensures ',' !in IntToDecimal(n) && !IsNullOrWhiteSpace(IntToDecimal(n))
  {
    var d := IntToDecimal(n);
    DecimalChars(n);
    assert !IsWhiteSpace(d[|d| - 1]);
    assert forall i :: 0 <= i < |d| ==> d[i] != ',';
  }

  /** GetLocation once its three search results are known, with x between a space and a
      comma and y between two later commas. */
  lemma LocationFromFields(cmd: string, space: nat, c1: nat, c2: nat, xs: string, ys: string)
    requires space < c1 < c2 < |cmd|
    requires IndexOf(cmd, ' ') == space && IndexOf(cmd, ',') == c1 && LastIndexOf(cmd, ',') == c2
    requires cmd[space + 1..c1] == xs && cmd[c1 + 1..c2] == ys && !IsNullOrWhiteSpace(xs)
    ensures ParseInt(xs).None? ==> GetLocation(cmd) == Unset
    ensures ParseInt(xs).Some? && ParseInt(ys).None? ==> GetLocation(cmd) == Coordinates(ParseInt(xs).value, -1)
    ensures ParseInt(xs).Some? && ParseInt(ys).Some?
            ==> GetLocation(cmd) == Coordinates(ParseInt(xs).value, ParseInt(ys).value)
  {
    LocationAt(cmd, space, c1);
    XField(cmd, space + 1, c1, xs);
    YField(cmd, c1, c2, ys);
  }

  /** GetLocation past its checks, once the first space and the first comma are known. */
  lemma LocationAt(cmd: string, space: nat, c1: nat)
    requires space < c1 < |cmd| && IndexOf(cmd, ' ') == space && IndexOf(cmd, ',') == c1
    ensures GetLocation(cmd) == LocationAfterChecks(cmd, space + 1, c1)
  {
  }

  /** The x field decides whether GetLocation gives up. */
  lemma XField(cmd: string, a: nat, c1: nat, xs: string)
    requires a <= c1 < |cmd| && cmd[a..c1] == xs && !IsNullOrWhiteSpace(xs)
    ensures ParseInt(xs).None? ==> LocationAfterChecks(cmd, a, c1) == Unset
    ensures ParseInt(xs).Some?
            ==> LocationAfterChecks(cmd, a, c1) == Coordinates(ParseInt(xs).value, LocationY(cmd, c1))
  {
  }

  /** The y field between the first and the last comma. */
  lemma YField(cmd: string, c1: nat, c2: nat, ys: string)
    requires c1 < c2 < |cmd| && LastIndexOf(cmd, ',') == c2 && cmd[c1 + 1..c2] == ys
    ensures LocationY(cmd, c1) == match ParseInt(ys) case None => -1 case Some(y) => y
  {
  }

  /** GetDirection once the last comma is known. */
  lemma DirectionFromField(cmd: string, c2: nat)
    requires c2 < |cmd| && LastIndexOf(cmd, ',') == c2
    ensures GetDirection(cmd) == DirectionOf(cmd[c2 + 1..])
  {
  }

  /** The three searches of GetLocation on "PLACE xs,ys,w" when xs and w hold no comma. */
  lemma FieldSearch(xs: string, ys: string, w: string)
    requires ',' !in xs && ',' !in w
    ensures var cmd := "PLACE " + xs + "," + ys + "," + w;
            IndexOf(cmd, ' ') == 5 && IndexOf(cmd, ',') == 6 + |xs|
            && LastIndexOf(cmd, ',') == 7 + |xs| + |ys|
  {
    SpaceSearch(xs, ys, w);
    CommaSearch(xs, ys, w);
    LastCommaBefore("PLACE " + xs + "," + ys, w);
  }

  lemma SpaceSearch(xs: string, ys: string, w: string)
    ensures IndexOf("PLACE " + xs + "," + ys + "," + w, ' ') == 5
  {
    assert "PLACE " + xs + "," + ys + "," + w == "PLACE " + (xs + "," + ys + "," + w);
    PlaceFirstSpace(xs + "," + ys + "," + w);
  }

  lemma CommaSearch(xs: string, ys: string, w: string)
    requires ',' !in xs
    ensures IndexOf("PLACE " + xs + "," + ys + "," + w, ',') == 6 + |xs|
  {
    assert "PLACE " + xs + "," + ys + "," + w == "PLACE " + xs + "," + (ys + "," + w);
    PlaceFirstComma(xs, ys + "," + w);
  }

  /** GetLocation and GetDirection of "PLACE xs,ys,w" for fields without commas. */
  lemma ParseFields(xs: string, ys: string, w: string)
    requires ',' !in xs && ',' !in ys && ',' !in w && !IsNullOrWhiteSpace(xs)
    ensures var cmd := "PLACE " + xs + "," + ys + "," + w;
            GetLocation(cmd) == (match ParseInt(xs)
                                 case None => Unset
                                 case Some(x) => Coordinates(x, match ParseInt(ys)
                                                                case None => -1
                                                                case Some(y) => y))
            && GetDirection(cmd) == DirectionOf(w)
  {
    var cmd := "PLACE " + xs + "," + ys + "," + w;
    FieldSearch(xs, ys, w);
    PlaceSlices(xs, ys, w);
    LocationFromFields(cmd, 5, 6 + |xs|, 7 + |xs| + |ys|, xs, ys);
    DirectionFromField(cmd, 7 + |xs| + |ys|);
  }

  /** Where GetLocation puts x and y of "PLACE x,y,w": both are read back, except that a
      y outside 32 bits stays -1 and an x outside 32 bits gives Unset; the direction is
      read from w. */
  lemma ParsePlaceText(x: int, y: int, w: string)
    requires ',' !in w
    ensures GetLocation(PlaceText(x, y, w))
            == if InInt32(x) then Coordinates(x, if InInt32(y) then y else -1) else Unset
    ensures GetDirection(PlaceText(x, y, w)) == DirectionOf(w)
  {
    DecimalShape(x);
    DecimalShape(y);
    ParseFields(IntToDecimal(x), IntToDecimal(y), w);
    ParseIntToDecimal(x);
    ParseIntToDecimal(y);
  }

  /** Upper-casing leaves a prefix without lower-case letters alone. */
  lemma UpperAfter(prefix: string, w: string)
    requires NoLower(prefix)
    ensures ToUpper(prefix + w) == prefix + ToUpper(w)
  {
    ToUpperFixed(prefix);
    ToUpperConcat(prefix, w);
  }

  /** A prefix is still a prefix once more text follows. */
  lemma StartsWithConcat(a: string, b: string, prefix: string)
    requires StartsWith(a, prefix)
    ensures StartsWith(a + b, prefix)
  {
    assert (a + b)[..|prefix|] == a[..|prefix|];
  }

  /** The text of "PLACE x,y," before the direction word. */
  lemma PlacePrefix(x: int, y: int)
    ensures var prefix := "PLACE " + IntToDecimal(x) + "," + IntToDecimal(y) + ",";
            NoLower(prefix) && StartsWith(prefix, "PLACE")
  {
    var xs, ys := IntToDecimal(x), IntToDecimal(y);
    DecimalNoLower(x);
    DecimalNoLower(y);
    assert NoLower("PLACE ") && NoLower(",");
    NoLowerConcat("PLACE ", xs);
    NoLowerConcat("PLACE " + xs, ",");
    NoLowerConcat("PLACE " + xs + ",", ys);
    NoLowerConcat("PLACE " + xs + "," + ys, ",");
    assert StartsWith("PLACE ", "PLACE");
    StartsWithConcat("PLACE ", xs, "PLACE");
    StartsWithConcat("PLACE " + xs, ",", "PLACE");
    StartsWithConcat("PLACE " + xs + ",", ys, "PLACE");
    StartsWithConcat("PLACE " + xs + "," + ys, ",", "PLACE");
  }

  /** Upper-casing creates no comma. */
  lemma UpperNoComma(w: string)
    requires ',' !in w
    ensures ',' !in ToUpper(w)
  {
    assert forall i :: 0 <= i < |w| ==> ToUpper(w)[i] != ',' by {
      forall i | 0 <= i < |w| ensures ToUpper(w)[i] != ',' {
        assert w[i] != ',' by { assert w[i] in w; }
      }
    }
  }

  /** Upper-casing "PLACE x,y,w" only upper-cases w. */
  lemma UpperPlaceText(x: int, y: int, w: string)
    requires ',' !in w
    ensures ToUpper(PlaceText(x, y, w)) == PlaceText(x, y, ToUpper(w))
    ensures ',' !in ToUpper(w)
    ensures StartsWith(PlaceText(x, y, w), "PLACE")
  {
    var prefix := "PLACE " + IntToDecimal(x) + "," + IntToDecimal(y) + ",";
    PlacePrefix(x, y);
    UpperAfter(prefix, w);
    UpperNoComma(w);
    StartsWithConcat(prefix, w, "PLACE");
  }

  /** PLACE x,y,w: the robot goes to (x, y) exactly when (x, y) is on the grid and either
      w names a direction (in any case) or the robot is already placed; the facing is taken
      from w when it names one, and kept otherwise.  A refused PLACE changes nothing. */
  lemma PlaceCommand(s: RobotState, x: int, y: int, w: string)
    requires Inv(s) && ',' !in w
    ensures var d := DirectionOf(ToUpper(w));
            var o := Execute(s, PlaceText(x, y, w));
            o.state == (if ValidPosition(Coordinates(x, y)) && (d != Invalid || s.placed)
                        then RobotState(Coordinates(x, y), if d != Invalid then d else s.facing, true)
                        else s)
            && o.response == Reported(ReportText(o.state))
  {
    UpperPlaceText(x, y, w);
    var cmd := PlaceText(x, y, ToUpper(w));
    PlaceLine(s, PlaceText(x, y, w));
    ParsePlaceText(x, y, ToUpper(w));
    var loc := GetLocation(cmd);
    assert ValidPosition(loc) <==> ValidPosition(Coordinates(x, y));
    assert ValidPosition(loc) ==> loc == Coordinates(x, y);
  }

  /** A PLACE line without a space reads its x field from the start of the line, so x
      never parses and the position is Unset. */
  lemma PlaceWithoutSpace(command: string)
    requires StartsWith(command, "PLACE") && ' ' !in command
    ensures GetLocation(command) == Unset
  {
    if ',' in command {
      var comma := IndexOf(command, ',');
      assert command[..5] == "PLACE";
      assert forall j :: 0 <= j < 5 ==> command[j] == command[..5][j];
      var xValue := command[0..comma];
      assert xValue[0] == 'P';
      assert !IsNullOrWhiteSpace(xValue);
      ParseIntFirstChar(xValue);
    }
  }

  /** GetLocation gives Unset when the first comma comes before the x field would start
      (no comma at all included), and when the x field is blank. */
  lemma LocationRefusedEarly(command: string)
    ensures IndexOf(command, ',') < IndexOf(command, ' ') + 1 ==> GetLocation(command) == Unset
    ensures var a, c := IndexOf(command, ' ') + 1, IndexOf(command, ',');
            a <= c && IsNullOrWhiteSpace(command[a..c]) ==> GetLocation(command) == Unset
  {
  }

  /** "PLACE,1 2,NORTH": the first comma precedes the first space, so nothing is read. */
  lemma CommaBeforeSpace()
    ensures GetLocation("PLACE,1 2,NORTH") == Unset
  {
    var cmd := "PLACE,1 2,NORTH";
    assert cmd[5] == ',' && cmd[..5] == "PLACE";
    IndexOfAt(cmd, ',', 5);
    assert cmd[7] == ' ' && cmd[..7] == "PLACE,1";
    IndexOfAt(cmd, ' ', 7);
    LocationRefusedEarly(cmd);
  }

  /** "PLACE ,1,NORTH": the x field is empty, so nothing is read. */
  lemma BlankXField()
    ensures GetLocation("PLACE ,1,NORTH") == Unset
  {
    var cmd := "PLACE ,1,NORTH";
    assert cmd[5] == ' ' && cmd[..5] == "PLACE";
    IndexOfAt(cmd, ' ', 5);
    assert cmd[6] == ',' && cmd[..6] == "PLACE ";
    IndexOfAt(cmd, ',', 6);
    assert cmd[6..6] == [];
    LocationRefusedEarly(cmd);
  }

  /** With a single comma, y is read from everything after it. */
  lemma YAfterOnlyComma(cmd: string, c1: nat, u: string)
    requires c1 < |cmd| && LastIndexOf(cmd, ',') == c1 && cmd[c1 + 1..] == u
    ensures LocationY(cmd, c1) == match ParseInt(u) case None => -1 case Some(y) => y
  {
  }

  /** GetLocation of "PLACE xs,u" with a single comma: Unset when x fails, otherwise x
      with the y read from u, or -1 when u does not parse. */
  lemma LocationSingleComma(xs: string, u: string)
    requires ',' !in xs && ',' !in u && !IsNullOrWhiteSpace(xs)
    ensures GetLocation("PLACE " + xs + "," + u)
            == match ParseInt(xs)
               case None => Unset
               case Some(x) => Coordinates(x, match ParseInt(u) case None => -1 case Some(y) => y)
  {
    var cmd := "PLACE " + xs + "," + u;
    var c1 := 6 + |xs|;
    assert cmd == "PLACE " + (xs + "," + u);
    PlaceFirstSpace(xs + "," + u);
    PlaceFirstComma(xs, u);
    LastCommaBefore("PLACE " + xs, u);
    PlaceSlicesWithoutY(xs, u);
    LocationAt(cmd, 5, c1);
    XField(cmd, 6, c1, xs);
    YAfterOnlyComma(cmd, c1, u);
  }

  /** GetLocation of "PLACE xs,u" when u holds no comma and does not parse: never a
      square of the grid, since y stays -1 (or x fails too). */
  lemma LocationWithoutY(xs: string, u: string)
    requires ',' !in xs && ',' !in u && ParseInt(u).None?
    ensures !ValidPosition(GetLocation("PLACE " + xs + "," + u))
  {
    var cmd := "PLACE " + xs + "," + u;
    var c1 := 6 + |xs|;
    assert cmd == "PLACE " + (xs + "," + u);
    PlaceFirstSpace(xs + "," + u);
    PlaceFirstComma(xs, u);
    LastCommaBefore("PLACE " + xs, u);
    PlaceSlicesWithoutY(xs, u);
    assert LocationY(cmd, c1) == -1;
  }

  /** "PLACE x,w" (no y field) where w starts with a letter: nothing changes. */
  lemma PlaceWithoutY(s: RobotState, x: int, w: string)
    requires Inv(s) && ',' !in w && w != [] && ('A' <= w[0] <= 'Z' || 'a' <= w[0] <= 'z')
    ensures Execute(s, "PLACE " + IntToDecimal(x) + "," + w) == Outcome(s, Reported(ReportText(s)))
  {
    var xs := IntToDecimal(x);
    var line := "PLACE " + xs + "," + w;
    var u := ToUpper(w);
    UpperWithoutY(x, w);
    DecimalShape(x);
    ParseIntFirstChar(u);
    LocationWithoutY(xs, u);
    PlaceLine(s, line);
  }

  lemma UpperWithoutY(x: int, w: string)
    requires ',' !in w
    ensures var prefix := "PLACE " + IntToDecimal(x) + ",";
            ToUpper(prefix + w) == prefix + ToUpper(w) && StartsWith(prefix + ToUpper(w), "PLACE")
            && ',' !in ToUpper(w)
  {
    var xs := IntToDecimal(x);
    DecimalNoLower(x);
    assert NoLower("PLACE ") && NoLower(",");
    NoLowerConcat("PLACE ", xs);
    NoLowerConcat("PLACE " + xs, ",");
    UpperAfter("PLACE " + xs + ",", w);
    UpperNoComma(w);
    assert StartsWith("PLACE ", "PLACE");
    StartsWithConcat("PLACE ", xs, "PLACE");
    StartsWithConcat("PLACE " + xs, ",", "PLACE");
    StartsWithConcat("PLACE " + xs + ",", ToUpper(w), "PLACE");
  }

  /** A decimal number is no direction word. */
  lemma DecimalNoDirection(n: int)
    ensures DirectionOf(IntToDecimal(n)) == Invalid
  {
    var r := IntToDecimal(n);
    DecimalChars(n);
    assert IsDigit(r[0]) || r[0] == '-';
  }

  /** "PLACE x,y" (no direction): a placed robot moves to (x, y) when it is on the grid and
      keeps its facing; an unplaced robot, or an off-grid square, changes nothing. */
  lemma PlaceWithoutDirection(s: RobotState, x: int, y: int)
    requires Inv(s)
    ensures Execute(s, "PLACE " + IntToDecimal(x) + "," + IntToDecimal(y))
            == Reporting(if s.placed && ValidPosition(Coordinates(x, y))
                         then s.(position := Coordinates(x, y)) else s)
  {
    var line := "PLACE " + IntToDecimal(x) + "," + IntToDecimal(y);
    PositionLineUpper(x, y);
    PositionLineFields(x, y);
    PlaceLine(s, line);
  }

  lemma PositionLineUpper(x: int, y: int)
    ensures var line := "PLACE " + IntToDecimal(x) + "," + IntToDecimal(y);
            ToUpper(line) == line && StartsWith(line, "PLACE")
  {
    var ys := IntToDecimal(y);
    UpperWithoutY(x, ys);
    DecimalNoLower(y);
    ToUpperFixed(ys);
  }

  /** What GetLocation and GetDirection read from "PLACE x,y". */
  lemma PositionLineFields(x: int, y: int)
    ensures var line := "PLACE " + IntToDecimal(x) + "," + IntToDecimal(y);
            var loc := GetLocation(line);
            (ValidPosition(loc) <==> ValidPosition(Coordinates(x, y)))
            && (ValidPosition(loc) ==> loc == Coordinates(x, y))
            && GetDirection(line) == Invalid
  {
    var xs, ys := IntToDecimal(x), IntToDecimal(y);
    var line := "PLACE " + xs + "," + ys;
    DecimalShape(x);
    DecimalShape(y);
    LocationSingleComma(xs, ys);
    ParseIntToDecimal(x);
    ParseIntToDecimal(y);
    PositionLineDirection(xs, ys);
    DecimalNoDirection(y);
  }

  lemma PositionLineDirection(xs: string, ys: string)
    requires ',' !in ys
    ensures GetDirection("PLACE " + xs + "," + ys) == DirectionOf(ys)
  {
    var line := "PLACE " + xs + "," + ys;
    LastCommaBefore("PLACE " + xs, ys);
    DirectionFromField(line, |"PLACE " + xs|);
    assert line[|"PLACE " + xs| + 1..] == ys;
  }

  /** The direction word after the last comma, or a bare direction word, is recognised. */
  lemma DirectionAfterLastComma(prefix: string, d: Direction)
    requires d != Invalid
    ensures GetDirection(prefix + "," + Word(d)) == d
    ensures GetDirection(Word(d)) == d
  {
    WordHasNoComma(d);
    LastCommaBefore(prefix, Word(d));
    DirectionFromField(prefix + "," + Word(d), |prefix|);
    assert (prefix + "," + Word(d))[|prefix| + 1..] == Word(d);
    BareWord(d);
  }

  lemma WordHasNoComma(d: Direction)
    requires d != Invalid
    ensures ',' !in Word(d)
  {
  }

  lemma BareWord(d: Direction)
    requires d != Invalid
    ensures GetDirection(Word(d)) == d
  {
    WordHasNoComma(d);
    assert LastIndexOf(Word(d), ',') == -1;
    assert Word(d)[0..] == Word(d);
  }

  // ---------------------------------------------------------------------------
  // Dispatch of the other commands
  // ---------------------------------------------------------------------------

  /** Matching is case-insensitive: a line and its upper-case form do the same. */
  lemma CaseInsensitive(s: RobotState, command: string)
    requires Inv(s)
    ensures Execute(s, command) == Execute(s, ToUpper(command))
  {
    ToUpperIdempotent(command);
  }

  /** Before placement every line that is not a PLACE answers "No robot placed." and
      changes nothing. */
  lemma GatedBeforePlacement(s: RobotState, command: string)
    requires Inv(s) && !s.placed && !StartsWith(ToUpper(command), "PLACE")
    ensures Execute(s, command) == Outcome(s, Reported(NotPlaced))
  {
  }

  /** Unrecognized is the answer exactly to a placed robot given a line that, upper-cased,
      is neither a PLACE nor one of MOVE, LEFT, RIGHT and REPORT. */
  lemma UnrecognizedExactly(s: RobotState, command: string)
    requires Inv(s)
    ensures var cmd := ToUpper(command);
            Execute(s, command).response == Unrecognized
            <==> s.placed && !StartsWith(cmd, "PLACE")
                 && cmd != "MOVE" && cmd != "LEFT" && cmd != "RIGHT" && cmd != "REPORT"
  {
    var cmd := ToUpper(command);
    if cmd == "PLACE" {
      assert StartsWith(cmd, "PLACE");
    }
  }

  /** A line that upper-cases to a PLACE runs Place and reports, whatever the state. */
  lemma PlaceLine(s: RobotState, command: string)
    requires Inv(s) && StartsWith(ToUpper(command), "PLACE")
    ensures var cmd := ToUpper(command);
            var t := PlaceResult(s, GetLocation(cmd), GetDirection(cmd));
            Execute(s, command) == Outcome(t, Reported(ReportText(t)))
  {
  }

  /** A line whose first character is not P is no PLACE. */
  lemma NotPlace(cmd: string)
    requires cmd != [] && cmd[0] != 'P'
    ensures !StartsWith(cmd, "PLACE")
  {
    if 5 <= |cmd| {
      assert cmd[..5][0] == cmd[0];
    }
  }

  /** MOVE of a placed robot runs Move and reports. */
  lemma MoveLine(s: RobotState)
    requires Inv(s) && s.placed
    ensures Execute(s, "MOVE") == Outcome(MoveResult(s), Reported(ReportText(MoveResult(s))))
  {
    ToUpperFixed("MOVE");
    NotPlace("MOVE");
    assert "MOVE" in ValidCommands;
  }

  /** LEFT of a placed robot turns left and reports. */
  lemma LeftLine(s: RobotState)
    requires Inv(s) && s.placed
    ensures Execute(s, "LEFT")
            == Outcome(RotateResult(s, -1), Reported(ReportText(RotateResult(s, -1))))
  {
    ToUpperFixed("LEFT");
    NotPlace("LEFT");
    assert "LEFT" in ValidCommands;
  }

  /** RIGHT of a placed robot turns right and reports. */
  lemma RightLine(s: RobotState)
    requires Inv(s) && s.placed
    ensures Execute(s, "RIGHT")
            == Outcome(RotateResult(s, 1), Reported(ReportText(RotateResult(s, 1))))
  {
    ToUpperFixed("RIGHT");
    NotPlace("RIGHT");
    assert "RIGHT" in ValidCommands;
  }

  /** REPORT of a placed robot only reports. */
  lemma ReportLine(s: RobotState)
    requires Inv(s) && s.placed
    ensures Execute(s, "REPORT") == Outcome(s, Reported(ReportText(s)))
  {
    ToUpperFixed("REPORT");
    NotPlace("REPORT");
    assert "REPORT" in ValidCommands;
  }

  // ---------------------------------------------------------------------------
  // Move
  // ---------------------------------------------------------------------------

  /** The unit step of each facing. */
  function Delta(f: Direction): (int, int)
    requires f != Invalid
  {
    match f
    case North => (0, 1)
    case South => (0, -1)
    case East => (1, 0)
    case West => (-1, 0)
  }

  /** Move takes one unit step along the facing exactly when the target is on the grid,
      and otherwise nothing changes; facing and placement never change. */
  lemma MoveStep(s: RobotState)
    requires Inv(s) && s.placed
    ensures var p, q, (dx, dy) := s.position, MoveResult(s).position, Delta(s.facing);
            MoveResult(s).facing == s.facing && MoveResult(s).placed
            && (if ValidPosition(Coordinates(p.x + dx, p.y + dy))
                then q == Coordinates(p.x + dx, p.y + dy)
                else q == p)
  {
  }

  /** The robot at the edge it faces: the one case where Move does nothing. */
  predicate FacesEdge(s: RobotState) {
    match s.facing
    case North => s.position.y == GRID_SIZE - 1
    case South => s.position.y == 0
    case East => s.position.x == GRID_SIZE - 1
    case West => s.position.x == 0
    case Invalid => true
  }

  lemma MoveBlockedExactlyAtEdge(s: RobotState)
    requires Inv(s) && s.placed
    ensures MoveResult(s) == s <==> FacesEdge(s)
  {
  }

  // ---------------------------------------------------------------------------
  // Rotate
  // ---------------------------------------------------------------------------

  /** Four left turns bring every facing back. */
  lemma FourLeftTurns(f: Direction)
    requires f != Invalid
    ensures RotateFacing(RotateFacing(RotateFacing(RotateFacing(f, -1), -1), -1), -1) == f
  {
  }

  /** Right turns stop at West: three of them reach West from every facing, so four of
      them bring back only West. */
  lemma RightTurnsStopAtWest(f: Direction)
    requires f != Invalid
    ensures RotateFacing(RotateFacing(RotateFacing(f, 1), 1), 1) == West
    ensures RotateFacing(RotateFacing(RotateFacing(RotateFacing(f, 1), 1), 1), 1) == f
            <==> f == West
  {
  }

  /** A right turn undoes a left turn except from North; a left turn undoes a right turn
      except from West. */
  lemma TurnsUndo(f: Direction)
    requires f != Invalid
    ensures RotateFacing(RotateFacing(f, -1), 1) == f <==> f != North
    ensures RotateFacing(RotateFacing(f, 1), -1) == f <==> f != West
  {
  }

  /** Left turns permute the four facings; right turns merge South and West. */
  lemma TurnsInjective(f: Direction, g: Direction)
    requires f != Invalid && g != Invalid
    ensures RotateFacing(f, -1) == RotateFacing(g, -1) ==> f == g
    ensures RotateFacing(f, 1) == RotateFacing(g, 1) <==> f == g || (f in {South, West} && g in {South, West})
  {
  }

  /** Four LEFT lines restore a placed robot's whole state; four RIGHT lines from North
      leave it facing West. */
  lemma FourLeftCommands(s: RobotState)
    requires Inv(s) && s.placed
    ensures Run(s, ["LEFT", "LEFT", "LEFT", "LEFT"]).state == s
    ensures Run(s.(facing := North), ["RIGHT", "RIGHT", "RIGHT", "RIGHT"]).state
            == s.(facing := West)
  {
    var left := ["LEFT", "LEFT", "LEFT", "LEFT"];
    var s1 := RotateResult(s, -1);
    var s2 := RotateResult(s1, -1);
    var s3 := RotateResult(s2, -1);
    LeftLine(s);
    LeftLine(s1);
    LeftLine(s2);
    LeftLine(s3);
    assert left[1..] == ["LEFT", "LEFT", "LEFT"];
    assert left[1..][1..] == ["LEFT", "LEFT"];
    assert left[1..][1..][1..] == ["LEFT"];
    FourLeftTurns(s.facing);
    var right := ["RIGHT", "RIGHT", "RIGHT", "RIGHT"];
    var n := s.(facing := North);
    var n1 := RotateResult(n, 1);
    var n2 := RotateResult(n1, 1);
    var n3 := RotateResult(n2, 1);
    RightLine(n);
    RightLine(n1);
    RightLine(n2);
    RightLine(n3);
    assert right[1..] == ["RIGHT", "RIGHT", "RIGHT"];
    assert right[1..][1..] == ["RIGHT", "RIGHT"];
    assert right[1..][1..][1..] == ["RIGHT"];
  }

  // ---------------------------------------------------------------------------
  // Report
  // ---------------------------------------------------------------------------

  /** The report of a placed robot determines its whole state. */
  lemma ReportDeterminesState(s: RobotState, t: RobotState)
    requires Inv(s) && Inv(t) && s.placed && t.placed
    ensures ReportText(s) == ReportText(t) ==> s == t
  {
    if ReportText(s) == ReportText(t) {
      var r := ReportText(s);
      assert r[12] == DigitChar(s.position.x) && ReportText(t)[12] == DigitChar(t.position.x);
      assert r[15] == DigitChar(s.position.y) && ReportText(t)[15] == DigitChar(t.position.y);
      assert r[25..] == Name(s.facing) && ReportText(t)[25..] == Name(t.facing);
    }
  }

  // ---------------------------------------------------------------------------
  // Sessions
  // ---------------------------------------------------------------------------

  /** A single line: one answer, and the state the line leaves. */
  lemma RunOne(s: RobotState, a: string)
    requires Inv(s)
    ensures Run(s, [a]) == Trace(Execute(s, a).state, [Execute(s, a).response])
  {
    assert [a][1..] == [];
  }

  /** Two lines in a row. */
  lemma RunTwo(s: RobotState, a: string, b: string)
    requires Inv(s)
    ensures var o1 := Execute(s, a);
            var o2 := Execute(o1.state, b);
            Run(s, [a, b]) == Trace(o2.state, [o1.response, o2.response])
  {
    assert [a, b][1..] == [b];
    RunOne(Execute(s, a).state, b);
  }

  /** "PLACE x,y,F" with a direction word F on a square of the grid places the robot
      there, whatever came before. */
  lemma PlaceWord(s: RobotState, x: int, y: int, d: Direction)
    requires Inv(s) && ValidPosition(Coordinates(x, y)) && d != Invalid
    ensures Execute(s, PlaceText(x, y, Word(d))) == Reporting(RobotState(Coordinates(x, y), d, true))
  {
    WordReadsBack(d);
    PlaceCommand(s, x, y, Word(d));
  }

  /** A direction word is already upper-case, holds no comma and names its direction. */
  lemma WordReadsBack(d: Direction)
    requires d != Invalid
    ensures ToUpper(Word(d)) == Word(d) && ',' !in Word(d) && DirectionOf(Word(d)) == d
  {
    WordHasNoComma(d);
    assert NoLower(Word(d));
    ToUpperFixed(Word(d));
  }

  /** PLACE x,y,F then REPORT, for every square and facing, reports that square and
      facing, whatever came before. */
  lemma PlaceThenReport(s: RobotState, x: int, y: int, d: Direction)
    requires Inv(s) && ValidPosition(Coordinates(x, y)) && d != Invalid
    ensures Run(s, [PlaceText(x, y, Word(d)), "REPORT"]).responses[1]
            == Reported("Robot is at " + [DigitChar(x)] + ", " + [DigitChar(y)] + ", facing " + Name(d))
  {
    var placed := RobotState(Coordinates(x, y), d, true);
    PlaceWord(s, x, y, d);
    ReportLine(placed);
    RunTwo(s, PlaceText(x, y, Word(d)), "REPORT");
  }

  lemma RunThree(s: RobotState, a: string, b: string, c: string)
    requires Inv(s)
    ensures var o1 := Execute(s, a);
            var o2 := Execute(o1.state, b);
            var o3 := Execute(o2.state, c);
            Run(s, [a, b, c]) == Trace(o3.state, [o1.response, o2.response, o3.response])
  {
    assert [a, b, c][1..] == [b, c];
    RunTwo(Execute(s, a).state, b, c);
  }

  /** "PLACE x,y,NORTH" places the robot facing North on a square of the grid, and
      changes nothing off the grid. */
  lemma PlaceNorth(s: RobotState, x: int, y: int)
    requires Inv(s)
    ensures Execute(s, PlaceText(x, y, "NORTH"))
            == Reporting(if ValidPosition(Coordinates(x, y)) then RobotState(Coordinates(x, y), North, true) else s)
  {
    ToUpperFixed("NORTH");
    assert DirectionOf("NORTH") == North;
    PlaceCommand(s, x, y, "NORTH");
  }

  /** REPORT before placement answers "No robot placed." */
  lemma ReportBeforePlacement(s: RobotState)
    requires Inv(s) && !s.placed
    ensures Execute(s, "REPORT") == Outcome(s, Reported(NotPlaced))
  {
    ToUpperFixed("REPORT");
    NotPlace("REPORT");
    GatedBeforePlacement(s, "REPORT");
  }

  /** An off-grid first PLACE leaves the robot unplaced, so REPORT says so. */
  lemma OffGridPlaceFirst(x: int, y: int)
    requires !ValidPosition(Coordinates(x, y))
    ensures Run(Initial, [PlaceText(x, y, "NORTH"), "REPORT"])
            == Trace(Initial, [Reported(NotPlaced), Reported(NotPlaced)])
  {
    PlaceNorth(Initial, x, y);
    ReportBeforePlacement(Initial);
    RunTwo(Initial, PlaceText(x, y, "NORTH"), "REPORT");
  }

  /** PLACE 5,5,NORTH then MOVE: the move is discarded at the north-east corner. */
  lemma CornerMove()
    ensures Run(Initial, [PlaceText(5, 5, "NORTH"), "MOVE"]).state
            == RobotState(Coordinates(5, 5), North, true)
  {
    var placed := RobotState(Coordinates(5, 5), North, true);
    PlaceNorth(Initial, 5, 5);
    MoveLine(placed);
    assert MoveResult(placed) == placed;
    RunTwo(Initial, PlaceText(5, 5, "NORTH"), "MOVE");
  }

  /** JUMP is no verb: a placed robot answers Unrecognized and stays put. */
  lemma JumpLine(s: RobotState)
    requires Inv(s) && s.placed
    ensures Execute(s, "JUMP") == Outcome(s, Unrecognized)
  {
    ToUpperFixed("JUMP");
    NotPlace("JUMP");
    assert "JUMP" !in ValidCommands;
  }

  lemma OriginReport()
    ensures ReportText(RobotState(Coordinates(0, 0), North, true)) == "Robot is at 0, 0, facing North"
  {
    SmallDecimal(0);
  }

  /** PLACE 0,0,NORTH, then JUMP, then REPORT: JUMP is unrecognized and changes nothing. */
  lemma UnknownVerbSession()
    ensures Run(Initial, [PlaceText(0, 0, "NORTH"), "JUMP", "REPORT"]).responses
            == [Reported("Robot is at 0, 0, facing North"), Unrecognized,
                Reported("Robot is at 0, 0, facing North")]
  {
    var placed := RobotState(Coordinates(0, 0), North, true);
    PlaceNorth(Initial, 0, 0);
    JumpLine(placed);
    ReportLine(placed);
    OriginReport();
    RunThree(Initial, PlaceText(0, 0, "NORTH"), "JUMP", "REPORT");
  }
}
