/** The toy robot of RobotController as values: the Directions enum, the Coordinates
    struct, the command-line parsers GetDirection and GetLocation, and one
    specification function per state-changing operation (Place, Move, Rotate) together
    with Execute, the specification of CommandInput on a RobotState value. */
module RobotModel {
  import opened TextRules

  /** The Directions enum; Invalid (ordinal 0) is the "no facing" sentinel. */
  datatype Direction = Invalid | North | East | South | West

  function Ordinal(d: Direction): (k: nat)
    ensures k <= 4 && (k == 0 <==> d == Invalid)
  {
    match d
    case Invalid => 0
    case North => 1
    case East => 2
    case South => 3
    case West => 4
  }

  function FromOrdinal(k: nat): (d: Direction)
    requires k <= 4
    ensures Ordinal(d) == k
  {
    if k == 0 then Invalid
    else if k == 1 then North
    else if k == 2 then East
    else if k == 3 then South
    else West
  }

  /** Enum.ToString of a direction, as the report shows it: upper-cased, the name of a
      real direction is the word a PLACE command uses for it. */
  function Name(d: Direction): (r: string)
    ensures r != []
    ensures d != Invalid ==> ToUpper(r) == Word(d)
  {
    match d
    case Invalid => "Invalid"
    case North => "North"
    case East => "East"
    case South => "South"
    case West => "West"
  }

  /** The word of a PLACE command that names a real direction. */
  function Word(d: Direction): string
    requires d != Invalid
  {
    match d
    case North => "NORTH"
    case East => "EAST"
    case South => "SOUTH"
    case West => "WEST"
  }

  const GRID_SIZE: int := 6

  /** The Coordinates struct: 32-bit fields in the source, kept as int here. */
  datatype Coordinates = Coordinates(x: int, y: int)

  /** The initial position and the position GetLocation reports on failure. */
  const Unset: Coordinates := Coordinates(-1, -1)

  /** A square of the grid, which is never the Unset sentinel. */
  predicate ValidPosition(p: Coordinates): (b: bool)
    ensures b ==> p != Unset
  {
    0 <= p.x < GRID_SIZE && 0 <= p.y < GRID_SIZE
  }

  // ---------------------------------------------------------------------------
  // Parsing a PLACE command
  // ---------------------------------------------------------------------------

  /** The switch of GetDirection: an exact match against the four direction words. */
  function DirectionOf(word: string): (d: Direction)
    ensures d != Invalid ==> word == Word(d)
    ensures d == Invalid ==> word != "NORTH" && word != "SOUTH" && word != "EAST" && word != "WEST"
  {
    if word == "NORTH" then North
    else if word == "SOUTH" then South
    else if word == "EAST" then East
    else if word == "WEST" then West
    else Invalid
  }

  /** The direction named after the last comma, or by the whole command when it has no
      comma. */
  function GetDirection(command: string): (d: Direction)
    ensures d != Invalid ==>
      |Word(d)| <= |command| && command[|command| - |Word(d)|..] == Word(d)
      && (|Word(d)| == |command| || command[|command| - |Word(d)| - 1] == ',')
  {
    var start := LastIndexOf(command, ',') + 1;
    var d := DirectionOf(command[start..]);
    assert d != Invalid ==> |command| - |Word(d)| == start;
    d
  }

  /** The coordinates of a PLACE command: x between the first space and the first comma,
      y between the first and the last comma (or after the only comma).  A failure before
      x is known gives Unset; a y that does not parse stays -1. */
  function GetLocation(command: string): (p: Coordinates)
    ensures InInt32(p.x) && InInt32(p.y)
    ensures ',' !in command ==> p == Unset
  {
    var firstSpacePos := IndexOf(command, ' ') + 1;
    var firstCommaPos := IndexOf(command, ',');
    if firstSpacePos < 0 || firstCommaPos < 0 || firstCommaPos < firstSpacePos then Unset
    else LocationAfterChecks(command, firstSpacePos, firstCommaPos)
  }

  /** GetLocation once the x field is known to lie between firstSpacePos and
      firstCommaPos. */
  function LocationAfterChecks(command: string, firstSpacePos: nat, firstCommaPos: nat): (p: Coordinates)
    requires firstSpacePos <= firstCommaPos < |command|
    ensures InInt32(p.x) && InInt32(p.y)
  {
    var xValue := command[firstSpacePos..firstCommaPos];
    if IsNullOrWhiteSpace(xValue) then Unset
    else match ParseInt(xValue)
      case None => Unset
      case Some(newX) => Coordinates(newX, LocationY(command, firstCommaPos))
  }

  /** The y of GetLocation: the field between the first and the last comma, or after the
      first comma when it is also the last; -1 when that field does not parse. */
  function LocationY(command: string, firstCommaPos: nat): (y: int)
    requires firstCommaPos < |command|
    ensures InInt32(y)
  {
    var lastCommaPos := LastIndexOf(command, ',');
    var yValue :=
      if lastCommaPos > firstCommaPos then command[firstCommaPos + 1..lastCommaPos]
      else command[firstCommaPos + 1..];
    match ParseInt(yValue)
    case None => -1
    case Some(newY) => newY
  }

  // ---------------------------------------------------------------------------
  // The state and its transitions
  // ---------------------------------------------------------------------------

  /** The three fields of RobotController: position, currentFacing and robotPlaced. */
  datatype RobotState = RobotState(position: Coordinates, facing: Direction, placed: bool)

  const Initial: RobotState := RobotState(Unset, Invalid, false)

  /** What every reachable state satisfies: once placed, the robot is on the grid with a
      real facing; before that, both fields still hold their initial sentinels. */
  predicate Inv(s: RobotState): (b: bool)
    ensures b ==> (s.placed <==> ValidPosition(s.position))
    ensures b ==> (s.placed <==> s.facing != Invalid)
  {
    (s.placed ==> ValidPosition(s.position) && s.facing != Invalid)
    && (!s.placed ==> s.position == Unset && s.facing == Invalid)
  }

  /** Place: an off-grid position is refused, and so is a first placement without a
      facing; otherwise the position is taken, the facing too when it is a real one. */
  function PlaceResult(s: RobotState, loc: Coordinates, facing: Direction): (r: RobotState)
    ensures Inv(s) ==> Inv(r)
    ensures s.placed ==> r.placed
    ensures !ValidPosition(loc) ==> r == s
    ensures r != s ==> r.position == loc && r.placed
    ensures r.facing == s.facing || r.facing == facing
  {
    if !ValidPosition(loc) then s
    else if facing == Invalid && !s.placed then s
    else RobotState(loc, if facing != Invalid then facing else s.facing, true)
  }

  /** The candidate position of Move: one unit along the facing, none for Invalid. */
  function Stepped(p: Coordinates, f: Direction): (q: Coordinates)
    ensures Distance(p, q) == if f == Invalid then 0 else 1
  {
    match f
    case North => p.(y := p.y + 1)
    case South => p.(y := p.y - 1)
    case East => p.(x := p.x + 1)
    case West => p.(x := p.x - 1)
    case Invalid => p
  }

  /** The grid distance between two positions. */
  function Distance(p: Coordinates, q: Coordinates): nat {
    (if p.x <= q.x then q.x - p.x else p.x - q.x) + (if p.y <= q.y then q.y - p.y else p.y - q.y)
  }

  /** Move: the candidate position is kept only when it is on the grid. */
  function MoveResult(s: RobotState): (r: RobotState)
    ensures r.facing == s.facing && r.placed == s.placed
    ensures Inv(s) ==> Inv(r)
    ensures Distance(s.position, r.position) <= 1
  {
    var candidate := Stepped(s.position, s.facing);
    if ValidPosition(candidate) then s.(position := candidate) else s
  }

  /** Rotate(turn) on the enum's ordinals, with the source's two special cases: a left turn
      from North gives West, and a right turn from West stays at West. */
  function RotateFacing(f: Direction, turn: int): (r: Direction)
    requires f != Invalid && (turn == -1 || turn == 1)
    ensures r != Invalid
  {
    if f == North && turn < 0 then West
    else if f == West && turn > 0 then West
    else FromOrdinal(Ordinal(f) + turn)
  }

  function RotateResult(s: RobotState, turn: int): (r: RobotState)
    requires s.facing != Invalid && (turn == -1 || turn == 1)
    ensures r.position == s.position && r.placed == s.placed
    ensures r.facing != Invalid
    ensures Inv(s) ==> Inv(r)
  {
    s.(facing := RotateFacing(s.facing, turn))
  }

  const NotPlaced: string := "No robot placed."

  /** Report: the not-placed message, or the position and the facing's name. */
  function ReportText(s: RobotState): (r: string)
    ensures r == NotPlaced <==> !s.placed
    ensures s.placed && Inv(s) ==>
      r == "Robot is at " + [DigitChar(s.position.x)] + ", " + [DigitChar(s.position.y)]
           + ", facing " + Name(s.facing)
  {
    if !s.placed then NotPlaced
    else
      var r := "Robot is at " + IntToDecimal(s.position.x) + ", " + IntToDecimal(s.position.y)
               + ", facing " + Name(s.facing);
      assert r[0] == 'R';
      r
  }

  // ---------------------------------------------------------------------------
  // CommandInput
  // ---------------------------------------------------------------------------

  /** The result of CommandInput: a report, or the source's null for an unknown command. */
  datatype Response = Reported(text: string) | Unrecognized

  datatype Outcome = Outcome(state: RobotState, response: Response)

  const ValidCommands: seq<string> := ["PLACE", "MOVE", "LEFT", "RIGHT", "REPORT"]

  /** CommandInput on a state value: upper-case the line, then dispatch it. */
  function Execute(s: RobotState, command: string): (o: Outcome)
    requires Inv(s)
    ensures Inv(o.state)
    ensures s.placed ==> o.state.placed
    ensures o.response.Unrecognized? ==> o.state == s
    ensures o.response.Reported? ==> o.response.text == ReportText(o.state)
  {
    Dispatch(s, ToUpper(command))
  }

  /** The dispatch of an upper-cased line: PLACE runs whatever the state, anything else
      before placement answers "not placed", an unknown verb answers null, and the four
      verbs run their operation. */
  function Dispatch(s: RobotState, cmd: string): (o: Outcome)
    requires Inv(s)
    ensures Inv(o.state)
    ensures s.placed ==> o.state.placed
    ensures o.response.Unrecognized? ==> o.state == s
    ensures o.response.Reported? ==> o.response.text == ReportText(o.state)
  {
    if StartsWith(cmd, "PLACE") then Reporting(PlaceResult(s, GetLocation(cmd), GetDirection(cmd)))
    else if !s.placed then Reporting(s)
    else if cmd !in ValidCommands then Outcome(s, Unrecognized)
    else Verb(s, cmd)
  }

  /** One of the four verbs of a placed robot. */
  function Verb(s: RobotState, cmd: string): (o: Outcome)
    requires Inv(s) && s.placed
    ensures Inv(o.state) && o.state.placed && o.response == Reported(ReportText(o.state))
  {
    if cmd == "MOVE" then Reporting(MoveResult(s))
    else if cmd == "LEFT" then Reporting(RotateResult(s, -1))
    else if cmd == "RIGHT" then Reporting(RotateResult(s, 1))
    else Reporting(s)
  }

  /** A state together with its report. */
  function Reporting(s: RobotState): Outcome {
    Outcome(s, Reported(ReportText(s)))
  }

  datatype Trace = Trace(state: RobotState, responses: seq<Response>)

  /** A session: the commands fed to CommandInput one after another. */
  function Run(s: RobotState, commands: seq<string>): (t: Trace)
    requires Inv(s)
    ensures Inv(t.state) && |t.responses| == |commands|
    ensures s.placed ==> t.state.placed
    ensures commands != [] ==> t.responses[0] == Execute(s, commands[0]).response
    decreases |commands|
  {
    if commands == [] then Trace(s, [])
    else
      var first := Execute(s, commands[0]);
      var rest := Run(first.state, commands[1..]);
      Trace(rest.state, [first.response] + rest.responses)
  }
}
