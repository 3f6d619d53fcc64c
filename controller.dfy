/** RobotController itself: an object with the fields position, currentFacing and
    robotPlaced, updated in place by CommandInput and the private operations it
    dispatches to.  Each method's new state is the RobotModel function of the old one. */
module Controller {
  import opened TextRules
  import opened RobotModel

  class RobotController {
    var position: Coordinates
    var currentFacing: Direction
    var robotPlaced: bool

    /** The fields as one value. */
    function State(): RobotState
      reads this
    {
      RobotState(position, currentFacing, robotPlaced)
    }

    ghost predicate Valid()
      reads this
    {
      Inv(State())
    }

    constructor ()
      ensures Valid() && State() == Initial
    {
      position := Unset;
      currentFacing := Invalid;
      robotPlaced := false;
    }

    /** Runs one command line and answers with the report, or Unrecognized where the
        source returns null. */
    method CommandInput(command: string) returns (r: Response)
      requires Valid()
      modifies this
      ensures Valid()
      ensures State() == Execute(old(State()), command).state
      ensures r == Execute(old(State()), command).response
    {
      var cmd := ToUpper(command);
      if StartsWith(cmd, "PLACE") {
        var text := Place(GetLocation(cmd), GetDirection(cmd));
        return Reported(text);
      }
      if !robotPlaced {
        return Reported(Report());
      }
      if cmd !in ValidCommands {
        return Unrecognized;
      }
      var text;
      if cmd == "MOVE" {
        text := Move();
      } else if cmd == "LEFT" {
        text := Rotate(-1);
      } else if cmd == "RIGHT" {
        text := Rotate(1);
      } else {
        text := Report();
      }
      r := Reported(text);
    }

    /** Turns one step: -1 is a left turn, 1 a right turn. */
    method Rotate(direction: int) returns (r: string)
      requires Valid() && robotPlaced && (direction == -1 || direction == 1)
      modifies this
      ensures Valid()
      ensures State() == RotateResult(old(State()), direction)
      ensures r == ReportText(State())
    {
      if currentFacing == North && direction < 0 {
        currentFacing := West;
      } else if currentFacing == West && direction > 0 {
        currentFacing := West;
      } else {
        currentFacing := FromOrdinal(Ordinal(currentFacing) + direction);
      }
      r := Report();
    }

    /** Steps one unit along the facing on a copy of the position, and keeps the copy only
        when it is still on the grid. */
    method Move() returns (r: string)
      requires Valid()
      modifies this
      ensures Valid()
      ensures State() == MoveResult(old(State()))
      ensures r == ReportText(State())
    {
      var newPosition := position;
      match currentFacing {
        case North => newPosition := newPosition.(y := newPosition.y + 1);
        case South => newPosition := newPosition.(y := newPosition.y - 1);
        case East => newPosition := newPosition.(x := newPosition.x + 1);
        case West => newPosition := newPosition.(x := newPosition.x - 1);
        case Invalid =>
      }
      if ValidPosition(newPosition) {
        position := newPosition;
      }
      r := Report();
    }

    /** Places the robot; the facing may be Invalid only when the robot is already placed. */
    method Place(initialPosition: Coordinates, initialFacing: Direction) returns (r: string)
      requires Valid()
      modifies this
      ensures Valid()
      ensures State() == PlaceResult(old(State()), initialPosition, initialFacing)
      ensures r == ReportText(State())
    {
      if !ValidPosition(initialPosition) {
        return Report();
      }
      if initialFacing == Invalid && !robotPlaced {
        return Report();
      }
      position := initialPosition;
      if initialFacing != Invalid {
        currentFacing := initialFacing;
      }
      robotPlaced := true;
      r := Report();
    }

    /** The status line for the current fields. */
    function Report(): (r: string)
      reads this
      ensures r == NotPlaced <==> !robotPlaced
    {
      ReportText(State())
    }
  }
}
