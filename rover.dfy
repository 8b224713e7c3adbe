/** The Mars rover command interpreter: a position on an unbounded integer plane with
    a compass heading, turned and moved by single-letter commands. */
module MarsRover {
  import opened Unsigned

  datatype Coordinates = Coordinates(x: int, y: int)

  /** The headings in clockwise order. A heading's index in this table selects both
      the next heading when turning and the unit step when moving. */
  const Orientations: seq<char> := ['N', 'E', 'S', 'W']

  /** The unit step of `move_forward`, indexed like `Orientations`. */
  const ForwardDeltas: seq<Coordinates> :=
    [Coordinates(0, 1), Coordinates(1, 0), Coordinates(0, -1), Coordinates(-1, 0)]

  /** The unit step of `move_backward`, indexed like `Orientations`. */
  const BackwardDeltas: seq<Coordinates> :=
    [Coordinates(0, -1), Coordinates(-1, 0), Coordinates(0, 1), Coordinates(1, 0)]

  predicate IsHeading(c: char)
  {
    c in Orientations
  }

  /** A position holds any character as its orientation; only the four headings
      can be turned or moved (the C++ asserts this in `orientation_index`). */
  datatype Position = Position(coordinates: Coordinates, orientation: char) {

    /** Where the orientation stands in `Orientations` (a linear find). */
    function OrientationIndex(): (i: nat)
      requires IsHeading(orientation)
      ensures i < |Orientations| && Orientations[i] == orientation
    {
      if orientation == Orientations[0] then 0
      else if orientation == Orientations[1] then 1
      else if orientation == Orientations[2] then 2
      else 3
    }

    /** Turn right: one step forward in the table, `(index + 1) % 4`. */
    function NextClockwise(): (q: Position)
      requires IsHeading(orientation)
      ensures q.coordinates == coordinates && IsHeading(q.orientation)
      ensures orientation == 'N' ==> q.orientation == 'E'
      ensures orientation == 'E' ==> q.orientation == 'S'
      ensures orientation == 'S' ==> q.orientation == 'W'
      ensures orientation == 'W' ==> q.orientation == 'N'
    {
      var index := OrientationIndex();
      var next := (index + 1) % |Orientations|;
      Position(coordinates, Orientations[next])
    }

    /** Turn left: `(index - 1) % 4` computed on `size_t`, so for index 0 the
        subtraction wraps to 2^64 - 1, whose remainder modulo 4 is 3 ('W'). */
    function NextCounterClockwise(): (q: Position)
      requires IsHeading(orientation)
      ensures q.coordinates == coordinates && IsHeading(q.orientation)
      ensures orientation == 'N' ==> q.orientation == 'W'
      ensures orientation == 'W' ==> q.orientation == 'S'
      ensures orientation == 'S' ==> q.orientation == 'E'
      ensures orientation == 'E' ==> q.orientation == 'N'
    {
      var index := OrientationIndex();
      var wrapped := (index - 1) % U64_LIMIT;
      var next := wrapped % |Orientations|;
      Position(coordinates, Orientations[next])
    }

    /** Add the heading's unit vector; the orientation stays. */
    function MoveForward(): (q: Position)
      requires IsHeading(orientation)
      ensures q.orientation == orientation
      ensures var (x, y) := (coordinates.x, coordinates.y);
        && (orientation == 'N' ==> q.coordinates == Coordinates(x, y + 1))
        && (orientation == 'E' ==> q.coordinates == Coordinates(x + 1, y))
        && (orientation == 'S' ==> q.coordinates == Coordinates(x, y - 1))
        && (orientation == 'W' ==> q.coordinates == Coordinates(x - 1, y))
    {
      var index := OrientationIndex();
      var delta := ForwardDeltas[index];
      Position(Coordinates(coordinates.x + delta.x, coordinates.y + delta.y), orientation)
    }

    /** Subtract the heading's unit vector; the orientation stays. */
    function MoveBackward(): (q: Position)
      requires IsHeading(orientation)
      ensures q.orientation == orientation
      ensures var (x, y) := (coordinates.x, coordinates.y);
        && (orientation == 'N' ==> q.coordinates == Coordinates(x, y - 1))
        && (orientation == 'E' ==> q.coordinates == Coordinates(x - 1, y))
        && (orientation == 'S' ==> q.coordinates == Coordinates(x, y + 1))
        && (orientation == 'W' ==> q.coordinates == Coordinates(x + 1, y))
    {
      var index := OrientationIndex();
      var delta := BackwardDeltas[index];
      Position(Coordinates(coordinates.x + delta.x, coordinates.y + delta.y), orientation)
    }
  }

  /** Facing north the index is 0, so the `size_t` subtraction of the left turn yields
      2^64 - 1; its remainder modulo 4 is 3, and the turn therefore faces west. */
  lemma CounterClockwiseWrapAtNorth(c: Coordinates)
    ensures var p := Position(c, 'N');
      && p.OrientationIndex() == 0
      && (p.OrientationIndex() - 1) % U64_LIMIT == U64_LIMIT - 1
      && ((p.OrientationIndex() - 1) % U64_LIMIT) % |Orientations| == 3
      && p.NextCounterClockwise() == Position(c, 'W')
  {
  }

  lemma TurnsAreInverse(p: Position)
    requires IsHeading(p.orientation)
    ensures p.NextClockwise().NextCounterClockwise() == p
    ensures p.NextCounterClockwise().NextClockwise() == p
  {
  }

  lemma MovesAreInverse(p: Position)
    requires IsHeading(p.orientation)
    ensures p.MoveForward().MoveBackward() == p
    ensures p.MoveBackward().MoveForward() == p
  {
  }

  lemma FourTurnsRestorePosition(p: Position)
    requires IsHeading(p.orientation)
    ensures p.NextClockwise().NextClockwise().NextClockwise().NextClockwise() == p
    ensures p.NextCounterClockwise().NextCounterClockwise().NextCounterClockwise().NextCounterClockwise() == p
  {
  }

  /** The exception `go` throws: the offending character (as a one-character
      string, in its original case) and the whole command string. */
  datatype UnknownCommand = UnknownCommand(unknownCommand: string, lastCommands: string)

  datatype Result<T, E> = Ok(value: T) | Err(error: E)

  /** `std::toupper` on ASCII. */
  function ToUpper(c: char): (u: char)
    ensures 'a' <= c <= 'z' ==> u as int == c as int - 32
    ensures !('a' <= c <= 'z') ==> u == c
    ensures !('a' <= u <= 'z')
  {
    if 'a' <= c <= 'z' then (c as int - 32) as char else c
  }

  /** The four letters `go`'s switch handles, in either case. */
  predicate IsCommand(c: char)
  {
    var u := ToUpper(c);
    u == 'F' || u == 'B' || u == 'L' || u == 'R'
  }

  /** One command of `go`'s switch. */
  function Step(p: Position, c: char): (q: Position)
    requires IsCommand(c) && IsHeading(p.orientation)
    ensures IsHeading(q.orientation)
  {
    match ToUpper(c)
    case 'F' => p.MoveForward()
    case 'B' => p.MoveBackward()
    case 'L' => p.NextCounterClockwise()
    case _ => p.NextClockwise()
  }

  predicate AllCommands(s: string)
  {
    forall i | 0 <= i < |s| :: IsCommand(s[i])
  }

  /** The position reached by running a string of known commands left to right. */
  function Execute(p: Position, s: string): (q: Position)
    requires AllCommands(s) && (IsHeading(p.orientation) || s == [])
    ensures IsHeading(p.orientation) ==> IsHeading(q.orientation)
    decreases |s|
  {
    if s == [] then p
    else Step(Execute(p, s[..|s| - 1]), s[|s| - 1])
  }

  /** How many leading characters of `s` are commands: the index of the first
      unknown command, or |s| when there is none. */
  function KnownPrefix(s: string): (k: nat)
    ensures k <= |s|
    ensures forall i | 0 <= i < k :: IsCommand(s[i])
    ensures k < |s| ==> !IsCommand(s[k])
  {
    if s == [] || !IsCommand(s[0]) then 0 else 1 + KnownPrefix(s[1..])
  }

  /** The three facts `KnownPrefix` ensures single it out: it is the index of the first
      character that is not a command. */
  lemma KnownPrefixIsFirstUnknown(s: string, k: nat)
    requires k <= |s|
    requires forall i | 0 <= i < k :: IsCommand(s[i])
    requires k < |s| ==> !IsCommand(s[k])
    ensures KnownPrefix(s) == k
  {
  }

  /** Running `s + t` is running `s` and then `t`. */
  lemma {:induction false} ExecuteAppend(p: Position, s: string, t: string)
    requires AllCommands(s) && AllCommands(t) && IsHeading(p.orientation)
    ensures AllCommands(s + t)
    ensures Execute(p, s + t) == Execute(Execute(p, s), t)
    decreases |t|
  {
    assert AllCommands(s + t) by {
      forall i | 0 <= i < |s + t| ensures IsCommand((s + t)[i]) {
        if i < |s| { assert (s + t)[i] == s[i]; } else { assert (s + t)[i] == t[i - |s|]; }
      }
    }
    if t == [] {
      assert s + t == s;
    } else {
      var t' := t[..|t| - 1];
      assert AllCommands(t') by {
        forall i | 0 <= i < |t'| ensures IsCommand(t'[i]) { assert t'[i] == t[i]; }
      }
      ExecuteAppend(p, s, t');
      assert (s + t)[..|s + t| - 1] == s + t';
    }
  }

  /** The commands read left to right: the first command acts first. */
  lemma ExecuteFirst(p: Position, s: string)
    requires AllCommands(s) && IsHeading(p.orientation) && s != []
    ensures AllCommands(s[1..])
    ensures Execute(p, s) == Execute(Step(p, s[0]), s[1..])
  {
    assert AllCommands(s[1..]) by {
      forall i | 0 <= i < |s[1..]| ensures IsCommand(s[1..][i]) { assert s[1..][i] == s[i + 1]; }
    }
    assert AllCommands(s[..1]) by {
      forall i | 0 <= i < 1 ensures IsCommand(s[..1][i]) { assert s[..1][i] == s[0]; }
    }
    ExecuteAppend(p, s[..1], s[1..]);
    assert s[..1] + s[1..] == s;
    assert s[..1][..0] == [];
  }

  /** `s` with every character upper-cased, for stating that case does not matter. */
  function Upper(s: string): string
  {
    seq(|s|, i requires 0 <= i < |s| => ToUpper(s[i]))
  }

  /** Lower-case f, b, l, r act exactly like F, B, L, R. */
  lemma {:induction false} ExecuteIgnoresCase(p: Position, s: string)
    requires AllCommands(s) && IsHeading(p.orientation)
    ensures AllCommands(Upper(s))
    ensures Execute(p, Upper(s)) == Execute(p, s)
    decreases |s|
  {
    var u := Upper(s);
    assert AllCommands(u) by {
      forall i | 0 <= i < |u| ensures IsCommand(u[i]) { assert ToUpper(u[i]) == ToUpper(s[i]); }
    }
    if s != [] {
      var s' := s[..|s| - 1];
      assert AllCommands(s') by {
        forall i | 0 <= i < |s'| ensures IsCommand(s'[i]) { assert s'[i] == s[i]; }
      }
      ExecuteIgnoresCase(p, s');
      assert u[..|u| - 1] == Upper(s');
    }
  }

  /** `FFRFF` from (0, 0) facing north ends at (2, 2) facing east. */
  lemma GoReturnsFinalPosition()
    ensures AllCommands("FFRFF")
    ensures Execute(Position(Coordinates(0, 0), 'N'), "FFRFF") == Position(Coordinates(2, 2), 'E')
  {
    assert "FFRFF"[..4] == "FFRF";
    assert "FFRF"[..3] == "FFR";
    assert "FFR"[..2] == "FF";
    assert "FF"[..1] == "F";
  }

  /** `FFRFFBFLR`: the backward move and the left-right pair cancel. */
  lemma GoWithBackwardMoves()
    ensures AllCommands("FFRFFBFLR")
    ensures Execute(Position(Coordinates(0, 0), 'N'), "FFRFFBFLR") == Position(Coordinates(2, 2), 'E')
  {
    assert "FFRFFBFLR"[..8] == "FFRFFBFL";
    assert "FFRFFBFL"[..7] == "FFRFFBF";
    assert "FFRFFBF"[..6] == "FFRFFB";
    assert "FFRFFB"[..5] == "FFRFF";
    assert "FFRFF"[..4] == "FFRF";
    assert "FFRF"[..3] == "FFR";
    assert "FFR"[..2] == "FF";
    assert "FF"[..1] == "F";
  }

  /** `FFRFFLFFRFFLFF` ends at (4, 6) facing north. */
  lemma GoLongerRoute()
    ensures AllCommands("FFRFFLFFRFFLFF")
    ensures Execute(Position(Coordinates(0, 0), 'N'), "FFRFFLFFRFFLFF") == Position(Coordinates(4, 6), 'N')
  {
    GoBeforeUnknownCommand();
    var tail := "RFFLFF";
    assert tail[..5] == "RFFLF";
    assert "RFFLF"[..4] == "RFFL";
    assert "RFFL"[..3] == "RFF";
    assert "RFF"[..2] == "RF";
    assert "RF"[..1] == "R";
    assert Execute(Position(Coordinates(2, 4), 'N'), tail) == Position(Coordinates(4, 6), 'N');
    ExecuteAppend(Position(Coordinates(0, 0), 'N'), "FFRFFLFF", tail);
    assert "FFRFFLFF" + tail == "FFRFFLFFRFFLFF";
  }

  /** Lower-case commands: `ffrffBflr` ends where `FFRFFBFLR` does. */
  lemma GoLowerCase()
    ensures AllCommands("ffrffBflr")
    ensures Execute(Position(Coordinates(0, 0), 'N'), "ffrffBflr") == Position(Coordinates(2, 2), 'E')
  {
    assert AllCommands("ffrffBflr");
    assert Upper("ffrffBflr") == "FFRFFBFLR";
    ExecuteIgnoresCase(Position(Coordinates(0, 0), 'N'), "ffrffBflr");
    GoWithBackwardMoves();
  }

  /** The commands `FFRFFLFF` that run before the unknown 'x' of `FFRFFLFFxLLLL`. */
  lemma GoBeforeUnknownCommand()
    ensures AllCommands("FFRFFLFF")
    ensures Execute(Position(Coordinates(0, 0), 'N'), "FFRFFLFF") == Position(Coordinates(2, 4), 'N')
  {
    assert "FFRFFLFF"[..7] == "FFRFFLF";
    assert "FFRFFLF"[..6] == "FFRFFL";
    assert "FFRFFL"[..5] == "FFRFF";
    assert "FFRFF"[..4] == "FFRF";
    assert "FFRF"[..3] == "FFR";
    assert "FFR"[..2] == "FF";
    assert "FF"[..1] == "F";
  }

  /** The unknown-command test: `FFRFFLFFxLLLL` stops before the 'x' at index 8, after
      the rover has reached (2, 4) facing north. */
  lemma GoStopsAtUnknownCommand()
    ensures KnownPrefix("FFRFFLFFxLLLL") == 8 && "FFRFFLFFxLLLL"[8] == 'x'
    ensures AllCommands("FFRFFLFFxLLLL"[..8])
    ensures Execute(Position(Coordinates(0, 0), 'N'), "FFRFFLFFxLLLL"[..8]) == Position(Coordinates(2, 4), 'N')
  {
    var cmd := "FFRFFLFFxLLLL";
    assert cmd[..8] == "FFRFFLFF";
    GoBeforeUnknownCommand();
    assert forall i | 0 <= i < 8 :: cmd[i] == cmd[..8][i];
    KnownPrefixIsFirstUnknown(cmd, 8);
  }

  /** A rover holding one mutable position. */
  class Rover {
    var position: Position

    constructor (x: int, y: int, orientation: char)
      ensures position == Position(Coordinates(x, y), orientation)
    {
      position := Position(Coordinates(x, y), orientation);
    }

    constructor FromPosition(p: Position)
      ensures position == p
    {
      position := p;
    }

    method TurnLeft()
      requires IsHeading(position.orientation)
      modifies this
      ensures position == old(position).NextCounterClockwise()
    {
      position := position.NextCounterClockwise();
    }

    method TurnRight()
      requires IsHeading(position.orientation)
      modifies this
      ensures position == old(position).NextClockwise()
    {
      position := position.NextClockwise();
    }

    method MoveForward()
      requires IsHeading(position.orientation)
      modifies this
      ensures position == old(position).MoveForward()
    {
      position := position.MoveForward();
    }

    method MoveBackward()
      requires IsHeading(position.orientation)
      modifies this
      ensures position == old(position).MoveBackward()
    {
      position := position.MoveBackward();
    }

    /** Runs the commands left to right and returns the final position. On the first
        unknown command it stops with `UnknownCommand`, keeping the moves already made. */
    method Go(commands: string) returns (r: Result<Position, UnknownCommand>)
      requires IsHeading(position.orientation) || KnownPrefix(commands) == 0
      modifies this
      ensures var k := KnownPrefix(commands);
        AllCommands(commands[..k]) && position == Execute(old(position), commands[..k])
      ensures KnownPrefix(commands) == |commands| ==> r == Ok(position)
      ensures var k := KnownPrefix(commands);
        k < |commands| ==> r == Err(UnknownCommand([commands[k]], commands))
    {
      var i := 0;
      while i < |commands|
        invariant i <= KnownPrefix(commands)
        invariant AllCommands(commands[..i])
        invariant i == 0 ==> position == old(position)
        invariant i > 0 ==> IsHeading(position.orientation)
        invariant position == Execute(old(position), commands[..i])
      {
        var command := commands[i];
        if IsCommand(command) {
          assert i < KnownPrefix(commands);
          ghost var done := commands[..i + 1];
          assert done[..i] == commands[..i];
          assert AllCommands(done) by {
            forall j | 0 <= j < i + 1 ensures IsCommand(done[j]) {
              assert done[j] == commands[j];
            }
          }
        }
        match ToUpper(command) {
          case 'F' => MoveForward();
          case 'B' => MoveBackward();
          case 'L' => TurnLeft();
          case 'R' => TurnRight();
          case _ => return Err(UnknownCommand([command], commands));
        }
        i := i + 1;
      }
      assert commands[..|commands|] == commands;
      return Ok(position);
    }
  }
}
