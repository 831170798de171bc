/**
 * The bounding-box interpreter for key outlines (`parse_dimensions_from_path`
 * and its inner class `MinMaxCursor` in mkkb.py).
 *
 * A path's `d` attribute is a space-separated token stream over the commands
 * m, M, c, C, h, v, H, V and z with integer coordinates. The interpreter keeps
 * a pen position and a min/max box, and pads the final box by the path's
 * stroke width. The pure functions Step, Run, Walk and Measure specify the
 * interpreter; the class MinMaxCursor and the method MeasurePath are the
 * imperative version and are proved equal to them.
 */
module PathBounds {
  import opened Wrappers

  /** The integers of a token whose comma-separated parts `int()` all accepts. */
  type Coordinates = s: seq<int> | |s| > 0 witness [0]

  /**
   * One space-separated token of a path. `Numbers` is a token such as "3",
   * "-4,7" or "1,2,3"; every other token (a command letter, "", "1.5") is a `Word`.
   */
  datatype Token = Word(text: string) | Numbers(values: Coordinates)

  /** What `isint` accepts: a single integer. */
  predicate IsInt(t: Token) {
    t.Numbers? && |t.values| == 1
  }

  /** The exceptions the interpreter can raise. */
  datatype PathError =
    | UnknownCommand(token: Token)  // `raise Exception(token)`
    | UnexpectedEnd                 // StopIteration from `next` or from `peek`
    | BadOperand(token: Token)      // ValueError: an operand `int()` rejects
    | WrongArity(token: Token)      // TypeError: a coordinate tuple of the wrong size
    | NoCursor                      // AttributeError: drawing before any m/M

  function Min(a: int, b: int): int { if b < a then b else a }
  function Max(a: int, b: int): int { if b > a then b else a }

  /** The min/max box the cursor accumulates. */
  datatype Box = Box(minX: int, minY: int, maxX: int, maxY: int) {

    predicate Ordered() {
      minX <= maxX && minY <= maxY
    }

    predicate Contains(x: int, y: int) {
      minX <= x <= maxX && minY <= y <= maxY
    }

    /** This box is at least as large as `inner` on every side. */
    predicate Encloses(inner: Box) {
      minX <= inner.minX && minY <= inner.minY && inner.maxX <= maxX && inner.maxY <= maxY
    }

    /** The box widened to take in the point (x, y). */
    function Widen(x: int, y: int): (r: Box)
      ensures r.Contains(x, y) && r.Encloses(this)
      ensures Ordered() ==> r.Ordered()
      ensures forall b: Box :: b.Encloses(this) && b.Contains(x, y) ==> b.Encloses(r)
    {
      Box(Min(minX, x), Min(minY, y), Max(maxX, x), Max(maxY, y))
    }

    /** The box widened horizontally only, to take in the abscissa x. */
    function WidenX(x: int): (r: Box)
      ensures r.minX <= x <= r.maxX && r.Encloses(this)
      ensures r.minY == minY && r.maxY == maxY
      ensures Ordered() ==> r.Ordered()
      ensures forall b: Box :: b.Encloses(this) && b.minX <= x <= b.maxX ==> b.Encloses(r)
    {
      Box(Min(minX, x), minY, Max(maxX, x), maxY)
    }

    /** The box widened vertically only, to take in the ordinate y. */
    function WidenY(y: int): (r: Box)
      ensures r.minY <= y <= r.maxY && r.Encloses(this)
      ensures r.minX == minX && r.maxX == maxX
      ensures Ordered() ==> r.Ordered()
      ensures forall b: Box :: b.Encloses(this) && b.minY <= y <= b.maxY ==> b.Encloses(r)
    {
      Box(minX, Min(minY, y), maxX, Max(maxY, y))
    }
  }

  /** The value of a MinMaxCursor: the pen position and the box. */
  datatype CursorState = CursorState(x: int, y: int, box: Box) {

    /** `add`: a relative move; only a drawing move widens the box. */
    function Add(dx: int, dy: int, draw: bool): (r: CursorState)
      ensures r.x == x + dx && r.y == y + dy
      ensures draw ==> r.box == box.Widen(r.x, r.y)
      ensures !draw ==> r.box == box
    {
      var newX, newY := x + dx, y + dy;
      CursorState(newX, newY, if draw then box.Widen(newX, newY) else box)
    }

    /** `set`: an absolute move; the box always takes in the point, the pen moves only when drawing. */
    function Set(px: int, py: int, draw: bool): (r: CursorState)
      ensures r.box == box.Widen(px, py)
      ensures draw ==> r.x == px && r.y == py
      ensures !draw ==> r.x == x && r.y == y
    {
      CursorState(if draw then px else x, if draw then py else y, box.Widen(px, py))
    }

    /** `set_x`: an absolute horizontal move that widens the box horizontally. */
    function SetX(px: int): (r: CursorState)
      ensures r.x == px && r.y == y
      ensures r.box == box.WidenX(px)
    {
      CursorState(px, y, box.WidenX(px))
    }

    /** `set_y`: an absolute vertical move that widens the box vertically. */
    function SetY(py: int): (r: CursorState)
      ensures r.x == x && r.y == py
      ensures r.box == box.WidenY(py)
    {
      CursorState(x, py, box.WidenY(py))
    }
  }

  /** A new cursor: pen and box are the single point (x, y). */
  function Start(x: int, y: int): (r: CursorState)
    ensures r.x == x && r.y == y && r.box.Ordered() && r.box.Contains(x, y)
    ensures forall b: Box :: b.Contains(x, y) ==> b.Encloses(r.box)
  {
    CursorState(x, y, Box(x, y, x, y))
  }

  /** The four run commands h, v, H and V. */
  datatype RunKind = RelativeX | RelativeY | AbsoluteX | AbsoluteY

  function RunKindOf(t: Token): Option<RunKind> {
    if t == Word("h") then Some(RelativeX)
    else if t == Word("v") then Some(RelativeY)
    else if t == Word("H") then Some(AbsoluteX)
    else if t == Word("V") then Some(AbsoluteY)
    else None
  }

  /** One integer of a run; every one of them is a drawing step. */
  function RunStep(kind: RunKind, c: CursorState, n: int): (r: CursorState)
    ensures kind == RelativeX ==> r.x == c.x + n && r.y == c.y && r.box == c.box.Widen(r.x, r.y)
    ensures kind == RelativeY ==> r.x == c.x && r.y == c.y + n && r.box == c.box.Widen(r.x, r.y)
    ensures kind == AbsoluteX ==> r.x == n && r.y == c.y && r.box == c.box.WidenX(n)
    ensures kind == AbsoluteY ==> r.x == c.x && r.y == n && r.box == c.box.WidenY(n)
    ensures r.box.Encloses(c.box)
  {
    match kind
    case RelativeX => c.Add(n, 0, true)
    case RelativeY => c.Add(0, n, true)
    case AbsoluteX => c.SetX(n)
    case AbsoluteY => c.SetY(n)
  }

  /** The tokens the interpreter dispatches on; any other token raises. */
  predicate IsCommand(t: Token) {
    t in {Word("m"), Word("M"), Word("c"), Word("C"), Word("h"), Word("v"), Word("H"), Word("V"), Word("z")}
  }

  /** `tuple(int(x) for x in next(d_iter).split(','))`. */
  function Operand(tokens: seq<Token>, i: nat): (r: Result<Coordinates, PathError>)
    ensures r.Success? <==> i < |tokens| && tokens[i].Numbers?
    ensures r.Success? ==> r.value == tokens[i].values
  {
    if i >= |tokens| then Failure(UnexpectedEnd)
    else match tokens[i]
      case Numbers(vs) => Success(vs)
      case Word(_) => Failure(BadOperand(tokens[i]))
  }

  /**
   * The `while isint(peek(d_iter))` loop of a run starting at token j: it
   * stops at the first token that is not a single integer and raises when it
   * reaches the end of the stream.
   */
  function Run(tokens: seq<Token>, j: nat, cur: Option<CursorState>, kind: RunKind)
    : (r: Result<(nat, Option<CursorState>), PathError>)
    requires j <= |tokens|
    ensures r.Success? ==> j <= r.value.0 < |tokens| && !IsInt(tokens[r.value.0])
    ensures r.Success? && cur.None? ==> r.value.1.None?
    ensures r.Success? && cur.Some? ==> r.value.1.Some?
    decreases |tokens| - j
  {
    if j == |tokens| then Failure(UnexpectedEnd)
    else if !IsInt(tokens[j]) then Success((j, cur))
    else if cur.None? then Failure(NoCursor)
    else Run(tokens, j + 1, Some(RunStep(kind, cur.value, tokens[j].values[0])), kind)
  }

  /** One command of the token stream, starting at token i: the next index and the new cursor. */
  function Step(tokens: seq<Token>, i: nat, cur: Option<CursorState>)
    : (r: Result<(nat, Option<CursorState>), PathError>)
    requires i < |tokens|
    ensures r.Success? ==> i < r.value.0 <= |tokens|
    ensures r.Success? && cur.Some? ==> r.value.1.Some?
  {
    var t := tokens[i];
    if t == Word("m") || t == Word("M") then
      var p :- Operand(tokens, i + 1);
      if |p| != 2 then Failure(WrongArity(tokens[i + 1]))
      else if cur.None? then Success((i + 2, Some(Start(p[0], p[1]))))
      else if t == Word("m") then Success((i + 2, Some(cur.value.Add(p[0], p[1], false))))
      else Success((i + 2, Some(cur.value.Set(p[0], p[1], false))))
    else if t == Word("c") || t == Word("C") then
      var first :- Operand(tokens, i + 1);
      var second :- Operand(tokens, i + 2);
      var p :- Operand(tokens, i + 3);
      if cur.None? then Failure(NoCursor)
      else if |p| != 2 && |p| != 3 then Failure(WrongArity(tokens[i + 3]))
      else
        // a third number lands in the `draw` parameter of add/set
        var draw := |p| == 2 || p[2] != 0;
        if t == Word("c") then Success((i + 4, Some(cur.value.Add(p[0], p[1], draw))))
        else Success((i + 4, Some(cur.value.Set(p[0], p[1], draw))))
    else if RunKindOf(t).Some? then
      Run(tokens, i + 1, cur, RunKindOf(t).value)
    else if t == Word("z") then
      Success((i + 1, cur))
    else
      Failure(UnknownCommand(t))
  }

  /** The interpreter's main loop from token i on. */
  function Walk(tokens: seq<Token>, i: nat, cur: Option<CursorState>): (r: Result<Option<CursorState>, PathError>)
    requires i <= |tokens|
    ensures r.Success? && cur.Some? ==> r.value.Some?
    decreases |tokens| - i
  {
    if i == |tokens| then Success(cur)
    else
      var next :- Step(tokens, i, cur);
      Walk(tokens, next.0, next.1)
  }

  /** The result of `parse_dimensions_from_path`: ((x, y), (w, h)). */
  datatype Dimensions = Dimensions(x: real, y: real, width: real, height: real)

  /** The box padded by the stroke width, written with the source's own formula. */
  function Pad(b: Box, strokeWidth: real): (r: Dimensions)
    ensures r.x == b.minX as real - strokeWidth / 2.0 && r.y == b.minY as real - strokeWidth / 2.0
    ensures r.width == (b.maxX - b.minX) as real + strokeWidth
    ensures r.height == (b.maxY - b.minY) as real + strokeWidth
    ensures r.x + r.width == b.maxX as real + strokeWidth / 2.0
    ensures r.y + r.height == b.maxY as real + strokeWidth / 2.0
  {
    var x, y := b.minX as real - strokeWidth / 2.0, b.minY as real - strokeWidth / 2.0;
    Dimensions(x, y, b.maxX as real - x + strokeWidth / 2.0, b.maxY as real - y + strokeWidth / 2.0)
  }

  /** `parse_dimensions_from_path` with the stroke width already read from the style. */
  function Measure(tokens: seq<Token>, strokeWidth: real): (r: Result<Dimensions, PathError>)
    ensures r.Failure? <==> Walk(tokens, 0, None).Failure? || Walk(tokens, 0, None).value.None?
    ensures r.Success? ==> r.value.width >= strokeWidth && r.value.height >= strokeWidth
  {
    var walked := Walk(tokens, 0, None);
    if walked.Failure? then Failure(walked.error)
    else if walked.value.None? then Failure(NoCursor)
    else
      WalkFromNoCursorIsOrdered(tokens, 0);
      Success(Pad(walked.value.value.box, strokeWidth))
  }

  /** The inner class of `parse_dimensions_from_path`, updated in place. */
  class MinMaxCursor {
    var x: int
    var y: int
    var minX: int
    var minY: int
    var maxX: int
    var maxY: int

    function State(): CursorState
      reads this
    {
      CursorState(x, y, Box(minX, minY, maxX, maxY))
    }

    constructor (x0: int, y0: int)
      ensures State() == Start(x0, y0)
    {
      x, y := x0, y0;
      minX, minY, maxX, maxY := x0, y0, x0, y0;
    }

    method Add(dx: int, dy: int, draw: bool)
      modifies this
      ensures State() == old(State()).Add(dx, dy, draw)
    {
      var newX, newY := x + dx, y + dy;
      if draw {
        minX := Min(minX, newX);
        minY := Min(minY, newY);
        maxX := Max(maxX, newX);
        maxY := Max(maxY, newY);
      }
      x, y := newX, newY;
    }

    method Set(px: int, py: int, draw: bool)
      modifies this
      ensures State() == old(State()).Set(px, py, draw)
    {
      minX := Min(minX, px);
      minY := Min(minY, py);
      maxX := Max(maxX, px);
      maxY := Max(maxY, py);
      if draw {
        x, y := px, py;
      }
    }

    method SetX(px: int)
      modifies this
      ensures State() == old(State()).SetX(px)
    {
      minX := Min(minX, px);
      maxX := Max(maxX, px);
      x := px;
    }

    method SetY(py: int)
      modifies this
      ensures State() == old(State()).SetY(py)
    {
      minY := Min(minY, py);
      maxY := Max(maxY, py);
      y := py;
    }
  }

  /** The cursor variable of the source, `None` until the first m/M. */
  function Snapshot(c: MinMaxCursor?): Option<CursorState>
    reads c
  {
    if c == null then None else Some(c.State())
  }

  /** The outcome of one command, as Step states it, for the helper methods below. */
  predicate Stepped(tokens: seq<Token>, i: nat, before: Option<CursorState>,
                    after: Option<CursorState>, next: nat, err: Option<PathError>)
    requires i < |tokens|
  {
    Step(tokens, i, before) == if err.Some? then Failure(err.value) else Success((next, after))
  }

  /** The `m` and `M` branches: create the cursor, or move it without drawing. */
  method MoveCommand(tokens: seq<Token>, i: nat, cursor: MinMaxCursor?)
    returns (c: MinMaxCursor?, next: nat, err: Option<PathError>)
    requires i < |tokens| && (tokens[i] == Word("m") || tokens[i] == Word("M"))
    modifies cursor
    ensures c != null ==> c == cursor || fresh(c)
    ensures Stepped(tokens, i, old(Snapshot(cursor)), Snapshot(c), next, err)
  {
    c, next := cursor, i;
    var offset := Operand(tokens, i + 1);
    if offset.Failure? {
      return c, next, Some(offset.error);
    }
    var p := offset.value;
    if |p| != 2 {
      return c, next, Some(WrongArity(tokens[i + 1]));
    }
    if cursor == null {
      c := new MinMaxCursor(p[0], p[1]);
    } else if tokens[i] == Word("m") {
      cursor.Add(p[0], p[1], false);
    } else {
      cursor.Set(p[0], p[1], false);
    }
    next, err := i + 2, None;
  }

  /** The `c` and `C` branches: read three coordinate pairs and fold in only the last. */
  method CurveCommand(tokens: seq<Token>, i: nat, cursor: MinMaxCursor?)
    returns (next: nat, err: Option<PathError>)
    requires i < |tokens| && (tokens[i] == Word("c") || tokens[i] == Word("C"))
    modifies cursor
    ensures Stepped(tokens, i, old(Snapshot(cursor)), Snapshot(cursor), next, err)
  {
    next := i;
    var first := Operand(tokens, i + 1);
    if first.Failure? {
      return next, Some(first.error);
    }
    var second := Operand(tokens, i + 2);
    if second.Failure? {
      return next, Some(second.error);
    }
    var end := Operand(tokens, i + 3);
    if end.Failure? {
      return next, Some(end.error);
    }
    if cursor == null {
      return next, Some(NoCursor);
    }
    var p := end.value;
    if |p| != 2 && |p| != 3 {
      return next, Some(WrongArity(tokens[i + 3]));
    }
    var draw := |p| == 2 || p[2] != 0;
    if tokens[i] == Word("c") {
      cursor.Add(p[0], p[1], draw);
    } else {
      cursor.Set(p[0], p[1], draw);
    }
    next, err := i + 4, None;
  }

  /** The `h`, `v`, `H` and `V` branches: `while isint(peek(d_iter))`. */
  method RunCommand(tokens: seq<Token>, i: nat, cursor: MinMaxCursor?)
    returns (next: nat, err: Option<PathError>)
    requires i < |tokens| && RunKindOf(tokens[i]).Some?
    modifies cursor
    ensures Stepped(tokens, i, old(Snapshot(cursor)), Snapshot(cursor), next, err)
  {
    var kind := RunKindOf(tokens[i]).value;
    var j := i + 1;
    while j < |tokens| && IsInt(tokens[j])
      invariant i + 1 <= j <= |tokens|
      invariant Run(tokens, j, Snapshot(cursor), kind) == Run(tokens, i + 1, old(Snapshot(cursor)), kind)
    {
      if cursor == null {
        return i, Some(NoCursor);
      }
      var n := tokens[j].values[0];
      match kind {
        case RelativeX => cursor.Add(n, 0, true);
        case RelativeY => cursor.Add(0, n, true);
        case AbsoluteX => cursor.SetX(n);
        case AbsoluteY => cursor.SetY(n);
      }
      j := j + 1;
    }
    if j == |tokens| {
      return i, Some(UnexpectedEnd);
    }
    next, err := j, None;
  }

  /** `parse_dimensions_from_path`: walks the tokens by index with a MinMaxCursor. */
  method MeasurePath(tokens: seq<Token>, strokeWidth: real) returns (r: Result<Dimensions, PathError>)
    ensures r == Measure(tokens, strokeWidth)
  {
    var cursor: MinMaxCursor? := null;
    var i := 0;
    while i < |tokens|
      invariant i <= |tokens|
      invariant cursor != null ==> fresh(cursor)
      invariant Walk(tokens, i, Snapshot(cursor)) == Walk(tokens, 0, None)
      decreases |tokens| - i
    {
      var token := tokens[i];
      var next: nat, err: Option<PathError>;
      if token == Word("m") || token == Word("M") {
        cursor, next, err := MoveCommand(tokens, i, cursor);
      } else if token == Word("c") || token == Word("C") {
        next, err := CurveCommand(tokens, i, cursor);
      } else if RunKindOf(token).Some? {
        next, err := RunCommand(tokens, i, cursor);
      } else if token == Word("z") {
        next, err := i + 1, None;
      } else {
        next, err := i, Some(UnknownCommand(token));
      }
      if err.Some? {
        return Failure(err.value);
      }
      i := next;
    }
    if cursor == null {
      return Failure(NoCursor);
    }
    r := Success(Pad(cursor.State().box, strokeWidth));
  }

  // ---------------------------------------------------------------------------
  // Properties of the interpreter
  // ---------------------------------------------------------------------------

  /** The first `m` or `M` creates the cursor; pen and box are the single point it names. */
  lemma FirstMoveStartsAtPoint(tokens: seq<Token>, i: nat, x: int, y: int)
    requires i + 1 < |tokens| && (tokens[i] == Word("m") || tokens[i] == Word("M"))
    requires tokens[i + 1] == Numbers([x, y])
    ensures Step(tokens, i, None) == Success((i + 2, Some(CursorState(x, y, Box(x, y, x, y)))))
  {
  }

  /** A later relative `m` moves the pen and leaves the box as it was. */
  lemma LaterRelativeMoveKeepsBox(tokens: seq<Token>, i: nat, c: CursorState, dx: int, dy: int)
    requires i + 1 < |tokens| && tokens[i] == Word("m") && tokens[i + 1] == Numbers([dx, dy])
    ensures Step(tokens, i, Some(c)) == Success((i + 2, Some(CursorState(c.x + dx, c.y + dy, c.box))))
  {
  }

  /** A later absolute `M` widens the box to the target and leaves the pen where it was. */
  lemma LaterAbsoluteMoveKeepsPen(tokens: seq<Token>, i: nat, c: CursorState, x: int, y: int)
    requires i + 1 < |tokens| && tokens[i] == Word("M") && tokens[i + 1] == Numbers([x, y])
    ensures Step(tokens, i, Some(c)) == Success((i + 2, Some(CursorState(c.x, c.y, c.box.Widen(x, y)))))
  {
  }

  /** A curve reads two control points but its effect does not depend on them. */
  lemma CurveIgnoresControlPoints(tokens: seq<Token>, i: nat, cur: Option<CursorState>, a: Coordinates, b: Coordinates)
    requires i + 3 < |tokens| && (tokens[i] == Word("c") || tokens[i] == Word("C"))
    requires tokens[i + 1].Numbers? && tokens[i + 2].Numbers?
    ensures Step(tokens[i + 1 := Numbers(a)][i + 2 := Numbers(b)], i, cur) == Step(tokens, i, cur)
  {
  }

  /** A curve folds its endpoint in as a drawing step: relative for `c`, absolute for `C`. */
  lemma CurveFoldsEndpoint(tokens: seq<Token>, i: nat, c: CursorState, x: int, y: int)
    requires i + 3 < |tokens| && (tokens[i] == Word("c") || tokens[i] == Word("C"))
    requires tokens[i + 1].Numbers? && tokens[i + 2].Numbers? && tokens[i + 3] == Numbers([x, y])
    ensures var after := if tokens[i] == Word("c") then c.Add(x, y, true) else c.Set(x, y, true);
            Step(tokens, i, Some(c)) == Success((i + 4, Some(after)))
    ensures var after := Step(tokens, i, Some(c)).value.1.value;
            after.box.Contains(if tokens[i] == Word("c") then c.x + x else x,
                               if tokens[i] == Word("c") then c.y + y else y)
  {
  }

  /** `z` changes neither the pen nor the box. */
  lemma CloseChangesNothing(tokens: seq<Token>, i: nat, cur: Option<CursorState>)
    requires i < |tokens| && tokens[i] == Word("z")
    ensures Step(tokens, i, cur) == Success((i + 1, cur))
  {
  }

  /** Any token that is not one of the nine commands raises an exception carrying it. */
  lemma UnknownTokenRaises(tokens: seq<Token>, i: nat, cur: Option<CursorState>)
    requires i < |tokens| && !IsCommand(tokens[i])
    ensures Step(tokens, i, cur) == Failure(UnknownCommand(tokens[i]))
  {
  }

  /** A curve, or a run with at least one integer, before any m/M fails: there is no cursor. */
  lemma DrawBeforeMoveFails(tokens: seq<Token>, i: nat)
    requires i + 1 < |tokens|
    requires || (RunKindOf(tokens[i]).Some? && IsInt(tokens[i + 1]))
             || ((tokens[i] == Word("c") || tokens[i] == Word("C"))
                 && i + 3 < |tokens| && tokens[i + 1].Numbers? && tokens[i + 2].Numbers? && tokens[i + 3].Numbers?)
    ensures Step(tokens, i, None) == Failure(NoCursor)
  {
  }

  /** The integers of a run of single-integer tokens. */
  function IntsOf(ts: seq<Token>): (ns: seq<int>)
    requires forall k :: 0 <= k < |ts| ==> IsInt(ts[k])
    ensures |ns| == |ts|
  {
    if ts == [] then [] else assert IsInt(ts[0]); [ts[0].values[0]] + IntsOf(ts[1..])
  }

  /** A run's integers applied one after another. */
  function RunFold(kind: RunKind, c: CursorState, ns: seq<int>): CursorState
    decreases |ns|
  {
    if ns == [] then c else RunFold(kind, RunStep(kind, c, ns[0]), ns[1..])
  }

  /**
   * A run consumes every integer token that immediately follows it, each as a
   * drawing step, and stops at the first token that is not a single integer.
   */
  lemma {:induction false} RunConsumesIntegers(tokens: seq<Token>, j: nat, k: nat, c: CursorState, kind: RunKind)
    requires j <= k < |tokens| && !IsInt(tokens[k])
    requires forall m :: j <= m < k ==> IsInt(tokens[m])
    ensures Run(tokens, j, Some(c), kind) == Success((k, Some(RunFold(kind, c, IntsOf(tokens[j..k])))))
    decreases k - j
  {
    if j < k {
      var n := tokens[j].values[0];
      RunConsumesIntegers(tokens, j + 1, k, RunStep(kind, c, n), kind);
      assert IntsOf(tokens[j..k]) == [n] + IntsOf(tokens[j + 1..k]);
    }
  }

  /** A run whose integers reach the end of the stream raises: `peek` finds nothing. */
  lemma {:induction false} RunReachingEndFails(tokens: seq<Token>, j: nat, c: CursorState, kind: RunKind)
    requires j <= |tokens|
    requires forall m :: j <= m < |tokens| ==> IsInt(tokens[m])
    ensures Run(tokens, j, Some(c), kind) == Failure(UnexpectedEnd)
    decreases |tokens| - j
  {
    if j < |tokens| {
      RunReachingEndFails(tokens, j + 1, RunStep(kind, c, tokens[j].values[0]), kind);
    }
  }

  /** A run keeps the box ordered and never shrinks it. */
  lemma {:induction false} RunGrowsBox(tokens: seq<Token>, j: nat, c: CursorState, kind: RunKind)
    requires j <= |tokens| && c.box.Ordered()
    requires Run(tokens, j, Some(c), kind).Success?
    ensures var after := Run(tokens, j, Some(c), kind).value.1;
            after.Some? && after.value.box.Ordered() && after.value.box.Encloses(c.box)
    decreases |tokens| - j
  {
    if j < |tokens| && IsInt(tokens[j]) {
      RunGrowsBox(tokens, j + 1, RunStep(kind, c, tokens[j].values[0]), kind);
    }
  }

  /** Once the cursor exists, every command keeps min <= max and never shrinks the box. */
  lemma StepGrowsBox(tokens: seq<Token>, i: nat, c: CursorState)
    requires i < |tokens| && c.box.Ordered()
    requires Step(tokens, i, Some(c)).Success?
    ensures var after := Step(tokens, i, Some(c)).value.1;
            after.Some? && after.value.box.Ordered() && after.value.box.Encloses(c.box)
  {
    if RunKindOf(tokens[i]).Some? {
      RunGrowsBox(tokens, i + 1, c, RunKindOf(tokens[i]).value);
    }
  }

  /** Box monotonicity over the rest of the stream: the final box encloses every earlier one. */
  lemma {:induction false} WalkGrowsBox(tokens: seq<Token>, i: nat, c: CursorState)
    requires i <= |tokens| && c.box.Ordered()
    requires Walk(tokens, i, Some(c)).Success?
    ensures var last := Walk(tokens, i, Some(c)).value;
            last.Some? && last.value.box.Ordered() && last.value.box.Encloses(c.box)
    decreases |tokens| - i
  {
    if i < |tokens| {
      StepGrowsBox(tokens, i, c);
      var next := Step(tokens, i, Some(c)).value;
      WalkGrowsBox(tokens, next.0, next.1.value);
    }
  }

  /** Whatever cursor a walk from "no cursor yet" ends with has an ordered box. */
  lemma {:induction false} WalkFromNoCursorIsOrdered(tokens: seq<Token>, i: nat)
    requires i <= |tokens|
    requires Walk(tokens, i, None).Success? && Walk(tokens, i, None).value.Some?
    ensures Walk(tokens, i, None).value.value.box.Ordered()
    decreases |tokens| - i
  {
    if i < |tokens| {
      var next := Step(tokens, i, None).value;
      if next.1.None? {
        WalkFromNoCursorIsOrdered(tokens, next.0);
      } else {
        WalkGrowsBox(tokens, next.0, next.1.value);
      }
    }
  }

  /**
   * The measured outline is the accumulated box padded by half the stroke
   * width on every side: its size is the box's extent plus one stroke width.
   */
  lemma MeasureIsPaddedBox(tokens: seq<Token>, strokeWidth: real)
    requires Measure(tokens, strokeWidth).Success?
    ensures Walk(tokens, 0, None).Success? && Walk(tokens, 0, None).value.Some?
    ensures var b := Walk(tokens, 0, None).value.value.box;
            var d := Measure(tokens, strokeWidth).value;
            b.Ordered()
            && d.x == b.minX as real - strokeWidth / 2.0 && d.y == b.minY as real - strokeWidth / 2.0
            && d.x + d.width == b.maxX as real + strokeWidth / 2.0
            && d.y + d.height == b.maxY as real + strokeWidth / 2.0
            && d.width >= strokeWidth && d.height >= strokeWidth
  {
    WalkFromNoCursorIsOrdered(tokens, 0);
  }

  /** A path with no m/M at all measures nothing: `cursor.minimum()` fails on None. */
  lemma {:induction false} NoMoveNoDimensions(tokens: seq<Token>, i: nat)
    requires i <= |tokens|
    requires forall k :: i <= k < |tokens| ==> tokens[k] != Word("m") && tokens[k] != Word("M")
    ensures Walk(tokens, i, None).Success? ==> Walk(tokens, i, None).value.None?
    decreases |tokens| - i
  {
    if i < |tokens| && Step(tokens, i, None).Success? {
      NoMoveNoDimensions(tokens, Step(tokens, i, None).value.0);
    }
  }

  /** A one-stroke outline: m 2,3 h 4 z with stroke width 2 gives ((1, 2), (6, 2)). */
  lemma LineOutlineExample()
    ensures Measure([Word("m"), Numbers([2, 3]), Word("h"), Numbers([4]), Word("z")], 2.0)
         == Success(Dimensions(1.0, 2.0, 6.0, 2.0))
  {
    var t := [Word("m"), Numbers([2, 3]), Word("h"), Numbers([4]), Word("z")];
    var c1 := CursorState(6, 3, Box(2, 3, 6, 3));
    assert Run(t, 3, Some(Start(2, 3)), RelativeX) == Run(t, 4, Some(c1), RelativeX);
    assert Walk(t, 2, Some(Start(2, 3))) == Walk(t, 4, Some(c1)) == Walk(t, 5, Some(c1));
  }
}
