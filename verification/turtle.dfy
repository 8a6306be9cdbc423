/** The turtle: pen state, position, pen colour and heading, and the
    operations the commands perform on it. Moving is delegated to a line
    drawer supplied from outside, which reports where the line ends. */
module Turtles {
  import opened Results
  import opened Numerals
  import opened Floats
  import opened Literals

  datatype Turtle = Turtle(pen: bool, x: F32, y: F32, color: Int32, direction: Int32)

  /** `draw_simple_line`: from the pen state, start point, heading in
      degrees and distance, the end point, or `None` if drawing fails. */
  type LineFn = (bool, F32, F32, Int32, F32) -> Option<(F32, F32)>

  /** What the interpreter needs from outside: float operations, the line
      drawer, and the number of colours in the palette. */
  datatype Env = Env(ops: FloatOps, line: LineFn, paletteSize: nat)

  /** `Turtle::new`: pen up, colour 7, heading 0. */
  function New(x: F32, y: F32): (t: Turtle)
    ensures !t.pen && t.x == x && t.y == y && t.color == 7 && t.direction == 0
  {
    Turtle(false, x, y, 7, 0)
  }

  /** `pen_up`. */
  function PenUp(t: Turtle): (r: Turtle)
    ensures !r.pen
    ensures r.x == t.x && r.y == t.y && r.color == t.color && r.direction == t.direction
  {
    t.(pen := false)
  }

  /** `pen_down`. */
  function PenDown(t: Turtle): (r: Turtle)
    ensures r.pen
    ensures r.x == t.x && r.y == t.y && r.color == t.color && r.direction == t.direction
  {
    t.(pen := true)
  }

  /** `set_color`: any `i32`, checked only when drawing. */
  function SetColor(t: Turtle, c: Int32): (r: Turtle)
    ensures r.color == c
    ensures r.pen == t.pen && r.x == t.x && r.y == t.y && r.direction == t.direction
  {
    t.(color := c)
  }

  /** `set_x`. */
  function SetX(t: Turtle, x: F32): (r: Turtle)
    ensures r.x == x
    ensures r.pen == t.pen && r.y == t.y && r.color == t.color && r.direction == t.direction
  {
    t.(x := x)
  }

  /** `set_y`. */
  function SetY(t: Turtle, y: F32): (r: Turtle)
    ensures r.y == y
    ensures r.pen == t.pen && r.x == t.x && r.color == t.color && r.direction == t.direction
  {
    t.(y := y)
  }

  /** `set_direction`: no normalisation. */
  function SetDirection(t: Turtle, d: Int32): (r: Turtle)
    ensures r.direction == d
    ensures r.pen == t.pen && r.x == t.x && r.y == t.y && r.color == t.color
  {
    t.(direction := d)
  }

  /** The setters are independent fields: setting one to the value it
      already has changes nothing, and the second of two settings of the
      same field wins. */
  lemma SetterLaws(t: Turtle, x: F32, x': F32, c: Int32, c': Int32)
    ensures PenUp(PenDown(t)) == PenUp(t) && PenDown(PenUp(t)) == PenDown(t)
    ensures t.pen ==> PenDown(t) == t
    ensures !t.pen ==> PenUp(t) == t
    ensures SetX(t, t.x) == t && SetX(SetX(t, x), x') == SetX(t, x')
    ensures SetY(t, t.y) == t && SetY(SetY(t, x), x') == SetY(t, x')
    ensures SetColor(t, t.color) == t && SetColor(SetColor(t, c), c') == SetColor(t, c')
    ensures SetDirection(t, t.direction) == t && SetDirection(SetDirection(t, c), c') == SetDirection(t, c')
    ensures SetX(SetY(t, x), x') == SetY(SetX(t, x'), x)
  {
  }

  /** `turn`: `direction += degrees` in `i32`, which aborts on overflow. */
  function Turn(t: Turtle, degrees: Int32): (r: Result<Turtle>)
    ensures r.Ok? <==> InI32(t.direction + degrees)
    ensures r.Ok? ==> r.value == t.(direction := t.direction + degrees)
    ensures r.Err? ==> r.error == Overflow
  {
    var d := t.direction + degrees;
    if InI32(d) then Ok(t.(direction := d)) else Err(Overflow)
  }

  /** `move_`: the pen colour must index the palette; the line is drawn at
      heading plus `offset` (an `i32` sum that aborts on overflow), and the
      turtle moves to where it ends. Only the position changes. */
  function Move(env: Env, t: Turtle, distance: F32, offset: Int32): (r: Result<Turtle>)
    ensures !(0 <= t.color < env.paletteSize) ==> r == Err(InvalidColor)
    ensures 0 <= t.color < env.paletteSize && !InI32(t.direction + offset) ==> r == Err(Overflow)
    ensures r.Ok? ==>
              var heading := t.direction + offset;
              && InI32(heading)
              && env.line(t.pen, t.x, t.y, heading, distance) == Some((r.value.x, r.value.y))
              && r.value == t.(x := r.value.x, y := r.value.y)
  {
    if !(0 <= t.color < env.paletteSize) then Err(InvalidColor)
    else
      var heading := t.direction + offset;
      if !InI32(heading) then Err(Overflow)
      else match env.line(t.pen, t.x, t.y, heading, distance)
        case None => Err(DrawFailed)
        case Some((x, y)) => Ok(t.(x := x, y := y))
  }

  const ForwardOffset: Int32 := 0
  const BackOffset: Int32 := 180
  const LeftOffset: Int32 := 270
  const RightOffset: Int32 := 90
}
