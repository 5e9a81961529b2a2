/** Vocabulary shared by the dashboard's screens: colours, screen geometry, input events,
    and the first-match search that every button row uses. */
module Ui {

  datatype Option<T> = None | Some(value: T)

  /** One 8-bit colour channel (sf::Uint8). */
  type Byte = b: int | 0 <= b < 256

  /** An opaque RGB colour (sf::Color, alpha left out). */
  datatype Colour = Colour(r: Byte, g: Byte, b: Byte)

  const White := Colour(255, 255, 255)
  const Blue := Colour(0, 0, 255)
  const Green := Colour(0, 255, 0)
  const Red := Colour(255, 0, 0)

  /** A position in the window's coordinate space (sf::Vector2f). */
  datatype Point = Point(x: real, y: real)

  function Min(a: real, b: real): real { if a <= b then a else b }

  function Max(a: real, b: real): real { if a <= b then b else a }

  /** An axis-aligned rectangle as sf::FloatRect keeps it: a corner and a size that may be negative. */
  datatype Rect = Rect(left: real, top: real, width: real, height: real) {
    /** FloatRect::contains: the lower edges are inside, the upper edges are not. */
    predicate Contains(p: Point) {
      Min(left, left + width) <= p.x < Max(left, left + width) &&
      Min(top, top + height) <= p.y < Max(top, top + height)
    }
  }

  /** getGlobalBounds of an sf::RectangleShape of size w x h placed at (x, y): an outline of
      thickness t grows the bounds by t on every side. */
  function ShapeBounds(x: real, y: real, w: real, h: real, outline: real): (r: Rect)
    requires 0.0 <= w && 0.0 <= h && 0.0 <= outline
    ensures forall p: Point :: x <= p.x < x + w && y <= p.y < y + h ==> r.Contains(p)
    ensures forall p: Point :: r.Contains(p) ==> x - outline <= p.x < x + w + outline && y - outline <= p.y < y + h + outline
  {
    Rect(x - outline, y - outline, w + 2.0 * outline, h + 2.0 * outline)
  }

  datatype MouseButton = LeftButton | RightButton | MiddleButton

  /** The input events the screens react to. A mouse press carries the pointer position the
      handler reads when it runs (sf::Mouse::getPosition mapped to window coordinates). */
  datatype Event =
    | MousePressed(button: MouseButton, at: Point)
    | TextEntered(code: nat)
    | OtherEvent

  /** The index of the first rectangle that contains p, scanning in order, as the button loops
      that stop at the first match do; None when no rectangle contains p. */
  function FirstHit(rects: seq<Rect>, p: Point): (r: Option<nat>)
    ensures r.Some? ==> r.value < |rects| && rects[r.value].Contains(p)
    ensures r.Some? ==> forall j :: 0 <= j < r.value ==> !rects[j].Contains(p)
    ensures r.None? <==> forall j :: 0 <= j < |rects| ==> !rects[j].Contains(p)
    decreases |rects|
  {
    if |rects| == 0 then None
    else if rects[0].Contains(p) then Some(0)
    else match FirstHit(rects[1..], p)
      case None => None
      case Some(i) => Some(i + 1)
  }

  /** The index loop with `break` that the screens run over a row of buttons. */
  method FindButton(buttons: seq<Rect>, p: Point) returns (hit: Option<nat>)
    ensures hit == FirstHit(buttons, p)
  {
    var i := 0;
    while i < |buttons|
      invariant 0 <= i <= |buttons|
      invariant forall j :: 0 <= j < i ==> !buttons[j].Contains(p)
    {
      if buttons[i].Contains(p) {
        return Some(i);
      }
      i := i + 1;
    }
    return None;
  }

  /** Decimal digits of n, as std::to_string and stream output write it. */
  function NatToString(n: nat): (s: string)
    ensures 1 <= |s|
    ensures forall i :: 0 <= i < |s| ==> '0' <= s[i] <= '9'
    ensures n < 10 ==> s == [(48 + n) as char]
  {
    if n < 10 then [(48 + n) as char] else NatToString(n / 10) + [(48 + n % 10) as char]
  }
}
