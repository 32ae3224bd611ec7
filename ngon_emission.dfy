/**
 * `renderProcessing`: the calls that draw a node as a regular n-gon on a
 * Processing surface. Angles are kept exact, as rational multiples of pi.
 */
module NgonEmission {
  import opened Preview

  /** The largest alpha passed to the surface. */
  const MAX_ALPHA: int := 255

  /** The vertex radius as a fraction of the node size. */
  const RADIUS_FACTOR: real := 0.6

  /** The alpha after the upper clamp; there is no lower clamp. */
  function ClampAlpha(alpha: int): (a: int)
    ensures a <= MAX_ALPHA
    ensures a <= alpha
    ensures a == alpha || a == MAX_ALPHA
  {
    if alpha > MAX_ALPHA then MAX_ALPHA else alpha
  }

  /**
   * The angle of vertex `i` of an `n`-gon, in units of pi: `i * 2/n`, turned
   * back a further quarter of pi (45 degrees) when `n` is even.
   */
  function Turn(i: int, n: int): real
    requires n > 0
  {
    if n % 2 == 0 then 2.0 * i as real / n as real - 0.25
    else 2.0 * i as real / n as real
  }

  /**
   * The `vertex` call for vertex `i` of an `n`-gon drawn for `item`: both
   * coordinates at radius size * 0.6 from the node position and at the same
   * angle `Turn(i, n)`, the cosine term added to x and the sine term
   * subtracted from y (see `VertexOnCircle`).
   */
  function VertexAt(item: NodeItem, i: int, n: int): Command
    requires n > 0
  {
    var radius := item.size * RADIUS_FACTOR;
    Vertex(Coord(item.x, Plus, radius, Cos, Turn(i, n)), Coord(item.y, Minus, radius, Sin, Turn(i, n)))
  }

  /**
   * The value of a symbolic coordinate, given the cosine and sine of an angle
   * expressed in units of pi: `cos(t)` stands for cos(t * pi).
   */
  function CoordValue(c: Coord, cos: real -> real, sin: real -> real): real {
    var trig := if c.fn == Cos then cos(c.turn) else sin(c.turn);
    if c.sign == Plus then c.base + c.radius * trig else c.base - c.radius * trig
  }

  /**
   * Vertex `i` is the point (x + r cos a, y - r sin a) for r = size * 0.6 and
   * a = Turn(i, n) * pi, so it lies on the circle of radius r around the node
   * position, for any cosine and sine with cos^2 + sin^2 = 1.
   */
  lemma VertexOnCircle(item: NodeItem, i: int, n: int, cos: real -> real, sin: real -> real)
    requires n > 0
    requires forall t :: cos(t) * cos(t) + sin(t) * sin(t) == 1.0
    ensures CoordValue(VertexAt(item, i, n).x, cos, sin) == item.x + item.size * RADIUS_FACTOR * cos(Turn(i, n))
    ensures CoordValue(VertexAt(item, i, n).y, cos, sin) == item.y - item.size * RADIUS_FACTOR * sin(Turn(i, n))
    ensures var dx := CoordValue(VertexAt(item, i, n).x, cos, sin) - item.x;
            var dy := CoordValue(VertexAt(item, i, n).y, cos, sin) - item.y;
            dx * dx + dy * dy == (item.size * RADIUS_FACTOR) * (item.size * RADIUS_FACTOR)
  {
  }

  /** The number of vertices drawn for a side count: the loop runs only for positive counts. */
  function VertexCount(n: int): nat {
    if n > 0 then n else 0
  }

  /** The vertex calls of an `n`-gon, in index order. */
  function NgonVertices(item: NodeItem, n: int): seq<Command> {
    seq(VertexCount(n), i requires 0 <= i < VertexCount(n) => VertexAt(item, i, n))
  }

  /** The calls that set stroke and fill before the shape begins. */
  function StyleCommands(item: NodeItem, properties: PreviewProperties): seq<Command> {
    var alpha := ClampAlpha(properties.alpha);
    var border := properties.borderColor;
    (if properties.borderWidth > 0.0
     then [Stroke(border.red, border.green, border.blue, alpha), StrokeWeight(properties.borderWidth)]
     else [NoStroke])
    + [Fill(item.color.red, item.color.green, item.color.blue, alpha)]
  }

  /** The number of style calls: stroke and its weight, or noStroke; then fill. */
  function StyleLength(properties: PreviewProperties): nat {
    if properties.borderWidth > 0.0 then 3 else 2
  }

  /** Every call `renderProcessing` makes, in order. */
  function PolygonCommands(item: NodeItem, properties: PreviewProperties, numSides: int): (cs: seq<Command>)
    // layout: style calls, one beginShape, the vertices, one endShape(CLOSE)
    ensures |cs| == StyleLength(properties) + VertexCount(numSides) + 2
    ensures forall k | 0 <= k < |cs| :: cs[k] == BeginShape <==> k == StyleLength(properties)
    ensures forall k | 0 <= k < |cs| :: cs[k].EndShape? <==> k == |cs| - 1
    ensures cs[|cs| - 1] == EndShape(Close)
    // exactly numSides vertices, strictly between beginShape and endShape, in index order
    ensures forall k | 0 <= k < |cs| :: cs[k].Vertex? <==> StyleLength(properties) < k < |cs| - 1
    ensures forall i | 0 <= i < numSides :: cs[StyleLength(properties) + 1 + i] == VertexAt(item, i, numSides)
    // stroke with the clamped alpha and the border width iff the border width is positive
    ensures properties.borderWidth > 0.0 <==>
      && cs[0] == Stroke(properties.borderColor.red, properties.borderColor.green,
                         properties.borderColor.blue, ClampAlpha(properties.alpha))
      && cs[1] == StrokeWeight(properties.borderWidth)
    ensures properties.borderWidth <= 0.0 <==> cs[0] == NoStroke
    ensures forall k | 0 <= k < |cs| :: cs[k].Stroke? || cs[k].StrokeWeight? ==> properties.borderWidth > 0.0
    ensures forall k | 0 <= k < |cs| :: cs[k].NoStroke? ==> properties.borderWidth <= 0.0
    // one fill, with the item's colour and the same alpha, just before beginShape
    ensures forall k | 0 <= k < |cs| :: cs[k].Fill? <==> k == StyleLength(properties) - 1
    ensures cs[StyleLength(properties) - 1] ==
      Fill(item.color.red, item.color.green, item.color.blue, ClampAlpha(properties.alpha))
  {
    StyleCommands(item, properties) + [BeginShape] + NgonVertices(item, numSides) + [EndShape(Close)]
  }

  /** Two vertex angles differ by `2/n` of pi per index step; the parity offset cancels. */
  lemma TurnGap(i: int, j: int, n: int)
    requires n > 0
    ensures Turn(j, n) - Turn(i, n) == 2.0 * (j - i) as real / n as real
  {
  }

  /** A gap of fewer than `n` index steps is less than a full turn. */
  lemma GapWithinTurn(d: int, n: int)
    requires 0 < d < n
    ensures 0.0 < 2.0 * d as real / n as real < 2.0
  {
  }

  /**
   * Vertex angles: the first is 0, or -1/4 of pi for an even count; each next
   * one is 2/n of pi further; and any two lie less than a full turn apart, so
   * the `n` angles are distinct.
   */
  lemma NgonTurns(n: int)
    requires n > 0
    ensures Turn(0, n) == if n % 2 == 0 then -0.25 else 0.0
    ensures forall i | 0 <= i < n - 1 :: Turn(i + 1, n) - Turn(i, n) == 2.0 / n as real
    ensures forall i, j | 0 <= i < j < n :: 0.0 < Turn(j, n) - Turn(i, n) < 2.0
  {
    forall i | 0 <= i < n - 1
      ensures Turn(i + 1, n) - Turn(i, n) == 2.0 / n as real
    {
      TurnGap(i, i + 1, n);
    }
    forall i, j | 0 <= i < j < n
      ensures 0.0 < Turn(j, n) - Turn(i, n) < 2.0
    {
      TurnGap(i, j, n);
      GapWithinTurn(j - i, n);
    }
  }

  /**
   * Draws `item` as a `numSides`-gon on `graphics` (the target's surface):
   * clamp alpha, set stroke or no stroke, fill, then one closed shape of
   * `numSides` vertices.
   */
  method RenderProcessing(item: NodeItem, graphics: PGraphics, properties: PreviewProperties, numSides: int)
    modifies graphics
    ensures graphics.trace == old(graphics.trace) + PolygonCommands(item, properties, numSides)
  {
    var alpha := properties.alpha;
    if alpha > MAX_ALPHA {
      alpha := MAX_ALPHA;
    }
    var border := properties.borderColor;
    if properties.borderWidth > 0.0 {
      graphics.Stroke(border.red, border.green, border.blue, alpha);
      graphics.StrokeWeight(properties.borderWidth);
    } else {
      graphics.NoStroke();
    }
    graphics.Fill(item.color.red, item.color.green, item.color.blue, alpha);
    graphics.BeginShape();
    ghost var shapeStart := graphics.trace;
    assert shapeStart == old(graphics.trace) + StyleCommands(item, properties) + [BeginShape];
    var i := 0;
    while i < numSides
      invariant 0 <= i <= VertexCount(numSides)
      invariant graphics.trace == shapeStart + NgonVertices(item, numSides)[..i]
    {
      var v := VertexAt(item, i, numSides);
      graphics.Vertex(v.x, v.y);
      assert NgonVertices(item, numSides)[..i + 1] == NgonVertices(item, numSides)[..i] + [v];
      i := i + 1;
    }
    assert NgonVertices(item, numSides)[..i] == NgonVertices(item, numSides);
    graphics.EndShape(Close);
  }
}
