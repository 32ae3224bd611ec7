/**
 * The parts of Gephi's preview API and of Processing's PGraphics that the
 * polygon node renderer reads or drives.
 */
module Preview {
  import opened Wrappers

  /** A colour by its red, green and blue components. */
  datatype Color = Color(red: int, green: int, blue: int)

  /**
   * A node of the graph model as the renderer's scan sees it: its id and its
   * "Polygon" attribute. `None` stands for an attribute that is missing or
   * not an Integer, so that reading it as one throws.
   */
  datatype GraphNode = GraphNode(id: string, polygon: Option<int>)

  /** The node item being rendered: the string form of its source node, position, size and colour. */
  datatype NodeItem = NodeItem(source: string, x: real, y: real, size: real, color: Color)

  /**
   * The preview properties the renderer reads.
   * - `enable`: the Boolean value of "PolygonNodes.property.enable"; `None`
   *   when reading it throws (missing, or not a Boolean);
   * - `borderColor`: the node border colour, already resolved against the node's colour;
   * - `borderWidth`: the node border width;
   * - `alpha`: the node opacity scaled to 0..255 and cast to int, before any clamp.
   */
  datatype PreviewProperties = PreviewProperties(
    enable: Option<bool>,
    borderColor: Color,
    borderWidth: real,
    alpha: int)

  /** A property descriptor, as the renderer publishes them to the preview settings. */
  datatype PropertyType = BooleanType | OtherType(typeName: string)
  datatype PropertyValue = NoValue | BoolValue(flag: bool) | OtherValue(text: string)
  datatype Category = NodesCategory | OtherCategory(categoryName: string)
  datatype PreviewProperty = PreviewProperty(
    name: string,
    valueType: PropertyType,
    displayNameKey: string,   // the localisation key of the display name
    descriptionKey: string,   // the localisation key of the description
    category: Category,
    value: PropertyValue)

  /**
   * A coordinate kept symbolic: `base + radius * fn(turn * pi)` when `sign` is
   * `Plus`, `base - radius * fn(turn * pi)` when it is `Minus`.
   */
  datatype Sign = Plus | Minus
  datatype Trig = Cos | Sin
  datatype Coord = Coord(base: real, sign: Sign, radius: real, fn: Trig, turn: real)

  datatype ShapeMode = Open | Close

  /** One call made on a PGraphics surface. */
  datatype Command =
    | Stroke(red: int, green: int, blue: int, alpha: int)
    | StrokeWeight(weight: real)
    | NoStroke
    | Fill(red: int, green: int, blue: int, alpha: int)
    | BeginShape
    | Vertex(x: Coord, y: Coord)
    | EndShape(mode: ShapeMode)

  /** A Processing drawing surface, modelled by the sequence of calls made on it. */
  class PGraphics {
    var trace: seq<Command>

    constructor ()
      ensures trace == []
    {
      trace := [];
    }

    method Stroke(red: int, green: int, blue: int, alpha: int)
      modifies this
      ensures trace == old(trace) + [Command.Stroke(red, green, blue, alpha)]
    {
      trace := trace + [Command.Stroke(red, green, blue, alpha)];
    }

    method StrokeWeight(weight: real)
      modifies this
      ensures trace == old(trace) + [Command.StrokeWeight(weight)]
    {
      trace := trace + [Command.StrokeWeight(weight)];
    }

    method NoStroke()
      modifies this
      ensures trace == old(trace) + [Command.NoStroke]
    {
      trace := trace + [Command.NoStroke];
    }

    method Fill(red: int, green: int, blue: int, alpha: int)
      modifies this
      ensures trace == old(trace) + [Command.Fill(red, green, blue, alpha)]
    {
      trace := trace + [Command.Fill(red, green, blue, alpha)];
    }

    method BeginShape()
      modifies this
      ensures trace == old(trace) + [Command.BeginShape]
    {
      trace := trace + [Command.BeginShape];
    }

    method Vertex(x: Coord, y: Coord)
      modifies this
      ensures trace == old(trace) + [Command.Vertex(x, y)]
    {
      trace := trace + [Command.Vertex(x, y)];
    }

    method EndShape(mode: ShapeMode)
      modifies this
      ensures trace == old(trace) + [Command.EndShape(mode)]
    {
      trace := trace + [Command.EndShape(mode)];
    }
  }

  /** The kinds of render target the renderer tells apart; only a Processing target carries a surface. */
  datatype RenderTarget =
    | ProcessingTarget(graphics: PGraphics)
    | SVGTarget
    | PDFTarget
    | OtherTarget
}
