/**
 * The polygon node renderer: it replaces the default node renderer, draws a
 * node as a regular polygon on a Processing target when the node's "Polygon"
 * attribute asks for one, and adds its enable switch to the renderer's
 * preview properties.
 */
module PolygonNodes {
  import opened Wrappers
  import opened Preview
  import opened NodeResolution
  import opened NgonEmission

  /** The name of the Boolean preview property that switches polygon rendering on. */
  const ENABLE_PROPERTY: string := "PolygonNodes.property.enable"

  /** Where `render` sends an item. */
  datatype Route =
    | PolygonDrawn(sides: int)   // renderProcessing was called with this side count
    | DefaultRenderer            // super.render, the default node renderer
    | SVGOverride                // renderSVG, which draws nothing
    | PDFOverride                // renderPDF, which draws nothing

  /**
   * Renders `item` on `target`. `nodes` are the graph model's nodes in
   * iteration order. On a Processing target the scan picks a side count and
   * the item is drawn as that polygon, or handed to the default renderer;
   * SVG and PDF targets go to the empty overrides; any other target goes to
   * the default renderer.
   */
  method Render(item: NodeItem, target: RenderTarget, properties: PreviewProperties, nodes: seq<GraphNode>)
    returns (route: Route)
    modifies if target.ProcessingTarget? then {target.graphics} else {}
    ensures target.ProcessingTarget? ==>
      var sides := SidesFor(nodes, item.source, properties.enable);
      if sides != NO_POLYGON then
        && route == PolygonDrawn(sides)
        && target.graphics.trace == old(target.graphics.trace) + PolygonCommands(item, properties, sides)
      else
        && route == DefaultRenderer
        && target.graphics.trace == old(target.graphics.trace)
    ensures target.SVGTarget? ==> route == SVGOverride
    ensures target.PDFTarget? ==> route == PDFOverride
    ensures target.OtherTarget? ==> route == DefaultRenderer
    // only a Processing target is drawn as a polygon, and never with fewer than three sides
    ensures route.PolygonDrawn? ==> target.ProcessingTarget? && route.sides >= MIN_SIDES
    // with the enable property false or unreadable every item goes to the default renderer or an override
    ensures properties.enable != Some(true) ==> !route.PolygonDrawn?
  {
    match target
    case ProcessingTarget(graphics) =>
      var renderAsNgon := ScanNodes(nodes, item.source, properties.enable);
      SidesForRange(nodes, item.source, properties.enable);
      if properties.enable != Some(true) {
        DisabledYieldsNoPolygon(nodes, item.source, properties.enable);
      }
      if renderAsNgon != NO_POLYGON {
        RenderProcessing(item, graphics, properties, renderAsNgon);
        route := PolygonDrawn(renderAsNgon);
      } else {
        route := DefaultRenderer;
      }
    case SVGTarget =>
      RenderSVG(item, properties);
      route := SVGOverride;
    case PDFTarget =>
      RenderPDF(item, properties);
      route := PDFOverride;
    case OtherTarget =>
      route := DefaultRenderer;
  }

  /** The PDF override is not implemented: it draws nothing and changes nothing. */
  method RenderPDF(item: NodeItem, properties: PreviewProperties)
  {
  }

  /** The SVG override is not implemented: it draws nothing and changes nothing. */
  method RenderSVG(item: NodeItem, properties: PreviewProperties)
  {
  }

  /** The enable property this renderer adds: a Boolean in the nodes category, set to true. */
  function EnableProperty(): PreviewProperty {
    PreviewProperty(ENABLE_PROPERTY, BooleanType, "PolygonNodes.property.name",
                    "PolygonNodes.property.description", NodesCategory, BoolValue(true))
  }

  /**
   * The default renderer's properties `props`, copied into a new array one
   * slot longer, with the enable property in the last slot.
   */
  method GetProperties(props: array<PreviewProperty>) returns (newProps: array<PreviewProperty>)
    ensures fresh(newProps)
    ensures newProps.Length == props.Length + 1
    ensures newProps[..props.Length] == props[..]
    ensures newProps[props.Length].name == ENABLE_PROPERTY
    ensures newProps[props.Length].valueType == BooleanType
    ensures newProps[props.Length].value == BoolValue(true)
    ensures newProps[props.Length] == EnableProperty()
  {
    newProps := new PreviewProperty[props.Length + 1];
    // copy the parent's entries into the front of the new array
    var i := 0;
    while i < props.Length
      invariant 0 <= i <= props.Length
      invariant newProps[..i] == props[..i]
    {
      newProps[i] := props[i];
      i := i + 1;
    }
    newProps[newProps.Length - 1] := EnableProperty();
    assert newProps[..props.Length] == props[..i];
  }
}
