# Polygon node renderer, modelled in Dafny

Gephi's preview draws every graph node through a node renderer. The
`PolygonNodes` plugin replaces the default node renderer. When a node carries
an Integer "Polygon" attribute of at least 3 and the
"PolygonNodes.property.enable" preview property is true, the Processing
(on-screen) preview draws that node as a regular polygon with that many
sides. All other nodes go to the default renderer. SVG and PDF export go to
overrides that draw nothing. The renderer also adds its enable switch to the
default renderer's preview properties.

The project has five modules, one file each:

- `Wrappers` (`wrappers.dfy`): `Option`.
- `Preview` (`preview.dfy`): the host values the renderer reads and drives:
  - graph nodes, the node item and the preview properties;
  - property descriptors;
  - the render target, a closed choice of Processing, SVG, PDF and other;
  - `PGraphics`, a Processing surface modelled as a class. Its `trace` field
    holds the sequence of drawing commands, and each drawing call appends to it.
- `NodeResolution` (`node_resolution.dfy`): the node scan at the start of
  `render`. `Condition` evaluates the scan's test on one node, left to right,
  as Java's `&&` does. It returns `None` when evaluating the test throws,
  which happens when the "Polygon" value is missing or not an Integer, or
  when the enable property cannot be read. `SidesFor` is the scan's result
  as a function. `ScanNodes` is the loop with its early exit.
- `NgonEmission` (`ngon_emission.dfy`): `renderProcessing`, which clamps
  alpha, sets stroke or no stroke, sets fill, and draws one closed shape of
  `numSides` vertices.
  - Angles are exact. `Turn(i, n)` is the vertex angle divided by pi:
    `2i/n`, less `1/4` when `n` is even.
  - A vertex coordinate is kept symbolic, as `base ± radius * cos|sin(turn * pi)`.
  - `PolygonCommands` is every call `renderProcessing` makes, and its
    contract gives their layout.
- `PolygonNodes` (`polygon_nodes.dfy`): `render`, the empty `renderSVG` and
  `renderPDF`, and `getProperties`. `Render` returns a `Route` saying which
  path took the item: the polygon path with its side count, the default
  renderer, or one of the two empty overrides.

This file has no named shapes other than the n-gon, no configurable column
names (the attribute is always "Polygon") and no SVG or PDF output. Alpha is
clamped only from above. The SVG and PDF overrides draw nothing, even when the
enable property is false, so on those targets this renderer draws no node.

## Model

| member | source | states |
|---|---|---|
| `NodeResolution.Condition` | PolygonNodes.java:80-88 | The per-node test holds iff the id equals the item's source, the "Polygon" value is present and at least 3, and the enable property is true. It throws (`None`) iff the id matches and either the "Polygon" value is unreadable, or the value is at least 3 and the enable property is unreadable. |
| `NodeResolution.ScanNodes` | PolygonNodes.java:78-89 | The loop with its `break` returns exactly the scan's result, `SidesFor` of the nodes in iteration order. |
| `NodeResolution.SidesForRange` | PolygonNodes.java:78-85 | The scan yields -1 or a side count of at least 3. |
| `NodeResolution.SidesForIsFirstMatch` | PolygonNodes.java:79-86 | The scan yields -1 iff no node passes the test. Otherwise it yields the "Polygon" value of the first node in iteration order that passes, and such a node exists. |
| `NodeResolution.DisabledYieldsNoPolygon` | PolygonNodes.java:83-93 | With the enable property false or unreadable, every node sequence yields -1. |
| `NodeResolution.NonMatchingPrefixSkipped` | PolygonNodes.java:80-88 | Nodes whose test fails or throws are passed over without ending the scan, and the nodes after them decide the result. |
| `NodeResolution.EarlierMatchWins` | PolygonNodes.java:84-85 | After a match the scan stops: appending nodes does not change a result other than -1. |
| `PolygonNodes.Render` | PolygonNodes.java:75-102 | Dispatch has four outcomes. On a Processing target with a scan result other than -1, the trace grows by exactly one `renderProcessing` call sequence for that side count. On a Processing target with -1, the item goes to the default renderer and the trace is unchanged. SVG and PDF targets go to their empty overrides with no fallback. Any other target goes to the default renderer. Only a Processing target is drawn as a polygon, always with at least 3 sides, and never when the enable property is false or unreadable. |
| `NgonEmission.ClampAlpha` | PolygonNodes.java:112-115 | The clamped alpha is at most 255. It is the raw value when that is at most 255, and 255 otherwise. There is no lower clamp. |
| `NgonEmission.VertexOnCircle` | PolygonNodes.java:130-140 | Vertex `i` is the point (x + r cos a, y - r sin a), where r = size * 0.6 and a = Turn(i, n) * pi. The cosine term is added to x and the sine term is subtracted from y. For any cosine and sine with cos^2 + sin^2 = 1, the vertex therefore lies at distance exactly r from the node's (x, y). |
| `NgonEmission.NgonTurns` | PolygonNodes.java:130-139 | The first vertex angle is -pi/4 for an even count and 0 for an odd one. Consecutive angles differ by 2pi/n. Any two of the `n` angles are less than one full turn apart, so the angles are distinct. That distinct angles give distinct points relies on the real cosine and sine, which the model does not define, so it is not proved. |
| `NgonEmission.PolygonCommands` | PolygonNodes.java:120-142 | The call sequence is: stroke with the border colour and clamped alpha plus stroke weight iff the border width is positive, otherwise noStroke; then one fill with the item's colour and the same alpha; then one beginShape; exactly max(numSides, 0) vertex calls in index order, all strictly between beginShape and the one endShape(CLOSE), which comes last. |
| `NgonEmission.RenderProcessing` | PolygonNodes.java:104-143 | The surface's trace grows by exactly `PolygonCommands` for the item, the properties and the side count. |
| `PolygonNodes.GetProperties` | PolygonNodes.java:156-169 | A new array one slot longer than the parent's. Its first entries equal the parent's, in order. Its last entry is the Boolean "PolygonNodes.property.enable" property in the nodes category, set to true. |

## Left out

- The global lookup of the graph model (`Lookup.getDefault()...getModel()`): the nodes are a parameter of `Render`, in the graph's iteration order.
- `getDisplayName`, the NbBundle localisation and the `@ServiceProvider` registration: host glue. The enable property keeps its display-name and description bundle keys in place of the localised text. Its owner (`this`) is not recorded.
- `isRendererForitem` (a type check on the item) and `preProcess` (empty): no behaviour to state.
- What the default renderer (`super.render`) draws: it is outside this file. `Render` returns `DefaultRenderer` in its place and states that it did not touch the surface itself.
- `RenderSVG` and `RenderPDF` have empty bodies and no contract. They take no target document, since they write nothing.
- Floating point: `Math.cos`, `Math.sin`, the double value of pi and the `(float)` casts of the vertex coordinates are kept symbolic (`Coord`, `Turn`). The opacity arithmetic `(int)((opacity / 100) * 255)` is not modelled: the raw alpha is a given integer. The item's `x`, `y`, `size` and the border width are `real`s rather than Java `float`s, so NaN and infinity do not arise. For example, a NaN border width fails `borderSize > 0` and gives noStroke, and the model has no such value.
- `DependantColor`'s derivation of the border colour from the node colour: the resolved border colour is given. Colours are opaque RGB triples.
- Reads of the item's position, size and colour, and of the border width and opacity properties, happen outside the `try` and could fail. They are modelled as always present.
- "Polygon" values are unbounded integers rather than 32-bit Java `Integer`s. The only arithmetic on them is the vertex loop and the angle, so no wrap-around arises.
- Processing's rasterisation and the rest of `PGraphics`'s state: the surface is only the sequence of calls made on it.
