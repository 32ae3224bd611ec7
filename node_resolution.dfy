/**
 * The side-count scan of `render`: the graph's nodes are searched, in
 * iteration order, for the first node whose id is the item's source, whose
 * "Polygon" attribute is at least 3 and for which the enable property holds.
 */
module NodeResolution {
  import opened Wrappers
  import opened Preview

  /** The scan's "no polygon" result: the item goes to the default renderer. */
  const NO_POLYGON: int := -1

  /** The least side count drawn as a polygon. */
  const MIN_SIDES: int := 3

  /** The scan's test on one node, read as a plain proposition. */
  ghost predicate Matches(node: GraphNode, source: string, enable: Option<bool>) {
    && node.id == source
    && node.polygon.Some?
    && node.polygon.value >= MIN_SIDES
    && enable == Some(true)
  }

  /**
   * The scan's test on one node, evaluated left to right with short-circuit
   * `&&`: `Some(b)` when it evaluates to `b`, `None` when it throws (the
   * "Polygon" value, or the enable property once it is reached, cannot be read).
   */
  function Condition(node: GraphNode, source: string, enable: Option<bool>): (c: Option<bool>)
    ensures c == Some(true) <==> Matches(node, source, enable)
    ensures c.None? <==>
      node.id == source && (node.polygon.None? || (node.polygon.value >= MIN_SIDES && enable.None?))
  {
    if node.id != source then Some(false)
    else match node.polygon
      case None => None
      case Some(p) => if p >= MIN_SIDES then enable else Some(false)
  }

  /** The side count the scan settles on; a node whose test throws or fails is passed over. */
  function SidesFor(nodes: seq<GraphNode>, source: string, enable: Option<bool>): int
  {
    if nodes == [] then NO_POLYGON
    else if Condition(nodes[0], source, enable) == Some(true) then nodes[0].polygon.value
    else SidesFor(nodes[1..], source, enable)
  }

  /** The scan itself: a loop over the nodes that stops at the first match. */
  method ScanNodes(nodes: seq<GraphNode>, source: string, enable: Option<bool>) returns (renderAsNgon: int)
    ensures renderAsNgon == SidesFor(nodes, source, enable)
  {
    renderAsNgon := NO_POLYGON;
    var i := 0;
    while i < |nodes|
      invariant 0 <= i <= |nodes|
      invariant SidesFor(nodes[i..], source, enable) == SidesFor(nodes, source, enable)
    {
      if Condition(nodes[i], source, enable) == Some(true) {
        renderAsNgon := nodes[i].polygon.value;
        break;
      }
      i := i + 1;
    }
  }

  /** Node `k` is the first node in iteration order that passes the test. */
  ghost predicate FirstMatchAt(nodes: seq<GraphNode>, source: string, enable: Option<bool>, k: int) {
    && 0 <= k < |nodes|
    && Matches(nodes[k], source, enable)
    && forall j | 0 <= j < k :: !Matches(nodes[j], source, enable)
  }

  /** The scan yields `NO_POLYGON` or a count of at least three sides. */
  lemma {:induction false} SidesForRange(nodes: seq<GraphNode>, source: string, enable: Option<bool>)
    ensures SidesFor(nodes, source, enable) == NO_POLYGON || SidesFor(nodes, source, enable) >= MIN_SIDES
  {
    if nodes != [] {
      SidesForRange(nodes[1..], source, enable);
    }
  }

  /**
   * The scan yields `NO_POLYGON` exactly when no node passes the test, and
   * otherwise the "Polygon" value of the first node that does.
   */
  lemma {:induction false} SidesForIsFirstMatch(nodes: seq<GraphNode>, source: string, enable: Option<bool>)
    ensures SidesFor(nodes, source, enable) == NO_POLYGON <==>
      forall k | 0 <= k < |nodes| :: !Matches(nodes[k], source, enable)
    ensures SidesFor(nodes, source, enable) != NO_POLYGON ==>
      exists k :: FirstMatchAt(nodes, source, enable, k) && SidesFor(nodes, source, enable) == nodes[k].polygon.value
    ensures forall k | FirstMatchAt(nodes, source, enable, k) :: SidesFor(nodes, source, enable) == nodes[k].polygon.value
  {
    if nodes != [] {
      var tail := nodes[1..];
      SidesForIsFirstMatch(tail, source, enable);
      if Matches(nodes[0], source, enable) {
        assert FirstMatchAt(nodes, source, enable, 0);
      } else {
        forall k | FirstMatchAt(nodes, source, enable, k)
          ensures FirstMatchAt(tail, source, enable, k - 1)
        {
          assert k != 0;
          forall j | 0 <= j < k - 1
            ensures !Matches(tail[j], source, enable)
          {
            assert tail[j] == nodes[j + 1];
          }
        }
        if SidesFor(nodes, source, enable) != NO_POLYGON {
          var k :| FirstMatchAt(tail, source, enable, k) && SidesFor(tail, source, enable) == tail[k].polygon.value;
          assert FirstMatchAt(nodes, source, enable, k + 1) by {
            forall j | 0 <= j < k + 1
              ensures !Matches(nodes[j], source, enable)
            {
              if j > 0 {
                assert nodes[j] == tail[j - 1];
              }
            }
          }
        }
        if forall k | 0 <= k < |tail| :: !Matches(tail[k], source, enable) {
          forall k | 0 <= k < |nodes|
            ensures !Matches(nodes[k], source, enable)
          {
            if k > 0 {
              assert nodes[k] == tail[k - 1];
            }
          }
        } else {
          var k :| 0 <= k < |tail| && Matches(tail[k], source, enable);
          assert nodes[k + 1] == tail[k];
        }
      }
    }
  }

  /** With the enable property false or unreadable, every node sequence yields `NO_POLYGON`. */
  lemma {:induction false} DisabledYieldsNoPolygon(nodes: seq<GraphNode>, source: string, enable: Option<bool>)
    requires enable != Some(true)
    ensures SidesFor(nodes, source, enable) == NO_POLYGON
  {
    if nodes != [] {
      DisabledYieldsNoPolygon(nodes[1..], source, enable);
    }
  }

  /**
   * Nodes whose test fails or throws are passed over without ending the scan:
   * a later node still decides the result.
   */
  lemma {:induction false} NonMatchingPrefixSkipped(prefix: seq<GraphNode>, rest: seq<GraphNode>, source: string, enable: Option<bool>)
    requires forall k | 0 <= k < |prefix| :: Condition(prefix[k], source, enable) != Some(true)
    ensures SidesFor(prefix + rest, source, enable) == SidesFor(rest, source, enable)
  {
    if prefix != [] {
      assert (prefix + rest)[0] == prefix[0];
      assert (prefix + rest)[1..] == prefix[1..] + rest;
      NonMatchingPrefixSkipped(prefix[1..], rest, source, enable);
    } else {
      assert prefix + rest == rest;
    }
  }

  /** Once a node matches the scan stops: nodes after it do not change the result. */
  lemma {:induction false} EarlierMatchWins(prefix: seq<GraphNode>, rest: seq<GraphNode>, source: string, enable: Option<bool>)
    requires SidesFor(prefix, source, enable) != NO_POLYGON
    ensures SidesFor(prefix + rest, source, enable) == SidesFor(prefix, source, enable)
  {
    assert prefix != [];
    assert (prefix + rest)[0] == prefix[0];
    if Condition(prefix[0], source, enable) != Some(true) {
      assert (prefix + rest)[1..] == prefix[1..] + rest;
      EarlierMatchWins(prefix[1..], rest, source, enable);
    }
  }
}
