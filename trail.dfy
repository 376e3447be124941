/**
 * `js/effects/TrailRibbon.js`: the ribbon a drone draws behind it. It
 * keeps the last `maxPoints` positions, newest first, and lays them out in
 * a fixed vertex buffer as a strip of two vertices per node, narrowing
 * towards the tail; unused slots collapse onto the oldest node.
 */
module Trail {
  import opened Vectors
  import opened Three

  /** `maxPoints`: the nodes kept and the vertex pairs in the buffer. */
  const MaxPoints: nat := 20

  /** `width`: half the ribbon's width at its head. */
  const Width: real := 0.4

  /**
   * An entry of `history`: a position and the unit "wing" across the
   * heading there. The source stores the wing already scaled by `width`;
   * here the factor is applied where the vertices are placed.
   */
  datatype Node = Node(pos: Vec3, right: Vec3)

  // ---------------------------------------------------------------------
  // Index buffer
  // ---------------------------------------------------------------------

  /** The two triangles `(2i, 2i+1, 2i+2)` and `(2i+1, 2i+3, 2i+2)` between node `i` and node `i + 1`. */
  function Quad(i: nat): (q: seq<nat>)
    ensures |q| == 6
  {
    var base := i * 2;
    [base, base + 1, base + 2, base + 1, base + 3, base + 2]
  }

  /** Every index of quad `i` names a vertex of node `i` or node `i + 1`. */
  lemma QuadVertices(i: nat)
    ensures forall k :: 0 <= k < 6 ==> 2 * i <= Quad(i)[k] <= 2 * i + 3
    ensures {Quad(i)[0], Quad(i)[1], Quad(i)[2]} == {2 * i, 2 * i + 1, 2 * i + 2}
    ensures {Quad(i)[3], Quad(i)[4], Quad(i)[5]} == {2 * i + 1, 2 * i + 2, 2 * i + 3}
  {
  }

  /**
   * The index loop of the constructor: `6 (maxPoints - 1)` entries, quad
   * after quad, every one naming one of the `2 maxPoints` vertices.
   */
  method StripIndices() returns (indices: seq<nat>)
    ensures |indices| == 6 * (MaxPoints - 1)
    ensures forall k :: 0 <= k < |indices| ==> indices[k] == Quad(k / 6)[k % 6]
    ensures forall k :: 0 <= k < |indices| ==> indices[k] < 2 * MaxPoints
  {
    indices := [];
    for i := 0 to MaxPoints - 1
      invariant |indices| == 6 * i
      invariant forall k :: 0 <= k < |indices| ==> indices[k] == Quad(k / 6)[k % 6]
      invariant forall k :: 0 <= k < |indices| ==> indices[k] < 2 * i + 2
    {
      var base := i * 2;
      indices := indices + [base, base + 1, base + 2];
      indices := indices + [base + 1, base + 3, base + 2];
    }
  }

  // ---------------------------------------------------------------------
  // Vertex layout
  // ---------------------------------------------------------------------

  /** `1 - i / length`: node `i`'s share of the full width. */
  function Taper(i: nat, len: nat): real
    requires i < len
  {
    1.0 - (i as real) / (len as real)
  }

  /** The taper is 1 at the head, shrinks strictly towards the tail, and stays positive. */
  lemma TaperSpec(i: nat, j: nat, len: nat)
    requires i < j < len
    ensures Taper(0, len) == 1.0
    ensures 0.0 < Taper(j, len) < Taper(i, len) <= 1.0
  {
    var n := len as real;
    DivideBack(i as real, n);
    DivideBack(j as real, n);
    var qi := (i as real) / n;
    var qj := (j as real) / n;
    var gap := qj - qi;
    var rest := 1.0 - qj;
    assert gap * n == qj * n - qi * n;
    assert gap * n == (j as real) - (i as real);
    FactorPositive(gap, n);
    assert rest * n == n - qj * n;
    assert rest * n == n - (j as real);
    FactorPositive(rest, n);
    FactorNonNegative(qi, n);
  }

  /** `pos - right·width·taper`: the node's left vertex. */
  function LeftVertex(n: Node, taper: real): Vec3 {
    Sub(n.pos, Scale(n.right, Width * taper))
  }

  /** `pos + right·width·taper`: the node's right vertex. */
  function RightVertex(n: Node, taper: real): Vec3 {
    Add(n.pos, Scale(n.right, Width * taper))
  }

  /** The ribbon is centred on the path: a node's two vertices straddle its position. */
  lemma VerticesStraddle(n: Node, taper: real)
    ensures Midpoint(LeftVertex(n, taper), RightVertex(n, taper)) == n.pos
  {
  }

  /** Vertex `v` of a buffer of coordinates. */
  function VertexAt(a: array<real>, v: nat): Vec3
    reads a
    requires 3 * v + 2 < a.Length
  {
    Vec3(a[3 * v], a[3 * v + 1], a[3 * v + 2])
  }

  /** Writes the two vertices of slot `v`, coordinates `6v .. 6v + 5`, and nothing else. */
  method SetPair(a: array<real>, v: nat, left: Vec3, right: Vec3)
    requires 6 * v + 5 < a.Length
    modifies a
    ensures VertexAt(a, 2 * v) == left && VertexAt(a, 2 * v + 1) == right
    ensures forall k :: 0 <= k < a.Length && (k < 6 * v || 6 * v + 6 <= k) ==> a[k] == old(a[k])
  {
    var idx := v * 6;
    a[idx] := left.x;
    a[idx + 1] := left.y;
    a[idx + 2] := left.z;
    a[idx + 3] := right.x;
    a[idx + 4] := right.y;
    a[idx + 5] := right.z;
  }

  /**
   * The vertex loops of `update`: node `i` of `history` (length `len >= 2`)
   * fills slot `i` with its left and right vertex at taper `1 - i / len`,
   * and every slot past the history holds the oldest position twice.
   */
  method LayOut(a: array<real>, history: seq<Node>)
    requires a.Length == 6 * MaxPoints && 2 <= |history| <= MaxPoints
    modifies a
    ensures forall i :: 0 <= i < |history| ==>
      VertexAt(a, 2 * i) == LeftVertex(history[i], Taper(i, |history|))
      && VertexAt(a, 2 * i + 1) == RightVertex(history[i], Taper(i, |history|))
    ensures forall i :: |history| <= i < MaxPoints ==>
      VertexAt(a, 2 * i) == history[|history| - 1].pos
      && VertexAt(a, 2 * i + 1) == history[|history| - 1].pos
  {
    var len := |history|;
    for i := 0 to len
      invariant forall j :: 0 <= j < i ==>
        VertexAt(a, 2 * j) == LeftVertex(history[j], Taper(j, len))
        && VertexAt(a, 2 * j + 1) == RightVertex(history[j], Taper(j, len))
    {
      var node := history[i];
      var life := 1.0 - (i as real) / (len as real);
      var pLeft := Sub(node.pos, Scale(node.right, Width * life));
      var pRight := Add(node.pos, Scale(node.right, Width * life));
      SetPair(a, i, pLeft, pRight);
    }
    var lastNode := history[len - 1];
    for i := len to MaxPoints
      invariant forall j :: 0 <= j < len ==>
        VertexAt(a, 2 * j) == LeftVertex(history[j], Taper(j, len))
        && VertexAt(a, 2 * j + 1) == RightVertex(history[j], Taper(j, len))
      invariant forall j :: len <= j < i ==>
        VertexAt(a, 2 * j) == lastNode.pos && VertexAt(a, 2 * j + 1) == lastNode.pos
    {
      SetPair(a, i, lastNode.pos, lastNode.pos);
    }
  }

  /** The wing vector of a heading: horizontal, across the heading, or `+x` when the heading is vertical. */
  function RightOf(direction: Vec3, lib: Library): Vec3 {
    var right := lib.normalize(Cross(direction, Vec3(0.0, 1.0, 0.0)));
    if LengthSq(right) < 0.1 then Vec3(1.0, 0.0, 0.0) else right
  }

  /** The ribbon never degenerates to a line: the wing always has length at least `sqrt(0.1)`. */
  lemma WingNonDegenerate(direction: Vec3, lib: Library)
    ensures LengthSq(RightOf(direction, lib)) >= 0.1
  {
  }

  /** `history` after `unshift` of `node` and, past `maxPoints`, `pop`. */
  function Pushed(history: seq<Node>, node: Node): (h: seq<Node>)
    requires |history| <= MaxPoints
    ensures 1 <= |h| <= MaxPoints && h[0] == node
  {
    var h := [node] + history;
    if |h| > MaxPoints then h[..|h| - 1] else h
  }

  /** The newest node comes first, the rest keep their order, and only the oldest can drop out. */
  lemma PushedSpec(history: seq<Node>, node: Node)
    requires |history| <= MaxPoints
    ensures |Pushed(history, node)| == if |history| < MaxPoints then |history| + 1 else MaxPoints
    ensures forall i :: 1 <= i < |Pushed(history, node)| ==> Pushed(history, node)[i] == history[i - 1]
  {
  }

  // ---------------------------------------------------------------------
  // The TrailRibbon object
  // ---------------------------------------------------------------------

  class TrailRibbon {
    var history: seq<Node>
    /** The index buffer, set once. */
    const indices: seq<nat>
    /** The position buffer: three coordinates for each of `2 maxPoints` vertices. */
    const positions: array<real>
    var visible: bool
    /** The count of `setDrawRange(0, count)`. */
    var drawCount: int
    var opacity: real

    ghost predicate Valid()
      reads this
    {
      positions.Length == 6 * MaxPoints && |history| <= MaxPoints
      && |indices| == 6 * (MaxPoints - 1)
      && (forall k :: 0 <= k < |indices| ==> indices[k] < 2 * MaxPoints)
      && 0 <= drawCount <= |indices|
    }

    /**
     * `new TrailRibbon(color)`: no history, the strip indices, a zeroed
     * buffer of `maxPoints·2·3` numbers, nothing drawn, and a hidden mesh.
     */
    constructor ()
      ensures Valid() && fresh(positions)
      ensures history == [] && !visible && opacity == 0.6 && drawCount == 0
      ensures forall k :: 0 <= k < |indices| ==> indices[k] == Quad(k / 6)[k % 6]
      ensures forall k :: 0 <= k < positions.Length ==> positions[k] == 0.0
    {
      var strip := StripIndices();
      history := [];
      indices := strip;
      positions := new real[6 * MaxPoints](_ => 0.0);
      visible := false;
      drawCount := 0;
      opacity := 0.6;
    }

    /**
     * `update(position, direction)` with `CONFIG.isNight`: records the new
     * node; once two nodes are known, shows the mesh, lays every node out
     * with its tapered width, collapses the unused slots onto the oldest
     * node, draws `6 (length - 1)` indices and sets the night or day opacity.
     */
    method Update(position: Vec3, direction: Vec3, isNight: bool, lib: Library)
      requires Valid()
      modifies this, positions
      ensures Valid()
      ensures history == Pushed(old(history), Node(position, RightOf(direction, lib)))
      ensures |history| < 2 ==>
        visible == old(visible) && drawCount == old(drawCount) && opacity == old(opacity)
        && positions[..] == old(positions[..])
      ensures |history| >= 2 ==> Drawn(isNight)
    {
      var node := Node(position, RightOf(direction, lib));
      history := Pushed(history, node);
      Redraw(isNight);
    }

    /** The vertex buffer, draw range and opacity once two or more nodes are known. */
    ghost predicate Drawn(isNight: bool)
      reads this, positions
      requires Valid()
    {
      visible && drawCount == 6 * (|history| - 1) && opacity == (if isNight then 0.8 else 0.4)
      && (forall i :: 0 <= i < |history| ==>
            VertexAt(positions, 2 * i) == LeftVertex(history[i], Taper(i, |history|))
            && VertexAt(positions, 2 * i + 1) == RightVertex(history[i], Taper(i, |history|)))
      && (forall i :: |history| <= i < MaxPoints ==>
            VertexAt(positions, 2 * i) == history[|history| - 1].pos
            && VertexAt(positions, 2 * i + 1) == history[|history| - 1].pos)
    }

    /** The part of `update` after the history changes. */
    method Redraw(isNight: bool)
      requires Valid()
      modifies this, positions
      ensures Valid() && history == old(history)
      ensures |history| < 2 ==>
        visible == old(visible) && drawCount == old(drawCount) && opacity == old(opacity)
        && positions[..] == old(positions[..])
      ensures |history| >= 2 ==> Drawn(isNight)
    {
      if |history| < 2 {
        return;
      }
      visible := true;
      var len := |history|;
      LayOut(positions, history);
      drawCount := (len - 1) * 6;
      if isNight {
        opacity := 0.8;
      } else {
        opacity := 0.4;
      }
    }
  }
}
