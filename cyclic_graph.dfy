/**
 * The cyclic-shift Cayley graph built by the three.js page: one vertex per
 * element of `elements = [0, .., n-1]`, and for every element `e` one line
 * from the vertex of `e` to the vertex of `(e + generator) % n`.
 *
 * A vertex stands for the sphere mesh created for an element; its position
 * (a point on the unit circle) is floating point and is not modelled, so a
 * vertex records only the element it was created for. A line records the two
 * vertices whose positions it joins. The scene groups `verticesGroup` and
 * `edgesGroup` receive exactly these vertices and lines, in this order, so
 * each is modelled by the sequence of its children.
 */
module CyclicGraph {
  import Modular

  datatype Vertex = Vertex(element: nat)

  datatype Line = Line(from: Vertex, to: Vertex)

  /** The constants the page is written with. */
  const PageElements: seq<nat> := [0, 1, 2, 3]
  const PageGenerator: nat := 1

  /** The element an edge from `element` leads to; always a valid index into the vertices. */
  function TargetElement(element: nat, generator: nat, n: nat): (t: nat)
    requires n > 0
    ensures t < n
  {
    (element + generator) % n
  }

  /**
   * `elements.map`: one vertex per element, in element order. The same
   * vertices, in the same order, are added to the vertices group.
   */
  method CreateVertices(elements: seq<nat>) returns (vertices: seq<Vertex>)
    ensures |vertices| == |elements|
    ensures forall i :: 0 <= i < |elements| ==> vertices[i] == Vertex(elements[i])
  {
    vertices := [];
    for i := 0 to |elements|
      invariant |vertices| == i
      invariant forall k :: 0 <= k < i ==> vertices[k] == Vertex(elements[k])
    {
      vertices := vertices + [Vertex(elements[i])];
    }
  }

  /**
   * `elements.forEach`: for each element, in order, one line from
   * `vertices[element]` to `vertices[(element + generator) % elements.length]`,
   * appended to the edges group. The source builds `vertices` with one entry
   * per element, and needs every element to be an index into `vertices`
   * (otherwise `vertices[element]` is undefined).
   */
  method CreateEdges(elements: seq<nat>, vertices: seq<Vertex>, generator: nat) returns (lines: seq<Line>)
    requires |vertices| == |elements|
    requires forall i :: 0 <= i < |elements| ==> elements[i] < |vertices|
    ensures |lines| == |elements|
    ensures forall i :: 0 <= i < |elements| ==>
              lines[i] == Line(vertices[elements[i]], vertices[TargetElement(elements[i], generator, |elements|)])
  {
    lines := [];
    var n := |elements|;
    for i := 0 to n
      invariant |lines| == i
      invariant forall k :: 0 <= k < i ==>
                  lines[k] == Line(vertices[elements[k]], vertices[TargetElement(elements[k], generator, n)])
    {
      var element := elements[i];
      var targetElement := TargetElement(element, generator, n);
      lines := lines + [Line(vertices[element], vertices[targetElement])];
    }
  }

  /** The lines the page draws for `n` elements and the given generator, in emission order. */
  ghost function ExpectedLines(n: nat, generator: nat): seq<Line>
  {
    seq(n, i requires 0 <= i < n => Line(Vertex(i), Vertex(TargetElement(i, generator, n))))
  }

  /**
   * The page's construction for elements `[0, .., n-1]`: `vertices[e]` is the
   * vertex of element `e`, and the i-th line goes from the vertex of `i` to
   * the vertex of `(i + generator) mod n`, one line per element.
   */
  method Build(n: nat, generator: nat) returns (vertices: seq<Vertex>, lines: seq<Line>)
    ensures |vertices| == n && forall e :: 0 <= e < n ==> vertices[e] == Vertex(e)
    ensures |lines| == n
    ensures forall i :: 0 <= i < n ==> lines[i] == Line(Vertex(i), Vertex((i + generator) % n))
    ensures lines == ExpectedLines(n, generator)
  {
    var elements: seq<nat> := seq(n, i requires 0 <= i < n => i);
    assert forall i :: 0 <= i < n ==> elements[i] == i;
    vertices := CreateVertices(elements);
    assert forall e :: 0 <= e < n ==> vertices[e] == Vertex(e);
    lines := CreateEdges(elements, vertices, generator);
    assert forall i :: 0 <= i < n ==> lines[i] == Line(Vertex(i), Vertex(TargetElement(i, generator, n)));
    assert forall i :: 0 <= i < n ==> lines[i] == ExpectedLines(n, generator)[i];
  }

  /**
   * The element whose line enters the vertex of `t`: the inverse of the
   * target map, subtracting the generator modulo n.
   */
  function SourceElement(t: nat, generator: nat, n: nat): (e: nat)
    requires n > 0
    ensures e < n
  {
    (t + n - generator % n) % n
  }

  /** The target element of `e` as one conditional subtraction of `generator % n`. */
  lemma TargetAsSubtraction(e: nat, generator: nat, n: nat)
    requires 0 <= e < n
    ensures TargetElement(e, generator, n)
         == if e + generator % n < n then e + generator % n else e + generator % n - n
  {
    Modular.ModAddReduce(e, generator, n);
    Modular.ModBelowTwice(e + generator % n, n);
  }

  /**
   * The target map `e |-> (e + generator) mod n` is a bijection of
   * `{0, .., n-1}`: SourceElement undoes it on both sides, so no two
   * elements share a target and every element is the target of one.
   */
  lemma ShiftIsBijection(n: nat, generator: nat, e: nat, t: nat)
    requires 0 <= e < n && 0 <= t < n
    ensures SourceElement(TargetElement(e, generator, n), generator, n) == e
    ensures TargetElement(SourceElement(t, generator, n), generator, n) == t
  {
    var r := generator % n;
    TargetAsSubtraction(e, generator, n);
    Modular.ModBelowTwice(TargetElement(e, generator, n) + n - r, n);
    Modular.ModBelowTwice(t + n - r, n);
    TargetAsSubtraction(SourceElement(t, generator, n), generator, n);
  }

  /** The line entering the vertex of `t` is the one drawn from SourceElement(t), and no other. */
  lemma EachVertexEnteredOnce(n: nat, generator: nat, t: nat)
    requires 0 <= t < n
    ensures forall i :: 0 <= i < n ==> (ExpectedLines(n, generator)[i].to == Vertex(t) <==> i == SourceElement(t, generator, n))
  {
    forall i | 0 <= i < n
      ensures ExpectedLines(n, generator)[i].to == Vertex(t) <==> i == SourceElement(t, generator, n)
    {
      ShiftIsBijection(n, generator, i, t);
    }
  }

  /** The element reached from `e` by following `k` lines. */
  function Walk(e: nat, generator: nat, n: nat, k: nat): (w: nat)
    requires n > 0
    ensures k > 0 ==> w < n
  {
    if k == 0 then e else TargetElement(Walk(e, generator, n, k - 1), generator, n)
  }

  /** Following `k` lines adds `k` generators, modulo n. */
  lemma {:induction false} WalkIsMultipleShift(e: nat, generator: nat, n: nat, k: nat)
    requires 0 <= e < n
    ensures Walk(e, generator, n, k) == (e + k * generator) % n
  {
    if k == 0 {
      assert k * generator == 0;
      Modular.ModBelowTwice(e, n);
    } else {
      WalkIsMultipleShift(e, generator, n, k - 1);
      var y := e + (k - 1) * generator;
      TargetOfResidue(y, generator, n);
      Modular.MulStep(k, generator);
    }
  }

  /** Stepping from the residue of y is stepping from y itself. */
  lemma TargetOfResidue(y: nat, generator: nat, n: nat)
    requires n > 0
    ensures TargetElement(y % n, generator, n) == (y + generator) % n
  {
    Modular.ModAddReduce(generator, y, n);
  }

  /**
   * Following the generator `k` times returns to the start exactly when
   * `k * generator` is a multiple of n, and always after n steps.
   */
  lemma WalkReturns(e: nat, generator: nat, n: nat, k: nat)
    requires 0 <= e < n
    ensures Walk(e, generator, n, k) == e <==> (k * generator) % n == 0
    ensures Walk(e, generator, n, n) == e
  {
    WalkIsMultipleShift(e, generator, n, k);
    Modular.ModAddReduce(e, k * generator, n);
    var r := (k * generator) % n;
    Modular.ModBelowTwice(e + r, n);
    WalkIsMultipleShift(e, generator, n, n);
    Modular.ModAddMultiple(e, generator, n);
    Modular.ModBelowTwice(e, n);
  }

  /**
   * With the page's constants (`elements = [0, 1, 2, 3]`, `generator = 1`)
   * the lines are exactly 0->1, 1->2, 2->3, 3->0, and they form a single
   * 4-cycle through every vertex.
   */
  lemma PageScenario()
    ensures PageElements == seq(4, i requires 0 <= i < 4 => i)
    ensures ExpectedLines(|PageElements|, PageGenerator)
         == [Line(Vertex(0), Vertex(1)), Line(Vertex(1), Vertex(2)), Line(Vertex(2), Vertex(3)), Line(Vertex(3), Vertex(0))]
    ensures forall k :: 0 < k < 4 ==> Walk(0, PageGenerator, 4, k) != 0
    ensures Walk(0, PageGenerator, 4, 4) == 0
  {
    assert TargetElement(3, 1, 4) == 0;
  }
}
