/**
 * The Python Cayley digraph builder: a directed graph with every group
 * element as a node and, for every element `e` and generator `g`, the edge
 * `(e, e * g)`. Products are not reduced into the group, so a product that is
 * not a group element becomes an extra node.
 *
 * `group` and `generators` are the sequences the two loops iterate over;
 * the resulting graph depends only on their sets of elements.
 */
module CayleyDigraph {
  import Modular

  /** The elements of a sequence. */
  function Elems(s: seq<int>): set<int>
  {
    set x | x in s
  }

  /** The edge set the builder should produce: `{(e, e * g) | e in group, g in generators}`. */
  function CayleyEdges(group: seq<int>, generators: seq<int>): set<(int, int)>
  {
    set e, g | e in group && g in generators :: (e, e * g)
  }

  /** Every product `e * g` of an element with a generator. */
  function Products(group: seq<int>, generators: seq<int>): set<int>
  {
    set e, g | e in group && g in generators :: e * g
  }

  /** The edges from one element: `{(element, element * g) | g in generators}`. */
  function RowEdges(element: int, generators: seq<int>): set<(int, int)>
  {
    set g | g in generators :: (element, element * g)
  }

  /** The products of one element with every generator. */
  function RowProducts(element: int, generators: seq<int>): set<int>
  {
    set g | g in generators :: element * g
  }

  /** The node set the builder should produce: the group together with every product. */
  function CayleyNodes(group: seq<int>, generators: seq<int>): set<int>
  {
    Elems(group) + Products(group, generators)
  }

  /** A set-based directed graph: the part of a networkx DiGraph the builder uses. */
  class DiGraph {
    var nodes: set<int>
    var edges: set<(int, int)>

    /** Both endpoints of every edge are nodes. */
    ghost predicate Valid()
      reads this
    {
      forall p :: p in edges ==> p.0 in nodes && p.1 in nodes
    }

    /** `nx.DiGraph()`: the empty graph. */
    constructor ()
      ensures Valid()
      ensures nodes == {} && edges == {}
    {
      nodes := {};
      edges := {};
    }

    /** `add_nodes_from(items)`: adds each item as a node, in order; edges are untouched. */
    method AddNodesFrom(items: seq<int>)
      requires Valid()
      modifies this
      ensures Valid()
      ensures nodes == old(nodes) + Elems(items)
      ensures edges == old(edges)
    {
      for i := 0 to |items|
        invariant Valid()
        invariant nodes == old(nodes) + Elems(items[..i])
        invariant edges == old(edges)
      {
        assert items[..i + 1] == items[..i] + [items[i]];
        nodes := nodes + {items[i]};
      }
      assert items[..|items|] == items;
    }

    /**
     * `add_edge(u, v)`: adds both endpoints as nodes and the pair as an edge.
     * Adding an edge that is already present changes nothing.
     */
    method AddEdge(u: int, v: int)
      requires Valid()
      modifies this
      ensures Valid()
      ensures nodes == old(nodes) + {u, v}
      ensures edges == old(edges) + {(u, v)}
      ensures (u, v) in old(edges) ==> nodes == old(nodes) && edges == old(edges)
    {
      nodes := nodes + {u, v};
      edges := edges + {(u, v)};
    }
  }

  /**
   * `visualize_cayley_graph(group, generators)`: a fresh graph whose nodes
   * are exactly the group elements and their products with the generators,
   * and whose edges are exactly the pairs `(e, e * g)`.
   */
  method VisualizeCayleyGraph(group: seq<int>, generators: seq<int>) returns (cayleyGraph: DiGraph)
    ensures fresh(cayleyGraph) && cayleyGraph.Valid()
    ensures cayleyGraph.nodes == CayleyNodes(group, generators)
    ensures cayleyGraph.edges == CayleyEdges(group, generators)
  {
    cayleyGraph := new DiGraph();
    cayleyGraph.AddNodesFrom(group);
    for i := 0 to |group|
      invariant cayleyGraph.Valid()
      invariant cayleyGraph.nodes == Elems(group) + Products(group[..i], generators)
      invariant cayleyGraph.edges == CayleyEdges(group[..i], generators)
    {
      var element := group[i];
      ghost var nodesBefore, edgesBefore := cayleyGraph.nodes, cayleyGraph.edges;
      assert element in nodesBefore by { assert element in Elems(group); }
      for j := 0 to |generators|
        invariant cayleyGraph.Valid()
        invariant cayleyGraph.nodes == nodesBefore + RowProducts(element, generators[..j])
        invariant cayleyGraph.edges == edgesBefore + RowEdges(element, generators[..j])
      {
        var generator := generators[j];
        var product := element * generator;
        AppendGenerator(element, generators, j);
        cayleyGraph.AddEdge(element, product);
        assert cayleyGraph.nodes == nodesBefore + RowProducts(element, generators[..j]) + {product};
      }
      assert generators[..|generators|] == generators;
      AppendElement(group, i, generators);
    }
    assert group[..|group|] == group;
  }

  /** Taking one more generator adds exactly its edge and its product. */
  lemma AppendGenerator(element: int, generators: seq<int>, j: nat)
    requires j < |generators|
    ensures RowEdges(element, generators[..j + 1])
         == RowEdges(element, generators[..j]) + {(element, element * generators[j])}
    ensures RowProducts(element, generators[..j + 1])
         == RowProducts(element, generators[..j]) + {element * generators[j]}
  {
    var gs, gs' := generators[..j], generators[..j + 1];
    assert gs' == gs + [generators[j]];
    forall x | x in RowProducts(element, gs')
      ensures x in RowProducts(element, gs) + {element * generators[j]}
    {
      var g :| g in gs' && x == element * g;
      if g != generators[j] {
        assert g in gs;
      }
    }
    forall x | x in RowProducts(element, gs)
      ensures x in RowProducts(element, gs')
    {
      var g :| g in gs && x == element * g;
      assert g in gs';
    }
    assert element * generators[j] in RowProducts(element, gs') by {
      assert generators[j] in gs';
    }
  }

  /** Taking one more group element adds exactly its row of edges and products. */
  lemma AppendElement(group: seq<int>, i: nat, generators: seq<int>)
    requires i < |group|
    ensures CayleyEdges(group[..i + 1], generators) == CayleyEdges(group[..i], generators) + RowEdges(group[i], generators)
    ensures Products(group[..i + 1], generators) == Products(group[..i], generators) + RowProducts(group[i], generators)
  {
    var done, done' := group[..i], group[..i + 1];
    assert done' == done + [group[i]];
    forall x | x in Products(done', generators)
      ensures x in Products(done, generators) + RowProducts(group[i], generators)
    {
      var e, g :| e in done' && g in generators && x == e * g;
      if e == group[i] {
        assert x in RowProducts(group[i], generators);
      } else {
        assert e in done;
      }
    }
    forall x | x in Products(done, generators) + RowProducts(group[i], generators)
      ensures x in Products(done', generators)
    {
      if x in Products(done, generators) {
        var e, g :| e in done && g in generators && x == e * g;
        assert e in done';
      } else {
        var g :| g in generators && x == group[i] * g;
        assert group[i] in done';
      }
    }
  }

  /**
   * Exact characterisation of the edges: `(u, v)` is an edge exactly when
   * `u` is a group element and `v == u * g` for some generator `g`. In
   * particular every edge starts at a group element, and every pair
   * `(e, e * g)` is present.
   */
  lemma CayleyEdgesExactly(group: seq<int>, generators: seq<int>, u: int, v: int)
    ensures (u, v) in CayleyEdges(group, generators) <==> u in group && exists g :: g in generators && v == u * g
  {
  }

  /**
   * Exact characterisation of the nodes: a node is a group element or a
   * product of one with a generator. Both endpoints of every edge are nodes.
   */
  lemma CayleyNodesExactly(group: seq<int>, generators: seq<int>, x: int)
    ensures x in CayleyNodes(group, generators) <==> x in group || exists e, g :: e in group && g in generators && x == e * g
    ensures forall p :: p in CayleyEdges(group, generators) ==> p.0 in CayleyNodes(group, generators) && p.1 in CayleyNodes(group, generators)
  {
  }

  /** The graph depends only on which elements and generators occur, not on iteration order or repeats. */
  lemma DependsOnlyOnSets(group: seq<int>, group': seq<int>, generators: seq<int>, generators': seq<int>)
    requires Elems(group) == Elems(group') && Elems(generators) == Elems(generators')
    ensures CayleyEdges(group, generators) == CayleyEdges(group', generators')
    ensures CayleyNodes(group, generators) == CayleyNodes(group', generators')
  {
    assert forall x :: x in group <==> x in Elems(group);
    assert forall x :: x in group' <==> x in Elems(group');
    assert forall x :: x in generators <==> x in Elems(generators);
    assert forall x :: x in generators' <==> x in Elems(generators');
    forall x | x in Products(group, generators) ensures x in Products(group', generators') {
      var e, g :| e in group && g in generators && x == e * g;
      assert e in group' && g in generators';
    }
    forall x | x in Products(group', generators') ensures x in Products(group, generators) {
      var e, g :| e in group' && g in generators' && x == e * g;
      assert e in group && g in generators;
    }
  }

  /** The edges from one element number at most the generators. */
  lemma {:induction false} RowCountBound(element: int, generators: seq<int>)
    ensures |RowEdges(element, generators)| <= |generators|
  {
    if generators == [] {
      assert RowEdges(element, generators) == {};
    } else {
      var j := |generators| - 1;
      RowCountBound(element, generators[..j]);
      AppendGenerator(element, generators, j);
      assert generators[..j + 1] == generators;
    }
  }

  /**
   * A repeated `add_edge` does not duplicate an edge, so the number of
   * distinct edges is at most `|group| * |generators|`.
   */
  lemma {:induction false} EdgeCountBound(group: seq<int>, generators: seq<int>)
    ensures |CayleyEdges(group, generators)| <= |group| * |generators|
  {
    if group == [] {
      assert CayleyEdges(group, generators) == {};
    } else {
      var i := |group| - 1;
      var before, row := CayleyEdges(group[..i], generators), RowEdges(group[i], generators);
      EdgeCountBound(group[..i], generators);
      RowCountBound(group[i], generators);
      AppendElement(group, i, generators);
      assert group[..i + 1] == group;
      assert |before + row| <= |before| + |row|;
      Modular.MulStep(|group|, |generators|);
    }
  }

  /** With no generators the graph is the group's nodes and no edges. */
  lemma EmptyGenerators(group: seq<int>)
    ensures CayleyEdges(group, []) == {}
    ensures CayleyNodes(group, []) == Elems(group)
  {
  }

  /** The script's example group `{1, .., 5}` with generators `{2, 4}`. */
  const ExampleGroup: seq<int> := [1, 2, 3, 4, 5]
  const ExampleGenerators: seq<int> := [2, 4]

  /**
   * For the example, the graph has 10 edges and 11 nodes; the products 6, 8,
   * 10, 12, 16 and 20 lie outside the group.
   */
  lemma ExampleScenario()
    ensures CayleyEdges(ExampleGroup, ExampleGenerators)
         == {(1, 2), (1, 4), (2, 4), (2, 8), (3, 6), (3, 12), (4, 8), (4, 16), (5, 10), (5, 20)}
    ensures |CayleyEdges(ExampleGroup, ExampleGenerators)| == 10
    ensures CayleyNodes(ExampleGroup, ExampleGenerators) == {1, 2, 3, 4, 5, 6, 8, 10, 12, 16, 20}
    ensures |CayleyNodes(ExampleGroup, ExampleGenerators)| == 11
  {
    ExamplePrefix(5);
    assert ExampleGroup[..5] == ExampleGroup;
    ExampleRowsUnfolded();
    ExampleGroupElems();
    ExampleEdgeUnion();
    ExampleEdgeCount();
    ExampleNodeUnion();
    ExampleNodeCount();
  }

  /** The example graph on the first k group elements, assembled row by row. */
  lemma {:induction false} ExamplePrefix(k: nat)
    requires k <= 5
    ensures CayleyEdges(ExampleGroup[..k], ExampleGenerators) == ExampleEdgesUpTo(k)
    ensures Products(ExampleGroup[..k], ExampleGenerators) == ExampleProductsUpTo(k)
  {
    if k == 0 {
      assert ExampleGroup[..0] == [];
    } else {
      ExamplePrefix(k - 1);
      ExampleRow(k - 1);
    }
  }

  /** The example's edges from the elements 1, .., k. */
  function ExampleEdgesUpTo(k: nat): set<(int, int)>
  {
    if k == 0 then {} else ExampleEdgesUpTo(k - 1) + {(k, 2 * k), (k, 4 * k)}
  }

  /** The example's products of the elements 1, .., k. */
  function ExampleProductsUpTo(k: nat): set<int>
  {
    if k == 0 then {} else ExampleProductsUpTo(k - 1) + {2 * k, 4 * k}
  }

  lemma ExampleRowsUnfolded()
    ensures ExampleEdgesUpTo(5) == {(1, 2), (1, 4)} + {(2, 4), (2, 8)} + {(3, 6), (3, 12)} + {(4, 8), (4, 16)} + {(5, 10), (5, 20)}
    ensures ExampleProductsUpTo(5) == {2, 4} + {4, 8} + {6, 12} + {8, 16} + {10, 20}
  {
  }

  lemma ExampleGroupElems()
    ensures Elems(ExampleGroup) == {1, 2, 3, 4, 5}
  {
  }

  lemma ExampleEdgeUnion()
    ensures {(1, 2), (1, 4)} + {(2, 4), (2, 8)} + {(3, 6), (3, 12)} + {(4, 8), (4, 16)} + {(5, 10), (5, 20)}
         == {(1, 2), (1, 4), (2, 4), (2, 8), (3, 6), (3, 12), (4, 8), (4, 16), (5, 10), (5, 20)}
  {
  }

  lemma ExampleEdgeCount()
    ensures |{(1, 2), (1, 4), (2, 4), (2, 8), (3, 6), (3, 12), (4, 8), (4, 16), (5, 10), (5, 20)}| == 10
  {
  }

  lemma ExampleNodeUnion()
    ensures {1, 2, 3, 4, 5} + ({2, 4} + {4, 8} + {6, 12} + {8, 16} + {10, 20}) == {1, 2, 3, 4, 5, 6, 8, 10, 12, 16, 20}
  {
  }

  lemma ExampleNodeCount()
    ensures |{1, 2, 3, 4, 5, 6, 8, 10, 12, 16, 20}| == 11
  {
  }

  /** The example's row of element `i + 1`: its edges to `2 * (i + 1)` and `4 * (i + 1)`. */
  lemma ExampleRow(i: nat)
    requires i < 5
    ensures CayleyEdges(ExampleGroup[..i + 1], ExampleGenerators)
         == CayleyEdges(ExampleGroup[..i], ExampleGenerators) + {(i + 1, 2 * (i + 1)), (i + 1, 4 * (i + 1))}
    ensures Products(ExampleGroup[..i + 1], ExampleGenerators)
         == Products(ExampleGroup[..i], ExampleGenerators) + {2 * (i + 1), 4 * (i + 1)}
  {
    AppendElement(ExampleGroup, i, ExampleGenerators);
    TwoGenerators(ExampleGroup[i], 2, 4);
  }

  /** The row of one element under two generators. */
  lemma TwoGenerators(element: int, a: int, b: int)
    ensures RowEdges(element, [a, b]) == {(element, element * a), (element, element * b)}
    ensures RowProducts(element, [a, b]) == {element * a, element * b}
  {
    AppendGenerator(element, [a, b], 0);
    AppendGenerator(element, [a, b], 1);
    assert [a, b][..1] == [a];
    assert [a, b][..2] == [a, b];
    assert [a, b][..0] == [];
    assert RowEdges(element, []) == {} && RowProducts(element, []) == {};
  }
}
