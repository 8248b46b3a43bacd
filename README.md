# Cayley graph builders, modelled in Dafny

The repository draws Cayley graphs: vertices are group elements, and an edge
joins each element to its composition with a generator. It holds two edge
builders, and this project models both.

- **Cyclic-shift builder** (`my-vue-app/main.js`, module `CyclicGraph` in
  `cyclic_graph.dfy`). The elements are the indices `0, .., n-1`, and one
  vertex is created per element, in order. Each element `e` gets one line
  from `vertices[e]` to `vertices[(e + generator) % n]`, drawn in element
  order. The page hard-codes `elements = [0, 1, 2, 3]` and `generator = 1`.
  The model works for any `n` and any non-negative generator, and proves the
  page's own constants as a scenario. A vertex records the element it was
  created for, and a line records the two vertices it joins. The three.js
  groups `verticesGroup` and `edgesGroup` receive exactly these vertices and
  lines, in the same order, so each group is modelled by the sequence
  returned by the loop that fills it.
- **Generic Cayley digraph builder** (`visaualise.py`, module `CayleyDigraph`
  in `cayley_digraph.dfy`). `visualize_cayley_graph` creates a networkx
  `DiGraph` and adds every group element as a node. Then, for every element
  `e` and generator `g`, it adds the edge `(e, e * g)`. Products are not
  reduced into the group, so a product outside it becomes an extra node.
  `DiGraph` is a class with a node set and an edge set. `add_nodes_from` and
  `add_edge` are methods that update these sets in place. The nested loop is
  a method whose invariants track the nodes and edges added so far. Its
  result is characterised by the reference sets `CayleyNodes` and
  `CayleyEdges`.

`modular.dfy` (module `Modular`) holds facts about the remainder operator
that the cyclic-shift proofs use. For the non-negative operands the page
uses, JavaScript's `%` and Dafny's `%` agree.

The page has no layers, offsets or error for an empty element list. With
`n = 0` it builds no vertices and no lines, because the `forEach` body never
runs. The page's line sequence keeps duplicate lines. The Python builder
stores edges in a `DiGraph`, which keeps each pair once.

## Model

| member | source | states |
|---|---|---|
| CyclicGraph.TargetElement | my-vue-app/main.js:41-42 | the target `(element + generator) % elements.length` always lies in `[0, n)`, so `vertices[targetElement]` is always in bounds |
| CyclicGraph.CreateVertices | my-vue-app/main.js:29-34 | `elements.map` creates exactly one vertex per element, in element order: the i-th vertex belongs to the i-th element |
| CyclicGraph.CreateEdges | my-vue-app/main.js:40-45 | `elements.forEach` emits exactly one line per element, in element order; the i-th line joins `vertices[elements[i]]` to `vertices[(elements[i] + generator) % n]`; requires that `vertices` has one entry per element, as `elements.map` at line 29 guarantees, and that each element indexes `vertices`, as `vertices[element]` needs |
| CyclicGraph.Build | my-vue-app/main.js:22-45 | for elements `0..n-1`: `vertices[e]` is the vertex of element `e`; there are exactly `n` lines; the i-th goes from `i` to `(i + generator) mod n` |
| CyclicGraph.ShiftIsBijection | my-vue-app/main.js:41 | the target map `e -> (e + generator) mod n` is a bijection of `{0..n-1}`: subtracting the generator modulo n undoes it on both sides |
| CyclicGraph.EachVertexEnteredOnce | my-vue-app/main.js:40-41 | every vertex is the target of exactly one drawn line, namely the line from its inverse-shift element |
| CyclicGraph.WalkIsMultipleShift | my-vue-app/main.js:41 | following k lines from `e` reaches `(e + k * generator) mod n` |
| CyclicGraph.WalkReturns | my-vue-app/main.js:41 | following the generator k times returns to the start iff `k * generator` is a multiple of n, and always after n steps |
| CyclicGraph.PageScenario | my-vue-app/main.js:22-45 | with `elements = [0,1,2,3]` and `generator = 1` the lines are exactly 0->1, 1->2, 2->3, 3->0, a single 4-cycle |
| CayleyDigraph.DiGraph.constructor | visaualise.py:16 | `nx.DiGraph()` is the empty graph |
| CayleyDigraph.DiGraph.AddNodesFrom | visaualise.py:19 | `add_nodes_from` adds every item as a node and leaves edges alone |
| CayleyDigraph.DiGraph.AddEdge | visaualise.py:25 | `add_edge(u, v)` adds both endpoints and the pair; repeating an existing edge changes nothing; every edge's endpoints stay nodes |
| CayleyDigraph.VisualizeCayleyGraph | visaualise.py:4-27 | a fresh graph whose nodes are exactly `group` plus every product `e * g`, and whose edges are exactly the pairs `(e, e * g)` for `e` in `group` and `g` in `generators` |
| CayleyDigraph.CayleyEdgesExactly | visaualise.py:22-25 | `(u, v)` is an edge iff `u` is a group element and `v == u * g` for a generator `g`; so every edge starts in `group` and every pair `(e, e * g)` is present |
| CayleyDigraph.CayleyNodesExactly | visaualise.py:19-25 | a node is a group element or a product `e * g`; both endpoints of every edge are nodes |
| CayleyDigraph.DependsOnlyOnSets | visaualise.py:22-23 | the graph depends only on which elements and generators occur, not on their iteration order or repeats |
| CayleyDigraph.EdgeCountBound | visaualise.py:22-25 | the number of distinct edges is at most `len(group) * len(generators)` |
| CayleyDigraph.EmptyGenerators | visaualise.py:19-25 | with no generators the graph has exactly the group's nodes and no edges |
| CayleyDigraph.ExampleScenario | visaualise.py:46-49 | for group `{1..5}` and generators `{2, 4}`: exactly the 10 listed edges, and the 11 nodes `{1,2,3,4,5,6,8,10,12,16,20}` |

## Left out

- The three.js scene, camera, renderer, lights, orbit controls, resize listener and animation loop (`main.js` lines 1-19 and 47-79). They are rendering and I/O.
- Vertex positions from `Math.cos` and `Math.sin` (`main.js` line 31). They are floating point. A vertex records only its element, and a line records which two vertices it joins.
- Mesh, material, `BufferGeometry` and `Line` objects. They are foreign library objects, modelled as values. `THREE.Group.add` is modelled as appending to the group's child sequence. Re-parenting of an object that already has a parent is not modelled, because every object added here is fresh.
- CyclicGraph.CreateEdges: the generator is a `nat`, because the page uses the constant `1`. A negative generator would make JavaScript's truncating `%` return a negative index. `vertices[targetElement]` would then be `undefined`, and its `.position` would throw. That case is not modelled.
- JavaScript numbers are doubles. The model uses unbounded integers, which agree with the doubles for every index a page could hold.
- `plot_cayley_graph`, `spring_layout`, `nx.draw` and `plt.show` (`visaualise.py` lines 29-43). They are float layout and GUI output.
- Running the Python module as a script (`visaualise.py` lines 46-50). Only its values are used, in `ExampleScenario`.
- CayleyDigraph.VisualizeCayleyGraph: group elements and generators are integers, and `*` is integer multiplication. The Python code would accept any objects with a `*` operator. networkx's insertion order of nodes and edges is not modelled, because the graph is represented as two sets.
