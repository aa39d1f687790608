// Depth-first search for dependency cycles inside one batch.
module CycleSearch {
  import opened Basics

  type Graph = map<string, seq<string>>

  predicate Edge(g: Graph, a: string, b: string) {
    a in g && b in g && b in g[a]
  }

  predicate Walk(g: Graph, p: seq<string>) {
    forall i :: 0 <= i < |p| - 1 ==> Edge(g, p[i], p[i + 1])
  }

  /** A path that ends where it began, self-loops included. */
  predicate ClosedWalk(g: Graph, p: seq<string>) {
    |p| >= 2 && p[0] == p[|p| - 1] && Walk(g, p)
  }

  ghost predicate Acyclic(g: Graph) {
    forall p :: !ClosedWalk(g, p)
  }

  /** Every node after all its dependencies. */
  ghost predicate Topological(g: Graph, order: seq<string>) {
    && Distinct(order)
    && forall i, d :: 0 <= i < |order| && Edge(g, order[i], d) ==> d in order[..i]
  }

  lemma {:induction false} WalkDescends(g: Graph, order: seq<string>, p: seq<string>, i: nat)
    requires Topological(g, order) && Walk(g, p) && |p| >= 2 && i < |order| && order[i] == p[0]
    ensures p[|p| - 1] in order[..i]
    decreases |p|
  {
    assert Edge(g, p[0], p[1]);
    var k :| 0 <= k < i && order[k] == p[1];
    if |p| > 2 {
      assert forall n :: 0 <= n < |p| - 2 ==> Edge(g, p[1..][n], p[1..][n + 1]) by {
        forall n | 0 <= n < |p| - 2
          ensures Edge(g, p[1..][n], p[1..][n + 1])
        {
          assert Edge(g, p[n + 1], p[n + 2]);
        }
      }
      WalkDescends(g, order, p[1..], k);
    }
  }

  /** A topological order of all nodes rules cycles out. */
  lemma OrderedIsAcyclic(g: Graph, order: seq<string>)
    requires Topological(g, order) && forall n :: n in g ==> n in order
    ensures Acyclic(g)
  {
    forall p | |p| >= 2 && Walk(g, p)
      ensures p[0] != p[|p| - 1]
    {
      assert Edge(g, p[0], p[1]);
      var i :| 0 <= i < |order| && order[i] == p[0];
      WalkDescends(g, order, p, i);
    }
  }

  /** `f` takes every edge of `g` to an edge of `o`. */
  ghost predicate Carries(g: Graph, o: Graph, f: map<string, string>) {
    forall a, b :: Edge(g, a, b) ==> a in f && b in f && Edge(o, f[a], f[b])
  }

  lemma CyclesCarryBack(g: Graph, o: Graph, f: map<string, string>)
    requires Carries(g, o, f) && Acyclic(o)
    ensures Acyclic(g)
  {
    forall p | |p| >= 2 && Walk(g, p)
      ensures p[0] != p[|p| - 1]
    {
      forall n | 0 <= n < |p|
        ensures p[n] in f
      {
        assert if n < |p| - 1 then Edge(g, p[n], p[n + 1]) else Edge(g, p[n - 1], p[n]);
      }
      var q := seq(|p|, n requires 0 <= n < |p| => f[p[n]]);
      assert Walk(o, q) by {
        forall n | 0 <= n < |q| - 1
          ensures Edge(o, q[n], q[n + 1])
        {
          assert Edge(g, p[n], p[n + 1]);
        }
      }
      assert !ClosedWalk(o, q);
    }
  }

  class CycleSearch {
    const graph: Graph
    var visited: set<string>
    var stack: seq<string>
    var onStack: set<string>
    var errors: seq<seq<string>>
    ghost var finished: seq<string>

    constructor (g: Graph)
      ensures graph == g && Valid() && visited == {} && stack == [] && errors == [] && finished == []
    {
      graph, visited, stack, onStack, errors, finished := g, {}, [], {}, [], [];
    }

    /** The search's bookkeeping: `onStack` is the stack's elements, the stack is a walk, every
        reported path is a cycle, and without a report the finished nodes are in topological order. */
    ghost predicate Valid()
      reads this
    {
      && onStack == (set n | n in stack)
      && Distinct(stack) && Walk(graph, stack)
      && Distinct(finished)
      && (forall n :: n in visited <==> n in stack || n in finished)
      && (forall n :: n in stack ==> n !in finished)
      && (forall n :: n in visited ==> n in graph)
      && (forall p :: p in errors ==> ClosedWalk(graph, p))
      && (errors == [] ==> Topological(graph, finished))
    }

    method Visit(node: string)
      requires Valid() && node in graph && node !in visited
      requires stack != [] ==> Edge(graph, stack[|stack| - 1], node)
      modifies this
      ensures Valid() && stack == old(stack)
      ensures old(visited) < visited && node in visited
      ensures old(errors) <= errors
      decreases graph.Keys - visited
    {
      visited := visited + {node};
      stack := stack + [node];
      onStack := onStack + {node};
      assert Valid() by {
        assert forall i :: 0 <= i < |stack| - 1 ==> Edge(graph, stack[i], stack[i + 1]);
      }
      label Entered:
      for i := 0 to |graph[node]|
        invariant Valid() && stack == old(stack) + [node]
        invariant old@Entered(visited) <= visited
        invariant old(errors) <= errors
        invariant errors == [] ==> forall k :: 0 <= k < i && graph[node][k] in graph ==> graph[node][k] in finished
      {
        var dep := graph[node][i];
        if dep in graph {
          if dep in onStack {
            ReportCycle(node, dep);
          } else if dep !in visited {
            Visit(dep);
          }
        }
      }
      Leave(node);
    }

    method ReportCycle(node: string, dep: string)
      requires Valid() && stack != [] && stack[|stack| - 1] == node && Edge(graph, node, dep) && dep in onStack
      modifies `errors
      ensures Valid() && errors != [] && old(errors) <= errors
    {
      var start := IndexOf(stack, dep);
      var cycle := stack[start..] + [dep];
      assert forall i :: 0 <= i < |cycle| - 1 ==> Edge(graph, cycle[i], cycle[i + 1]);
      errors := errors + [cycle];
    }

    method Leave(node: string)
      requires Valid() && stack != [] && stack[|stack| - 1] == node
      requires errors == [] ==> forall d :: Edge(graph, node, d) ==> d in finished
      modifies `stack, `onStack, `finished
      ensures Valid() && stack == old(stack)[..|old(stack)| - 1]
    {
      assert stack == stack[..|stack| - 1] + [node];
      assert node in stack && node !in finished;
      stack := stack[..|stack| - 1];
      onStack := onStack - {node};
      finished := finished + [node];
      assert errors == [] ==> Topological(graph, finished) by {
        if errors == [] {
          forall i, d | 0 <= i < |finished| && Edge(graph, finished[i], d)
            ensures d in finished[..i]
          {
            if i < |finished| - 1 {
              assert finished[..|finished| - 1][..i] == finished[..i];
            }
          }
        }
      }
    }
  }

  function IndexOf(s: seq<string>, x: string): (i: nat)
    requires x in s
    ensures i < |s| && s[i] == x
  {
    if s[0] == x then 0 else 1 + IndexOf(s[1..], x)
  }

  /** `_derived_cycle_errors`: silent exactly on acyclic batches, and every report is a real cycle. */
  method DerivedCycleErrors(localIds: seq<string>, graph: Graph) returns (errors: seq<seq<string>>)
    requires forall n :: n in graph <==> n in localIds
    ensures errors == [] <==> Acyclic(graph)
    ensures forall p :: p in errors ==> ClosedWalk(graph, p)
  {
    var search := new CycleSearch(graph);
    for i := 0 to |localIds|
      invariant search.Valid() && search.stack == [] && search.graph == graph
      invariant forall k :: 0 <= k < i ==> localIds[k] in search.visited
    {
      if localIds[i] !in search.visited {
        search.Visit(localIds[i]);
      }
    }
    errors := search.errors;
    if errors == [] {
      OrderedIsAcyclic(graph, search.finished);
    } else {
      assert ClosedWalk(graph, errors[0]);
    }
  }
}
