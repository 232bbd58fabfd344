/**
 The dependency graph of the task store, and the depth-first search that
 rejects dependency cycles. A task id without a stored task is a leaf.
 */
module TaskGraph {

  type TaskId = string
  type Graph = map<TaskId, seq<TaskId>>

  datatype CycleVerdict = NoCycle | CycleAt(taskId: TaskId)

  function DependenciesOf(graph: Graph, id: TaskId): seq<TaskId> {
    if id in graph then graph[id] else []
  }

  predicate DependsOn(graph: Graph, id: TaskId, dependency: TaskId) {
    dependency in DependenciesOf(graph, id)
  }

  /** Every element of the walk depends directly on the element after it. */
  ghost predicate IsWalk(graph: Graph, walk: seq<TaskId>) {
    forall i, j :: 0 <= i && j == i + 1 < |walk| ==> DependsOn(graph, walk[i], walk[j])
  }

  ghost predicate IsCycle(graph: Graph, walk: seq<TaskId>) {
    2 <= |walk| && IsWalk(graph, walk) && walk[0] == walk[|walk| - 1]
  }

  ghost predicate Acyclic(graph: Graph) {
    forall walk :: !IsCycle(graph, walk)
  }

  /** `id` is needed, directly or through other tasks, before `from` can start. */
  ghost predicate DependsTransitively(graph: Graph, from: TaskId, id: TaskId) {
    exists walk :: 2 <= |walk| && IsWalk(graph, walk) && walk[0] == from && walk[|walk| - 1] == id
  }

  /** A finishing order: every dependency of an element stands before it. */
  ghost predicate TopologicalOrder(graph: Graph, order: seq<TaskId>) {
    && (forall i, j :: 0 <= i < j < |order| ==> order[i] != order[j])
    && (forall i, d :: 0 <= i < |order| && DependsOn(graph, order[i], d) ==> d in order[..i])
  }

  ghost function Position(order: seq<TaskId>, id: TaskId): (i: nat)
    requires id in order
    ensures i < |order| && order[i] == id
  {
    var i :| 0 <= i < |order| && order[i] == id;
    i
  }

  lemma DependencyStandsEarlier(graph: Graph, order: seq<TaskId>, id: TaskId, dependency: TaskId)
    requires TopologicalOrder(graph, order) && id in order
    requires DependsOn(graph, id, dependency)
    ensures dependency in order && Position(order, dependency) < Position(order, id)
  {
    var i := Position(order, id);
    assert dependency in order[..i];
    var j :| 0 <= j < i && order[j] == dependency;
    assert Position(order, dependency) == j;
  }

  lemma {:induction false} WalkDescends(graph: Graph, order: seq<TaskId>, walk: seq<TaskId>, n: nat)
    requires TopologicalOrder(graph, order) && IsWalk(graph, walk)
    requires n < |walk| && walk[0] in order
    ensures walk[n] in order && Position(order, walk[n]) + n <= Position(order, walk[0])
  {
    if n > 0 {
      WalkDescends(graph, order, walk, n - 1);
      assert DependsOn(graph, walk[n - 1], walk[n]);
      DependencyStandsEarlier(graph, order, walk[n - 1], walk[n]);
    }
  }

  lemma OrderedGraphIsAcyclic(graph: Graph, order: seq<TaskId>)
    requires TopologicalOrder(graph, order)
    requires forall id :: id in graph ==> id in order
    ensures Acyclic(graph)
  {
    forall walk | IsCycle(graph, walk)
      ensures false
    {
      assert DependsOn(graph, walk[0], walk[1]);
      assert walk[0] in graph;
      WalkDescends(graph, order, walk, |walk| - 1);
    }
  }

  lemma ClosingAPathMakesACycle(graph: Graph, path: seq<TaskId>, id: TaskId) returns (cycle: seq<TaskId>)
    requires IsWalk(graph, path) && path != [] && id in path
    requires DependsOn(graph, path[|path| - 1], id)
    ensures IsCycle(graph, cycle) && cycle[0] == id
  {
    var i := Position(path, id);
    cycle := path[i..] + [id];
    forall k, l | 0 <= k && l == k + 1 < |cycle|
      ensures DependsOn(graph, cycle[k], cycle[l])
    {
      assert cycle[k] == path[i + k];
      if l < |cycle| - 1 {
        assert cycle[l] == path[i + l];
      }
    }
  }

  /** The `visiting` and `visited` sets of one cycle check, with the recursion's
      stack (`path`) and the order in which visits finished. */
  class CycleSearch {
    const graph: Graph
    var visiting: set<TaskId>
    var visited: set<TaskId>
    ghost var path: seq<TaskId>
    ghost var order: seq<TaskId>

    ghost predicate Valid()
      reads this
    {
      && (forall id :: id in visiting <==> id in path)
      && (forall id :: id in visited <==> id in order)
      && visiting !! visited
      && (forall i, j :: 0 <= i < j < |path| ==> path[i] != path[j])
      && IsWalk(graph, path)
      && TopologicalOrder(graph, order)
    }

    constructor (graph: Graph)
      ensures Valid() && this.graph == graph && path == [] && order == []
    {
      this.graph := graph;
      visiting, visited, path, order := {}, {}, [], [];
    }

    /** Throwing is the verdict `CycleAt`; the search is abandoned then. */
    method Visit(taskId: TaskId) returns (verdict: CycleVerdict)
      requires Valid()
      requires path != [] ==> DependsOn(graph, path[|path| - 1], taskId)
      modifies this
      ensures verdict.NoCycle? ==> Valid() && path == old(path)
      ensures verdict.NoCycle? ==> taskId in visited && old(visited) <= visited
      ensures verdict.CycleAt? ==> exists walk :: IsCycle(graph, walk) && walk[0] == verdict.taskId
      decreases graph.Keys - visiting
    {
      if taskId in visiting {
        ghost var cycle := ClosingAPathMakesACycle(graph, path, taskId);
        return CycleAt(taskId);
      }
      if taskId in visited {
        return NoCycle;
      }
      visiting := visiting + {taskId};
      path := path + [taskId];
      var dependencies := DependenciesOf(graph, taskId);
      for i := 0 to |dependencies|
        invariant Valid() && path == old(path) + [taskId] && old(visited) <= visited
        invariant forall k :: 0 <= k < i ==> dependencies[k] in visited
      {
        assert DependsOn(graph, taskId, dependencies[i]);
        assert taskId in graph.Keys - old(visiting);
        verdict := Visit(dependencies[i]);
        if verdict.CycleAt? {
          return;
        }
      }
      Leave(taskId);
      assert path == old(path);
      return NoCycle;
    }

    /** A visit is finished: everything the task depends on was visited before. */
    method Leave(taskId: TaskId)
      requires Valid() && path != [] && path[|path| - 1] == taskId
      requires forall d :: DependsOn(graph, taskId, d) ==> d in visited
      modifies this
      ensures Valid() && path == old(path)[..|old(path)| - 1] && visited == old(visited) + {taskId}
    {
      visiting := visiting - {taskId};
      path := path[..|path| - 1];
      FinishedOrder(graph, order, taskId);
      visited := visited + {taskId};
      order := order + [taskId];
    }
  }

  lemma FinishedOrder(graph: Graph, order: seq<TaskId>, id: TaskId)
    requires TopologicalOrder(graph, order) && id !in order
    requires forall d :: DependsOn(graph, id, d) ==> d in order
    ensures TopologicalOrder(graph, order + [id])
  {
    var longer := order + [id];
    forall i, d | 0 <= i < |longer| && DependsOn(graph, longer[i], d)
      ensures d in longer[..i]
    {
      assert longer[..i] == order[..i];
    }
  }

  /** The whole check: every known id is visited, in any order. */
  method FindCycle(graph: Graph) returns (verdict: CycleVerdict)
    ensures verdict.NoCycle? <==> Acyclic(graph)
    ensures verdict.CycleAt? ==> exists walk :: IsCycle(graph, walk) && walk[0] == verdict.taskId
  {
    var search := new CycleSearch(graph);
    var pending := graph.Keys;
    while pending != {}
      invariant search.graph == graph && search.Valid() && search.path == []
      invariant graph.Keys - pending <= search.visited
      invariant pending <= graph.Keys
    {
      var taskId :| taskId in pending;
      verdict := search.Visit(taskId);
      if verdict.CycleAt? {
        return;
      }
      pending := pending - {taskId};
    }
    assert forall id :: id in graph ==> id in search.visited;
    OrderedGraphIsAcyclic(graph, search.order);
    return NoCycle;
  }

  // A finite set that never runs out of successors inside itself holds a cycle.

  ghost predicate HasSuccessorIn(graph: Graph, inside: set<TaskId>, id: TaskId) {
    exists d :: DependsOn(graph, id, d) && d in inside
  }

  lemma {:induction false} EndlessWalk(graph: Graph, inside: set<TaskId>, start: TaskId, n: nat)
    returns (walk: seq<TaskId>)
    requires start in inside
    requires forall id {:trigger HasSuccessorIn(graph, inside, id)} ::
               id in inside ==> HasSuccessorIn(graph, inside, id)
    ensures |walk| == n + 1 && walk[0] == start && IsWalk(graph, walk)
    ensures forall i :: 0 <= i < |walk| ==> walk[i] in inside
    decreases n
  {
    if n == 0 {
      walk := [start];
    } else {
      assert HasSuccessorIn(graph, inside, start);
      var next :| DependsOn(graph, start, next) && next in inside;
      var rest := EndlessWalk(graph, inside, next, n - 1);
      walk := [start] + rest;
      forall i, j | 0 <= i && j == i + 1 < |walk|
        ensures DependsOn(graph, walk[i], walk[j])
      {
        assert walk[j] == rest[i];
        if i > 0 {
          assert walk[i] == rest[i - 1];
        }
      }
    }
  }

  lemma {:induction false} Pigeonhole(walk: seq<TaskId>, inside: set<TaskId>) returns (i: nat, j: nat)
    requires |walk| > |inside|
    requires forall k :: 0 <= k < |walk| ==> walk[k] in inside
    ensures i < j < |walk| && walk[i] == walk[j]
  {
    var last := walk[|walk| - 1];
    if k: nat :| k < |walk| - 1 && walk[k] == last {
      return k, |walk| - 1;
    }
    i, j := Pigeonhole(walk[..|walk| - 1], inside - {last});
  }

  lemma EndlessSetHoldsACycle(graph: Graph, inside: set<TaskId>, start: TaskId)
    requires start in inside
    requires forall id {:trigger HasSuccessorIn(graph, inside, id)} ::
               id in inside ==> HasSuccessorIn(graph, inside, id)
    ensures !Acyclic(graph)
  {
    var walk := EndlessWalk(graph, inside, start, |inside|);
    var i, j := Pigeonhole(walk, inside);
    var cycle := walk[i..j + 1];
    forall k, l | 0 <= k && l == k + 1 < |cycle|
      ensures DependsOn(graph, cycle[k], cycle[l])
    {
      assert cycle[k] == walk[i + k] && cycle[l] == walk[i + l];
    }
    assert IsCycle(graph, cycle);
  }

  /** In an acyclic graph every nonempty set of tasks has a member that depends
      on no member of the set. */
  lemma AcyclicSetHasASource(graph: Graph, inside: set<TaskId>) returns (source: TaskId)
    requires Acyclic(graph) && inside != {}
    ensures source in inside && !HasSuccessorIn(graph, inside, source)
  {
    if forall id {:trigger HasSuccessorIn(graph, inside, id)} :: id in inside ==> HasSuccessorIn(graph, inside, id) {
      var start :| start in inside;
      EndlessSetHoldsACycle(graph, inside, start);
      assert false;
    } else {
      source :| source in inside && !HasSuccessorIn(graph, inside, source);
    }
  }
}
