/** `BaseAgent.resolve_reachable_agents`: the worklist over the handoff graph. */
module ReachableAgents {
  import opened Common

  /** An agent object: its name and the agents it can hand off to. Nothing keeps two
      objects from sharing a name. */
  datatype Agent = Agent(name: string, handoffs: seq<nat>)

  /** All agent objects that exist, by identity. */
  type Graph = map<nat, Agent>

  predicate Closed(g: Graph) {
    forall n, m | n in g && m in g[n].handoffs :: m in g
  }

  /** A path of handoffs: each agent hands off to the next. */
  predicate IsPath(g: Graph, path: seq<nat>) {
    && path != [] && (forall n | n in path :: n in g)
    && forall k | 0 < k < |path| :: path[k] in g[path[k - 1]].handoffs
  }

  /** There is a path from the root to `n` on which every agent before `n` is in `through`. */
  ghost predicate ReachableBy(g: Graph, root: nat, through: set<nat>, n: nat) {
    exists path :: IsPath(g, path) && path[0] == root && path[|path| - 1] == n
                   && forall k :: 0 <= k < |path| - 1 ==> path[k] in through
  }

  ghost predicate Reachable(g: Graph, root: nat, n: nat) {
    ReachableBy(g, root, g.Keys, n)
  }

  ghost predicate NamesUnique(g: Graph, root: nat) {
    forall n, m :: Reachable(g, root, n) && Reachable(g, root, m) && n in g && m in g && g[n].name == g[m].name ==> n == m
  }

  lemma {:induction false} RootReachable(g: Graph, root: nat, through: set<nat>)
    requires root in g
    ensures ReachableBy(g, root, through, root)
  {
    assert IsPath(g, [root]);
  }

  lemma {:induction false} HandoffReachable(g: Graph, root: nat, through: set<nat>, n: nat, m: nat)
    requires Closed(g) && n in g && n in through && m in g[n].handoffs && ReachableBy(g, root, through, n)
    ensures ReachableBy(g, root, through, m)
  {
    var path :| IsPath(g, path) && path[0] == root && path[|path| - 1] == n && forall k :: 0 <= k < |path| - 1 ==> path[k] in through;
    var longer := path + [m];
    forall k | 0 < k < |longer| ensures longer[k] in g[longer[k - 1]].handoffs {
      if k < |path| {
        assert longer[k] == path[k];
      }
    }
    assert IsPath(g, longer);
  }

  lemma {:induction false} MoreReachable(g: Graph, root: nat, through: set<nat>, more: set<nat>, n: nat)
    requires through <= more && ReachableBy(g, root, through, n)
    ensures ReachableBy(g, root, more, n)
  {
    var path :| IsPath(g, path) && path[0] == root && path[|path| - 1] == n && forall k :: 0 <= k < |path| - 1 ==> path[k] in through;
    assert forall k :: 0 <= k < |path| - 1 ==> path[k] in more;
  }

  /** A set of agents that keeps its handoffs holds everything reachable from inside. */
  lemma {:induction false} PathStaysInside(g: Graph, inside: set<nat>, path: seq<nat>)
    requires IsPath(g, path) && path[0] in inside
    requires forall n, m :: n in inside && n in g && m in g[n].handoffs ==> m in inside
    ensures path[|path| - 1] in inside
    decreases |path|
  {
    if |path| > 1 {
      var front := path[..|path| - 1];
      assert forall n :: n in front ==> n in path;
      PathStaysInside(g, inside, front);
      assert path[|path| - 1] in g[path[|path| - 2]].handoffs;
    }
  }

  // ---- the worklist ----------------------------------------------------------------------

  /** Everything found or pending is reachable through what is found, and every handoff of
      what is found has its name found or is pending. */
  ghost predicate Progress(g: Graph, root: nat, found: map<string, nat>, pending: seq<nat>) {
    && (forall n :: n in found ==> found[n] in g && g[found[n]].name == n && ReachableBy(g, root, found.Values, found[n]))
    && (forall a :: a in pending ==> a in g && ReachableBy(g, root, found.Values, a))
    && (forall n, m :: n in found && m in g[found[n]].handoffs && m in g ==> g[m].name in found || m in pending)
    && root in g && (if found == map[] then pending == [root] else root in found.Values)
  }

  /** An agent whose name was met before is dropped. */
  lemma {:induction false} MetAgain(g: Graph, root: nat, found: map<string, nat>, pending: seq<nat>, agent: nat)
    requires Progress(g, root, found, pending + [agent]) && agent in g && g[agent].name in found
    ensures Progress(g, root, found, pending)
  {
    hide ReachableBy;
    assert forall a :: a in pending ==> a in pending + [agent];
  }

  /** The first of a name is kept, and its handoffs wait. */
  lemma {:induction false} MetFirst(g: Graph, root: nat, found: map<string, nat>, pending: seq<nat>, agent: nat)
    requires Closed(g) && Progress(g, root, found, pending + [agent]) && agent in g && g[agent].name !in found
    ensures Progress(g, root, found[g[agent].name := agent], pending + g[agent].handoffs)
  {
    hide ReachableBy;
    var found' := found[g[agent].name := agent];
    var waiting := pending + g[agent].handoffs;
    assert found'[g[agent].name] == agent && agent in found'.Values;
    assert forall v :: v in found.Values ==> v in found'.Values by {
      forall v | v in found.Values ensures v in found'.Values {
        var n :| n in found && found[n] == v;
        assert found'[n] == v;
      }
    }
    assert agent in pending + [agent];
    forall a | ReachableBy(g, root, found.Values, a) ensures ReachableBy(g, root, found'.Values, a) {
      MoreReachable(g, root, found.Values, found'.Values, a);
    }
    forall a | a in g[agent].handoffs ensures a in g && ReachableBy(g, root, found'.Values, a) {
      HandoffReachable(g, root, found'.Values, agent, a);
    }
    assert forall a :: a in waiting <==> a in pending || a in g[agent].handoffs;
    assert forall a :: a in pending + [agent] <==> a in pending || a == agent;
    if found == map[] {
      assert (pending + [agent])[0] == root && |pending + [agent]| == 1;
    }
  }

  /** The loop ends for every graph, cycles and shared names included. Of each name it finds
      one agent of that name, reachable through agents it found; a name is found exactly if
      an agent of that name is reachable so. */
  method ResolveReachableAgents(g: Graph, root: nat) returns (found: map<string, nat>)
    requires Closed(g) && root in g
    ensures forall n :: n in found ==> found[n] in g && g[found[n]].name == n && ReachableBy(g, root, found.Values, found[n])
    ensures forall n :: n in found <==> exists a :: a in g && g[a].name == n && ReachableBy(g, root, found.Values, a)
    ensures (forall a :: Reachable(g, root, a) ==> a in found.Values) <==> NamesUnique(g, root)
  {
    hide ReachableBy, Closed, Reachable, NamesUnique;
    found := map[];
    var pending := [root];
    RootReachable(g, root, {});
    assert found.Values == {};
    ghost var names := set a | a in g :: g[a].name;
    while pending != []
      invariant Progress(g, root, found, pending)
      decreases names - found.Keys, |pending|
    {
      var agent := pending[|pending| - 1];
      assert pending == pending[..|pending| - 1] + [agent];
      pending := pending[..|pending| - 1];
      if g[agent].name in found {
        MetAgain(g, root, found, pending, agent);
        continue;
      }
      MetFirst(g, root, found, pending, agent);
      ghost var left := names - found.Keys;
      pending := pending + g[agent].handoffs;
      found := found[g[agent].name := agent];
      assert g[agent].name in left && names - found.Keys == left - {g[agent].name};
    }
    forall a | a in g && ReachableBy(g, root, found.Values, a) ensures g[a].name in found {
      ReachedIsFound(g, root, found, a);
    }
    AllFoundIffUnique(g, root, found);
  }

  lemma {:induction false} ReachedIsFound(g: Graph, root: nat, found: map<string, nat>, a: nat)
    requires Progress(g, root, found, []) && a in g && ReachableBy(g, root, found.Values, a)
    ensures g[a].name in found
  {
    var path :| IsPath(g, path) && path[0] == root && path[|path| - 1] == a && forall k :: 0 <= k < |path| - 1 ==> path[k] in found.Values;
    if |path| > 1 {
      var last := path[|path| - 2];
      var n :| n in found && found[n] == last;
      assert path[|path| - 1] in g[last].handoffs;
    }
  }

  /** Every reachable agent is found exactly if no two of them share a name. */
  lemma {:induction false} AllFoundIffUnique(g: Graph, root: nat, found: map<string, nat>)
    requires Closed(g) && Progress(g, root, found, [])
    ensures (forall a :: Reachable(g, root, a) ==> a in found.Values) <==> NamesUnique(g, root)
  {
    hide ReachableBy;
    forall n | n in found ensures Reachable(g, root, found[n]) {
      assert forall v :: v in found.Values ==> v in g.Keys;
      MoreReachable(g, root, found.Values, g.Keys, found[n]);
    }
    if NamesUnique(g, root) {
      forall n, m | n in found.Values && n in g && m in g[n].handoffs ensures m in found.Values {
        HandoffReachable(g, root, g.Keys, n, m);
        assert g[found[g[m].name]].name == g[m].name;
      }
      forall a | Reachable(g, root, a) ensures a in found.Values {
        InsideHolds(g, root, found.Values, a);
      }
    }
  }

  lemma {:induction false} InsideHolds(g: Graph, root: nat, inside: set<nat>, a: nat)
    requires root in inside && Reachable(g, root, a)
    requires forall n, m :: n in inside && n in g && m in g[n].handoffs ==> m in inside
    ensures a in inside
  {
    var path :| IsPath(g, path) && path[0] == root && path[|path| - 1] == a && forall k :: 0 <= k < |path| - 1 ==> path[k] in g.Keys;
    PathStaysInside(g, inside, path);
  }
}
