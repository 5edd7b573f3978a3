/**
 * Ordering of containers by their observed Compose labels
 * (internal/composeorder/order.go).
 */
module ComposeOrder {
  import opened Strings

  type Labels = map<string, string>

  const SERVICE := "com.docker.compose.service"
  const DEPENDS_ON := "com.docker.compose.depends_on"
  const COMPLETED := "service_completed_successfully"

  datatype Problem = Cyclic | Malformed

  // ---- What the labels say ------------------------------------------------

  /** A Go map read: an absent key reads as the empty string. */
  function Label(l: Labels, key: string): string {
    if key in l then l[key] else ""
  }

  function Service(l: Labels): string { Label(l, SERVICE) }

  /** The comma-separated dependency entries of one container. */
  function Entries(l: Labels): seq<string> { Split(Label(l, DEPENDS_ON), ',') }

  predicate KnownCondition(condition: string): (known: bool)
    ensures known <==> condition in {"service_started", "service_healthy", "service_completed_successfully"}
  {
    condition == "service_started" || condition == "service_healthy" || condition == COMPLETED
  }

  /** `service:condition:restart`, naming a service that is present. */
  predicate WellFormedEntry(all: seq<Labels>, entry: string) {
    var p := Split(entry, ':');
    && |p| == 3
    && KnownCondition(p[1])
    && (p[2] == "true" || p[2] == "false")
    && exists k :: 0 <= k < |all| && Service(all[k]) == p[0]
  }

  predicate WellFormedItem(all: seq<Labels>, i: nat)
    requires i < |all|
  {
    forall entry :: entry in Entries(all[i]) && entry != "" ==> WellFormedEntry(all, entry)
  }

  predicate WellFormed(all: seq<Labels>) {
    forall i :: 0 <= i < |all| ==> WellFormedItem(all, i)
  }

  /** Container `i` depends on every container of each service its label names. */
  predicate DependsOn(all: seq<Labels>, i: int, d: int) {
    && 0 <= i < |all| && 0 <= d < |all|
    && exists entry :: entry in Entries(all[i]) && entry != "" && Service(all[d]) == Split(entry, ':')[0]
  }

  /** Each element depends on the one after it. */
  ghost predicate IsPath(all: seq<Labels>, p: seq<nat>) {
    && (forall k :: 0 <= k < |p| ==> p[k] < |all|)
    && forall a, b :: 0 <= a && b == a + 1 && b < |p| ==> DependsOn(all, p[a], p[b])
  }

  ghost predicate IsCycle(all: seq<Labels>, p: seq<nat>) {
    |p| >= 2 && IsPath(all, p) && p[0] == p[|p| - 1]
  }

  ghost predicate Acyclic(all: seq<Labels>) {
    forall p :: !IsCycle(all, p)
  }

  // ---- What a good order is -----------------------------------------------

  ghost predicate Distinct(s: seq<nat>) {
    forall a, b :: 0 <= a < b < |s| ==> s[a] != s[b]
  }

  ghost predicate DependenciesFirst(all: seq<Labels>, order: seq<nat>) {
    forall k, d :: 0 <= k < |order| && DependsOn(all, order[k], d) ==> d in order[..k]
  }

  /** Every index once, each dependency before its dependants. */
  ghost predicate IsOrder(all: seq<Labels>, order: seq<nat>) {
    && Distinct(order)
    && (forall i: nat :: i in order <==> i < |all|)
    && DependenciesFirst(all, order)
  }

  lemma AppendKeepsOrder(all: seq<Labels>, order: seq<nat>, i: nat)
    requires DependenciesFirst(all, order) && forall d :: DependsOn(all, i, d) ==> d in order
    ensures DependenciesFirst(all, order + [i])
  {
    var longer := order + [i];
    forall k, d | 0 <= k < |longer| && DependsOn(all, longer[k], d) ensures d in longer[..k] {
      if k < |order| {
        assert longer[..k] == order[..k] && DependsOn(all, order[k], d);
      } else {
        assert longer[..k] == order;
      }
    }
  }

  /** An order can only exist when no dependency chain returns to its start. */
  lemma {:induction false} OrderRefutesCycles(all: seq<Labels>, order: seq<nat>)
    requires IsOrder(all, order)
    ensures Acyclic(all)
  {
    forall p ensures !IsCycle(all, p) {
      if IsCycle(all, p) {
        var last := PositionsFall(all, order, p);
      }
    }
  }

  /** Along a dependency chain positions strictly fall; returns the position of the last element. */
  lemma {:induction false} PositionsFall(all: seq<Labels>, order: seq<nat>, p: seq<nat>) returns (last: nat)
    requires IsOrder(all, order) && IsPath(all, p) && |p| >= 1
    ensures last < |order| && order[last] == p[|p| - 1]
    ensures forall k :: 0 <= k < |order| && order[k] == p[0] ==> if |p| == 1 then last == k else last < k
  {
    if |p| == 1 {
      assert p[0] in order;
      last :| 0 <= last < |order| && order[last] == p[0];
    } else {
      var q := p[..|p| - 1];
      var previous := PositionsFall(all, order, q);
      assert DependsOn(all, q[|q| - 1], p[|p| - 1]);
      assert p[|p| - 1] in order[..previous];
      last :| 0 <= last < previous && order[..previous][last] == p[|p| - 1];
    }
  }

  ghost function UpTo(n: nat): (s: set<nat>)
    ensures forall k: nat :: k in s <==> k < n
  {
    if n == 0 then {} else UpTo(n - 1) + {n - 1}
  }

  // ---- The depth-first search ---------------------------------------------

  class Search {
    const all: seq<Labels>
    const services: map<string, seq<nat>>
    var visiting: set<nat>
    var visited: set<nat>
    var order: seq<nat>

    constructor (all: seq<Labels>, services: map<string, seq<nat>>)
      requires Indexes(all, services)
      ensures this.all == all && Valid() && visiting == {} && visited == {}
    {
      this.all, this.services := all, services;
      visiting, visited, order := {}, {}, [];
    }

    predicate Names(entry: string, d: int) {
      0 <= d < |all| && Service(all[d]) == Split(entry, ':')[0]
    }

    ghost predicate Valid()
      reads this
    {
      && Indexes(all, services)
      && Distinct(order)
      && (forall i :: i in visited <==> i in order)
      && (forall i :: i in visited ==> i < |all| && WellFormedItem(all, i))
      && (forall i :: i in visiting ==> i < |all|)
      && visiting !! visited
      && DependenciesFirst(all, order)
    }

    /** The containers being visited form a dependency chain that ends with a dependant of `next`. */
    ghost predicate Stack(path: seq<nat>, next: nat)
      reads this
    {
      && next < |all|
      && IsPath(all, path + [next])
      && (forall i :: i in visiting <==> i in path)
    }

    method Visit(i: nat, ghost path: seq<nat>) returns (problem: Option<Problem>)
      requires Valid() && Stack(path, i)
      modifies this`visiting, this`visited, this`order
      ensures problem.None? ==> Valid() && visiting == old(visiting) && i in visited && old(visited) <= visited
      ensures problem == Some(Cyclic) ==> !Acyclic(all)
      ensures problem == Some(Malformed) ==> !WellFormed(all)
      decreases UpTo(|all|) - visiting, 0
    {
      hide Acyclic, IsPath, WellFormed, Indexes, DependenciesFirst;
      if i in visiting {
        CycleClosed(path, i);
        return Some(Cyclic);
      }
      if i in visited {
        return None;
      }
      visiting := visiting + {i};
      var entries := Entries(all[i]);
      for e := 0 to |entries|
        invariant Valid() && visiting == old(visiting) + {i} && old(visited) <= visited
        invariant forall j :: 0 <= j < e && entries[j] != "" ==> WellFormedEntry(all, entries[j])
        invariant forall j, d :: 0 <= j < e && entries[j] != "" && Names(entries[j], d) ==> d in visited
      {
        if entries[e] == "" {
          continue;
        }
        problem := VisitEntry(i, entries[e], path);
        if problem.Some? {
          return;
        }
      }
      forall d | DependsOn(all, i, d) ensures d in order {
        var j :| 0 <= j < |entries| && entries[j] != "" && Names(entries[j], d);
      }
      AppendKeepsOrder(all, order, i);
      visiting := visiting - {i};
      visited := visited + {i};
      order := order + [i];
      return None;
    }

    /** The body of the loop over one container's dependency entries. */
    method VisitEntry(i: nat, entry: string, ghost path: seq<nat>) returns (problem: Option<Problem>)
      requires Valid() && i in visiting && IsPath(all, path + [i])
      requires forall k :: k in visiting <==> k in path + [i]
      requires entry in Entries(all[i]) && entry != ""
      modifies this`visiting, this`visited, this`order
      ensures problem.None? ==>
                && Valid() && visiting == old(visiting) && old(visited) <= visited
                && WellFormedEntry(all, entry)
                && forall d :: Names(entry, d) ==> d in visited
      ensures problem == Some(Cyclic) ==> !Acyclic(all)
      ensures problem == Some(Malformed) ==> !WellFormed(all)
      decreases UpTo(|all|) - visiting, 1
    {
      hide Acyclic, IsPath, Distinct, DependenciesFirst, WellFormed, WellFormedItem, Indexes;
      var p := Split(entry, ':');
      if |p| != 3 || !KnownCondition(p[1]) || (p[2] != "true" && p[2] != "false") || p[0] !in services {
        Malforms(i, entry);
        return Some(Malformed);
      }
      var deps := services[p[0]];
      NamedAreListed(entry);
      for d := 0 to |deps|
        invariant Valid() && visiting == old(visiting) && old(visited) <= visited
        invariant forall j :: 0 <= j < d ==> deps[j] in visited
      {
        StackGrows(path, i, deps[d]);
        problem := Visit(deps[d], path + [i]);
        if problem.Some? {
          return;
        }
      }
      return None;
    }

    lemma Malforms(i: nat, entry: string)
      requires Indexes(all, services) && i < |all| && entry in Entries(all[i]) && entry != ""
      requires var p := Split(entry, ':');
               |p| != 3 || !KnownCondition(p[1]) || (p[2] != "true" && p[2] != "false") || p[0] !in services
      ensures !WellFormed(all)
    {
      assert !WellFormedItem(all, i);
    }

    /** The index lists the containers that an entry names, and there are some. */
    lemma NamedAreListed(entry: string)
      requires Indexes(all, services) && Split(entry, ':')[0] in services
      ensures var deps := services[Split(entry, ':')[0]];
              && (forall k :: 0 <= k < |deps| ==> deps[k] < |all| && Names(entry, deps[k]))
              && (forall d: nat :: Names(entry, d) ==> d in deps)
              && deps != [] && Service(all[deps[0]]) == Split(entry, ':')[0]
    {
    }

    lemma CycleClosed(path: seq<nat>, i: nat)
      requires Stack(path, i) && i in visiting
      ensures !Acyclic(all)
    {
      var k :| 0 <= k < |path| && path[k] == i;
      var whole := path + [i];
      var cycle := whole[k..];
      forall a, b | 0 <= a && b == a + 1 && b < |cycle| ensures DependsOn(all, cycle[a], cycle[b]) {
        assert cycle[a] == whole[k + a] && cycle[b] == whole[k + b];
      }
      assert IsCycle(all, cycle);
    }

    lemma StackGrows(path: seq<nat>, i: nat, d: nat)
      requires d < |all| && i < |all| && IsPath(all, path + [i]) && DependsOn(all, i, d)
      ensures IsPath(all, path + [i] + [d])
    {
      var whole := path + [i] + [d];
      forall a, b | 0 <= a && b == a + 1 && b < |whole| ensures DependsOn(all, whole[a], whole[b]) {
        if a < |path| {
          assert whole[a] == (path + [i])[a] && whole[b] == (path + [i])[b];
        }
      }
    }
  }

  /** Each service name with the indices of its containers. */
  ghost predicate Indexes(all: seq<Labels>, services: map<string, seq<nat>>) {
    && (forall s :: s in services ==> |services[s]| > 0)
    && (forall s, j :: s in services && 0 <= j < |services[s]| ==>
         services[s][j] < |all| && Service(all[services[s][j]]) == s)
    && (forall k :: 0 <= k < |all| ==> Service(all[k]) in services && k in services[Service(all[k])])
  }

  method IndexServices(all: seq<Labels>) returns (services: map<string, seq<nat>>)
    ensures Indexes(all, services)
  {
    services := map[];
    for i := 0 to |all|
      invariant forall s :: s in services ==> |services[s]| > 0
      invariant forall s, j :: s in services && 0 <= j < |services[s]| ==>
                    services[s][j] < i && Service(all[services[s][j]]) == s
      invariant forall k :: 0 <= k < i ==> Service(all[k]) in services && k in services[Service(all[k])]
    {
      var s := Service(all[i]);
      services := services[s := (if s in services then services[s] else []) + [i]];
    }
  }

  /**
   * `Labels` of the source. It succeeds exactly when every entry is well formed and
   * no dependency chain is cyclic, and each error names a defect that is there.
   */
  method TopologicalOrder(all: seq<Labels>) returns (r: Result<seq<nat>, Problem>)
    ensures r.Success? <==> WellFormed(all) && Acyclic(all)
    ensures r.Success? ==> IsOrder(all, r.value)
    ensures r == Failure(Cyclic) ==> !Acyclic(all)
    ensures r == Failure(Malformed) ==> !WellFormed(all)
  {
    var services := IndexServices(all);
    var search := new Search(all, services);
    for i := 0 to |all|
      invariant search.all == all && search.Valid() && search.visiting == {} && fresh(search)
      invariant forall k :: 0 <= k < i ==> k in search.visited
    {
      var problem := search.Visit(i, []);
      if problem.Some? {
        assert problem.value == Cyclic || problem.value == Malformed;
        return Failure(problem.value);
      }
    }
    OrderRefutesCycles(all, search.order);
    return Success(search.order);
  }
}
