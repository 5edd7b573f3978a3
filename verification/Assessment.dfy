/**
 * Which order a replacement group is processed in, and which of its members are
 * one-shot containers (internal/recreate/assessment.go).
 */
module Assessment {
  import opened Strings
  import opened ComposeOrder

  /** What the assessment reads of one inspected container. */
  datatype Member = Member(labels: Labels, running: bool, exited: bool, exitCode: int, healthcheck: bool)

  function LabelsOf(ms: seq<Member>): seq<Labels> {
    seq(|ms|, i requires 0 <= i < |ms| => ms[i].labels)
  }

  predicate Completed(m: Member) { !m.running && m.exited && m.exitCode == 0 }

  /** The states in which a dependant and a dependency can both be replaced. */
  predicate Allowed(dependant: Member, condition: string, dependency: Member) {
    && (dependant.running && condition != COMPLETED ==> dependency.running)
    && (condition == "service_healthy" ==> dependency.healthcheck)
    && (condition == COMPLETED ==> Completed(dependency))
  }

  /**
   * A dependency to be started or healthy must run if its dependant does, and one to be healthy needs a
   * healthcheck; one to be completed must have exited with code 0 and not run.
   */
  lemma AllowedByCondition(dependant: Member, condition: string, dependency: Member)
    requires KnownCondition(condition)
    ensures condition == "service_started" ==>
              (Allowed(dependant, condition, dependency) <==> dependency.running || !dependant.running)
    ensures condition == "service_healthy" ==>
              (Allowed(dependant, condition, dependency) <==> dependency.healthcheck && (dependency.running || !dependant.running))
    ensures condition == "service_completed_successfully" ==>
              (Allowed(dependant, condition, dependency) <==> !dependency.running && dependency.exited && dependency.exitCode == 0)
  {
  }

  predicate NamesMember(ms: seq<Member>, entry: string, d: int) {
    0 <= d < |ms| && entry != "" && Service(ms[d].labels) == Split(entry, ':')[0]
  }

  predicate WaitsForCompletion(entry: string) {
    var p := Split(entry, ':');
    |p| == 3 && p[1] == COMPLETED
  }

  ghost predicate EntryAdmissible(ms: seq<Member>, i: nat, entry: string)
    requires i < |ms|
  {
    && WellFormedEntry(LabelsOf(ms), entry)
    && forall d :: NamesMember(ms, entry, d) ==> Allowed(ms[i], Split(entry, ':')[1], ms[d])
  }

  ghost predicate Admissible(ms: seq<Member>) {
    forall i, j :: 0 <= i < |ms| && 0 <= j < |Entries(ms[i].labels)| && Entries(ms[i].labels)[j] != "" ==>
                     EntryAdmissible(ms, i, Entries(ms[i].labels)[j])
  }

  /** Dependency entry `j` of member `i` waits for the completion of member `d`. */
  predicate Marks(ms: seq<Member>, i: int, j: int, d: int) {
    && 0 <= i < |ms| && 0 <= j < |Entries(ms[i].labels)|
    && WaitsForCompletion(Entries(ms[i].labels)[j])
    && NamesMember(ms, Entries(ms[i].labels)[j], d)
  }

  /** Some member waits for the completion of member `d`. */
  ghost predicate AwaitedBefore(ms: seq<Member>, i: int, j: int, d: int) {
    exists a, b :: (a < i || (a == i && b < j)) && Marks(ms, a, b, d)
  }

  ghost predicate Awaited(ms: seq<Member>, d: int) {
    exists a, b :: Marks(ms, a, b, d)
  }

  datatype Assessed = Assessed(order: seq<nat>, oneShot: seq<bool>)

  method AssessEntry(ms: seq<Member>, services: map<string, seq<nat>>, i: nat, j: nat, marked: seq<bool>)
    returns (ok: bool, oneShot: seq<bool>)
    requires Indexes(LabelsOf(ms), services)
    requires i < |ms| && j < |Entries(ms[i].labels)| && Entries(ms[i].labels)[j] != ""
    requires |marked| == |ms|
    ensures ok <==> EntryAdmissible(ms, i, Entries(ms[i].labels)[j])
    ensures ok ==> |oneShot| == |ms| && forall d :: 0 <= d < |ms| ==> (oneShot[d] <==> marked[d] || Marks(ms, i, j, d))
  {
    hide Split, KnownCondition, Label;
    var entry := Entries(ms[i].labels)[j];
    oneShot := marked;
    var p := Split(entry, ':');
    if |p| != 3 || !KnownCondition(p[1]) || (p[2] != "true" && p[2] != "false") || p[0] !in services {
      return false, oneShot;
    }
    var deps := services[p[0]];
    assert Service(LabelsOf(ms)[deps[0]]) == p[0];
    for k := 0 to |deps|
      invariant |oneShot| == |ms|
      invariant forall n :: 0 <= n < k ==> Allowed(ms[i], p[1], ms[deps[n]])
      invariant forall d :: 0 <= d < |ms| ==> (oneShot[d] <==> marked[d] || (p[1] == COMPLETED && d in deps[..k]))
    {
      var dep := deps[k];
      assert NamesMember(ms, entry, dep);
      if !ms[dep].running && p[1] != COMPLETED && ms[i].running {
        return false, oneShot;
      }
      if p[1] == "service_healthy" && !ms[dep].healthcheck {
        return false, oneShot;
      }
      if p[1] == COMPLETED {
        if ms[dep].running || !ms[dep].exited || ms[dep].exitCode != 0 {
          return false, oneShot;
        }
        oneShot := oneShot[dep := true];
      }
    }
    forall d | NamesMember(ms, entry, d) ensures d in deps {
      assert Service(LabelsOf(ms)[d]) == p[0];
    }
    assert deps[..|deps|] == deps;
    return true, oneShot;
  }

  /**
   * Success means exactly that every entry is well formed and admissible and that no
   * dependency chain is cyclic; the one-shot members are then exactly the awaited ones.
   */
  method DependencyOrder(ms: seq<Member>) returns (r: Option<Assessed>)
    ensures r.Some? <==> Admissible(ms) && Acyclic(LabelsOf(ms))
    ensures r.Some? ==> IsOrder(LabelsOf(ms), r.value.order) && |r.value.oneShot| == |ms|
    ensures r.Some? ==> forall d :: 0 <= d < |ms| ==> (r.value.oneShot[d] <==> Awaited(ms, d))
  {
    var services := IndexServices(LabelsOf(ms));
    var oneShot := seq(|ms|, _ => false);
    for i := 0 to |ms|
      invariant |oneShot| == |ms|
      invariant forall a, b :: 0 <= a < i && 0 <= b < |Entries(ms[a].labels)| && Entries(ms[a].labels)[b] != "" ==>
                                 EntryAdmissible(ms, a, Entries(ms[a].labels)[b])
      invariant forall d :: 0 <= d < |ms| ==> (oneShot[d] <==> AwaitedBefore(ms, i, 0, d))
    {
      var entries := Entries(ms[i].labels);
      for j := 0 to |entries|
        invariant |oneShot| == |ms|
        invariant forall b :: 0 <= b < j && entries[b] != "" ==> EntryAdmissible(ms, i, entries[b])
        invariant forall d :: 0 <= d < |ms| ==> (oneShot[d] <==> AwaitedBefore(ms, i, j, d))
      {
        if entries[j] == "" {
          continue;
        }
        var ok;
        ok, oneShot := AssessEntry(ms, services, i, j, oneShot);
        if !ok {
          return None;
        }
      }
      assert forall d :: AwaitedBefore(ms, i, |entries|, d) <==> AwaitedBefore(ms, i + 1, 0, d);
    }
    AdmissibleIsWellFormed(ms);
    var sorted := TopologicalOrder(LabelsOf(ms));
    if sorted.Failure? {
      return None;
    }
    return Some(Assessed(sorted.value, oneShot));
  }

  lemma AdmissibleIsWellFormed(ms: seq<Member>)
    requires Admissible(ms)
    ensures WellFormed(LabelsOf(ms))
  {
    var all := LabelsOf(ms);
    forall i, entry | 0 <= i < |all| && entry in Entries(all[i]) && entry != "" ensures WellFormedEntry(all, entry) {
      var j :| 0 <= j < |Entries(all[i])| && Entries(all[i])[j] == entry;
      assert EntryAdmissible(ms, i, Entries(ms[i].labels)[j]);
    }
  }

  /** A one-shot member has completed successfully. */
  lemma AwaitedHasCompleted(ms: seq<Member>, d: int)
    requires Admissible(ms) && Awaited(ms, d)
    ensures Completed(ms[d])
  {
    var a, b :| Marks(ms, a, b, d);
    assert EntryAdmissible(ms, a, Entries(ms[a].labels)[b]);
  }

  /** The first `n` members in an order that respects the dependencies among them. */
  ghost predicate GroupOrder(all: seq<Labels>, n: nat, order: seq<nat>) {
    && Distinct(order)
    && (forall i: nat :: i in order <==> i < n)
    && forall k, d: nat :: 0 <= k < |order| && DependsOn(all, order[k], d) && d < n ==> d in order[..k]
  }

  lemma GroupDependenciesAreEarlier(all: seq<Labels>, n: nat, order: seq<nat>, a: nat, b: nat)
    requires GroupOrder(all, n, order) && a <= b < |order|
    ensures !DependsOn(all, order[a], order[b])
  {
    assert order[b] !in order[..a];
    assert order[b] in order;
  }

  /**
   * External dependencies take part in the assessment but are never replaced: leaving them
   * out keeps the order a dependency order of the group.
   */
  method ScopedDependencyOrder(entries: seq<Member>, dependencies: seq<Member>) returns (r: Option<Assessed>)
    ensures r.Some? <==> Admissible(entries + dependencies) && Acyclic(LabelsOf(entries + dependencies))
    ensures r.Some? ==> GroupOrder(LabelsOf(entries + dependencies), |entries|, r.value.order)
    ensures r.Some? ==> |r.value.oneShot| == |entries| && forall d :: 0 <= d < |entries| ==>
                          (r.value.oneShot[d] <==> Awaited(entries + dependencies, d))
  {
    var ms := entries + dependencies;
    var assessed := DependencyOrder(ms);
    if assessed.None? {
      return None;
    }
    var order := assessed.value.order;
    var selected: seq<nat> := [];
    for k := 0 to |order|
      invariant Distinct(selected)
      invariant forall i: nat :: i in selected <==> i in order[..k] && i < |entries|
      invariant forall a, d: nat :: 0 <= a < |selected| && DependsOn(LabelsOf(ms), selected[a], d) && d < |entries| ==>
                                      d in selected[..a]
    {
      assert order[..k + 1] == order[..k] + [order[k]];
      if order[k] < |entries| {
        assert order[k] !in order[..k];
        assert forall d: nat :: DependsOn(LabelsOf(ms), order[k], d) && d < |entries| ==> d in selected;
        var longer := selected + [order[k]];
        assert longer[..|selected|] == selected;
        assert forall a :: 0 <= a < |selected| ==> longer[..a] == selected[..a];
        selected := longer;
      }
    }
    assert order[..|order|] == order;
    return Some(Assessed(selected, assessed.value.oneShot[..|entries|]));
  }
}
