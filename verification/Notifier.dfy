/**
 * The change notifier (internal/inventory/changes.go): one-place channels that coalesce changes, read
 * by subscribers at any moment, and the operations in progress that a snapshot shows.
 */
module Notifier {

  datatype Change = Change(inventory: bool, metrics: bool)

  function Or(a: Change, b: Change): Change {
    Change(a.inventory || b.inventory, a.metrics || b.metrics)
  }

  /** Everything a list of changes says. */
  function All(changes: seq<Change>): Change {
    if changes == [] then Change(false, false) else Or(changes[0], All(changes[1..]))
  }

  lemma {:induction false} AllConcat(a: seq<Change>, b: seq<Change>)
    ensures All(a + b) == Or(All(a), All(b))
  {
    if a == [] {
      assert a + b == b;
    } else {
      assert (a + b)[1..] == a[1..] + b;
      AllConcat(a[1..], b);
    }
  }

  function Flat(batches: seq<seq<Change>>): seq<Change> {
    if batches == [] then [] else batches[0] + Flat(batches[1..])
  }

  lemma {:induction false} FlatConcat(a: seq<seq<Change>>, b: seq<Change>)
    ensures Flat(a + [b]) == Flat(a) + b
  {
    if a == [] {
      assert a + [b] == [b];
    } else {
      assert (a + [b])[1..] == a[1..] + [b];
      FlatConcat(a[1..], b);
    }
  }

  /** Each message received stands for one run of the changes told, and the waiting message for the last run. */
  ghost predicate Accounted(received: seq<Change>, waiting: seq<Change>, batches: seq<seq<Change>>, last: seq<Change>) {
    && |received| == |batches|
    && (forall i :: 0 <= i < |received| ==> batches[i] != [] && received[i] == All(batches[i]))
    && waiting == if last == [] then [] else [All(last)]
  }

  /** So whenever a subscriber starts to look, what it still gets says exactly what it was still told. */
  lemma {:induction false} NothingIsLost(received: seq<Change>, waiting: seq<Change>, batches: seq<seq<Change>>, last: seq<Change>, i: nat)
    requires Accounted(received, waiting, batches, last) && i <= |received|
    ensures Or(All(received[i..]), All(waiting)) == All(Flat(batches[i..]) + last)
    ensures received[i..] + waiting == [] <==> Flat(batches[i..]) + last == []
    decreases |received| - i
  {
    AllConcat(Flat(batches[i..]), last);
    if i < |received| {
      NothingIsLost(received, waiting, batches, last, i + 1);
      assert received[i..][1..] == received[i + 1..] && batches[i..][1..] == batches[i + 1..];
      AllConcat(batches[i], Flat(batches[i + 1..]));
      AllConcat(Flat(batches[i + 1..]), last);
    } else {
      assert batches[i..] == [] && received[i..] == [];
    }
  }

  // ---- One subscriber's channel ------------------------------------------------------

  /** A channel of capacity one, with the history of what was told and received. */
  class Channel {
    var waiting: seq<Change>
    ghost var received: seq<Change>
    ghost var batches: seq<seq<Change>>
    ghost var last: seq<Change>

    ghost predicate Valid()
      reads this
    {
      Accounted(received, waiting, batches, last)
    }

    /** All changes told since subscribing, in order. */
    ghost function Told(): seq<Change>
      reads this
    {
      Flat(batches) + last
    }

    constructor ()
      ensures Valid() && Told() == [] && received == []
    {
      waiting, received, batches, last := [], [], [], [];
    }

    /** The subscriber's side: it may take the waiting message, or not look. */
    method Consume()
      modifies this
      ensures || unchanged(this)
              || (&& old(waiting) != [] && waiting == []
                  && received == old(received) + old(waiting)
                  && batches == old(batches) + [old(last)] && last == [])
      ensures old(Valid()) ==> Valid() && Told() == old(Told()) && old(received) <= received
    {
      if * {
        if waiting != [] {
          FlatConcat(batches, last);
          received, batches := received + waiting, batches + [last];
          waiting, last := [], [];
        }
      }
    }

    /** Send on the channel: with a message waiting it would block the notifier. */
    method Send(change: Change)
      requires waiting == []
      modifies this`waiting
      ensures waiting == [change]
    {
      waiting := [change];
    }

    /** The loop body of `Notify`; the subscriber may read at any point in between. */
    method Tell(change: Change)
      requires Valid()
      modifies this
      ensures Valid() && Told() == old(Told()) + [change] && old(received) <= received
    {
      hide Flat;
      var pending := change;
      Consume();
      if waiting != [] {
        var prior := waiting[0];
        waiting := [];
        Consume();
        pending := Or(pending, prior);
      }
      Consume();
      Send(pending);
      AllConcat(last, [change]);
      assert Flat(batches) + (last + [change]) == Flat(batches) + last + [change];
      last := last + [change];
      Consume();
    }
  }

  // ---- The notifier ---------------------------------------------------------------------

  function OperationState(operation: string): string {
    match operation
    case "start" => "starting"
    case "new" => "starting"
    case "copy" => "starting"
    case "stop" => "stopping"
    case "restart" => "restarting"
    case "remove" => "removing"
    case "update" => "updating"
    case "sync" => "updating"
    case "recreate" => "updating"
    case _ => ""
  }

  /** Which operations are shown as what, and no others are shown. */
  lemma StatesOfOperations(operation: string)
    ensures OperationState(operation) == "starting" <==> operation in {"start", "new", "copy"}
    ensures OperationState(operation) == "stopping" <==> operation == "stop"
    ensures OperationState(operation) == "restarting" <==> operation == "restart"
    ensures OperationState(operation) == "removing" <==> operation == "remove"
    ensures OperationState(operation) == "updating" <==> operation in {"update", "sync", "recreate"}
    ensures OperationState(operation) == "" <==>
            operation !in {"start", "new", "copy", "stop", "restart", "remove", "update", "sync", "recreate"}
  {
    assert "starting" != "stopping" && "starting" != "updating" && "stopping" != "removing" && "stopping" != "updating"
           && "removing" != "updating" && "starting" != "removing" && |"restarting"| == 10;
  }

  datatype Operation = Operation(target: string, name: string)

  /** The state of the oldest operation in progress on a target. */
  ghost predicate IsOldest(active: map<nat, Operation>, target: string, state: string) {
    if exists id :: id in active && active[id].target == target
    then exists id :: id in active && active[id].target == target && state == OperationState(active[id].name)
                      && forall other :: other in active && active[other].target == target ==> id <= other
    else state == ""
  }

  lemma OldestIsUnique(active: map<nat, Operation>, target: string, a: string, b: string)
    requires IsOldest(active, target, a) && IsOldest(active, target, b)
    ensures a == b
  {
    if id :| id in active && active[id].target == target {
      var x :| x in active && active[x].target == target && a == OperationState(active[x].name)
               && forall other :: other in active && active[other].target == target ==> x <= other;
      var y :| y in active && active[y].target == target && b == OperationState(active[y].name)
               && forall other :: other in active && active[other].target == target ==> y <= other;
      assert x == y;
    }
  }

  datatype Item = Item(id: string, operation: string)
  datatype Project = Project(id: string, operation: string, containers: seq<Item>)

  class Snapshot {
    var projects: seq<Project>
    constructor (projects: seq<Project>)
      ensures this.projects == projects
    {
      this.projects := projects;
    }
  }

  /** A project with each container's own operation or else the project's, and for itself its own or else a container's. */
  ghost predicate Shows(active: map<nat, Operation>, before: Project, after: Project) {
    && after.id == before.id && |after.containers| == |before.containers|
    && (exists own ::
         && IsOldest(active, before.id, own)
         && (forall i :: 0 <= i < |before.containers| ==> ShowsItem(active, own, before.containers[i], after.containers[i]))
         && (own != "" ==> after.operation == own)
         && (own == "" ==> IsFirst(after.containers, after.operation)))
  }

  ghost predicate ShowsItem(active: map<nat, Operation>, project: string, before: Item, after: Item) {
    && after.id == before.id
    && exists own :: IsOldest(active, "container:" + before.id, own) && after.operation == if own != "" then own else project
  }

  /** The first operation among the items, if there is any. */
  ghost predicate IsFirst(items: seq<Item>, operation: string) {
    if forall i :: 0 <= i < |items| ==> items[i].operation == "" then operation == ""
    else exists i :: 0 <= i < |items| && items[i].operation == operation && operation != ""
                     && forall j :: 0 <= j < i ==> items[j].operation == ""
  }

  /** The nested maps hold exactly the operations in progress, and no target without one. */
  ghost predicate Match(operations: map<string, map<nat, string>>, active: map<nat, Operation>) {
    && (forall target :: target in operations ==> operations[target] != map[])
    && (forall target, id :: target in operations && id in operations[target] ==>
          id in active && active[id].target == target && operations[target][id] == OperationState(active[id].name))
    && (forall id :: id in active ==> active[id].target in operations && id in operations[active[id].target])
  }

  lemma MatchAfterBegin(operations: map<string, map<nat, string>>, active: map<nat, Operation>, id: nat, begun: Operation)
    requires Match(operations, active) && id !in active
    ensures var entries := if begun.target in operations then operations[begun.target] else map[];
            Match(operations[begun.target := entries[id := OperationState(begun.name)]], active[id := begun])
  {
    hide OperationState;
    assert begun.target in operations && id in operations[begun.target] ==> id in active;
    var entries := if begun.target in operations then operations[begun.target] else map[];
    assert id in entries[id := OperationState(begun.name)];
  }

  /** Ending leaves the other operations; a target the maps no longer have has none. */
  lemma MatchAfterEnd(operations: map<string, map<nat, string>>, active: map<nat, Operation>, target: string, id: nat)
    requires Match(operations, active) && target in operations && (id in active ==> active[id].target == target)
    ensures var entries := operations[target] - {id};
            Match(if entries == map[] then operations - {target} else operations[target := entries], active - {id})
  {
    hide OperationState;
    var entries := operations[target] - {id};
    var ended := if entries == map[] then operations - {target} else operations[target := entries];
    forall other | other in active - {id}
      ensures active[other].target in ended && other in ended[active[other].target]
    {
      if active[other].target == target {
        assert other in entries;
      }
    }
  }

  class Notifier {
    var subscribers: set<Channel>
    var operations: map<string, map<nat, string>>
    var sequence: nat
    ghost var active: map<nat, Operation>

    ghost predicate Valid()
      reads this, subscribers
    {
      && (forall ch :: ch in subscribers ==> ch.Valid())
      && OperationsMatch()
    }

    ghost predicate OperationsMatch()
      reads this
    {
      Match(operations, active) && forall id :: id in active ==> 1 <= id <= sequence
    }

    constructor ()
      ensures Valid() && subscribers == {} && active == map[]
    {
      subscribers, operations, sequence, active := {}, map[], 0, map[];
    }

    /** `Notify` of the source: every subscriber is told, none can block it. */
    method Notify(change: Change)
      requires Valid()
      modifies subscribers
      ensures Valid()
      ensures forall ch :: ch in subscribers ==> ch.Told() == old(ch.Told()) + [change] && old(ch.received) <= ch.received
    {
      hide Accounted, Flat, Match;
      var left := subscribers;
      while left != {}
        invariant left <= subscribers && Valid()
        invariant forall ch :: ch in subscribers ==> old(ch.received) <= ch.received
        invariant forall ch :: ch in subscribers ==> ch.Told() == old(ch.Told()) + if ch in left then [] else [change]
      {
        var ch :| ch in left;
        ch.Tell(change);
        left := left - {ch};
      }
    }

    method Subscribe() returns (ch: Channel)
      requires Valid()
      modifies this`subscribers
      ensures Valid() && fresh(ch) && subscribers == old(subscribers) + {ch} && ch.Told() == []
    {
      ch := new Channel();
      subscribers := subscribers + {ch};
    }

    method Unsubscribe(ch: Channel)
      requires Valid()
      modifies this`subscribers
      ensures Valid() && subscribers == old(subscribers) - {ch}
    {
      subscribers := subscribers - {ch};
    }

    /** `Begin` of the source; the id stands for the function that ends the operation. */
    method Begin(target: string, operation: string) returns (id: nat)
      requires Valid()
      modifies this`operations, this`sequence, this`active, subscribers
      ensures Valid()
      ensures forall other :: other in old(active) ==> other < id
      ensures active == old(active)[id := Operation(target, operation)]
      ensures forall ch :: ch in subscribers ==> ch.Told() == old(ch.Told()) + [Change(true, false)]
    {
      hide OperationsMatch, Accounted, Flat;
      id := Record(target, operation);
      Notify(Change(true, false));
    }

    /** The function that `Begin` returns; calling it again changes nothing. */
    method End(target: string, id: nat)
      requires Valid() && (id in active ==> active[id].target == target)
      modifies this`operations, this`active, subscribers
      ensures Valid() && active == old(active) - {id}
      ensures forall ch :: ch in subscribers ==> ch.Told() == old(ch.Told()) + [Change(true, false)]
    {
      hide OperationsMatch, Accounted, Flat;
      Forget(target, id);
      Notify(Change(true, false));
    }

    /** The locked part of `Begin`. */
    method Record(target: string, operation: string) returns (id: nat)
      requires OperationsMatch()
      modifies this`operations, this`sequence, this`active
      ensures OperationsMatch()
      ensures forall other :: other in old(active) ==> other < id
      ensures active == old(active)[id := Operation(target, operation)]
    {
      sequence := sequence + 1;
      id := sequence;
      var entries := if target in operations then operations[target] else map[];
      MatchAfterBegin(operations, active, id, Operation(target, operation));
      hide Match, OperationState;
      operations := operations[target := entries[id := OperationState(operation)]];
      active := active[id := Operation(target, operation)];
    }

    /** The locked part of the function that `Begin` returns. */
    method Forget(target: string, id: nat)
      requires OperationsMatch() && (id in active ==> active[id].target == target)
      modifies this`operations, this`active
      ensures OperationsMatch() && active == old(active) - {id}
    {
      hide OperationState;
      assert target !in operations ==> id !in active;
      if target in operations {
        MatchAfterEnd(operations, active, target, id);
        hide Match;
        var entries := operations[target] - {id};
        if entries == map[] {
          operations := operations - {target};
        } else {
          operations := operations[target := entries];
        }
      }
      active := active - {id};
    }

    /** The inner function of `Apply`: the map is walked in any order, the lowest id wins. */
    method State(target: string) returns (operation: string)
      requires OperationsMatch()
      ensures IsOldest(active, target, operation)
    {
      hide OperationState;
      operation := "";
      if target in operations {
        var first := 0;
        var left := operations[target].Keys;
        while left != {}
          invariant left <= operations[target].Keys
          invariant first == 0 ==> left == operations[target].Keys
          invariant first != 0 ==> first in operations[target] && operation == operations[target][first]
          invariant first != 0 ==> forall id :: id in operations[target] && id !in left ==> first <= id
        {
          var id :| id in left;
          assert id in active;
          left := left - {id};
          if first == 0 || id < first {
            first, operation := id, operations[target][id];
          }
        }
        assert first in active;
      }
    }

    method MarkContainers(containers: seq<Item>, project: string) returns (items: seq<Item>)
      requires OperationsMatch()
      ensures |items| == |containers|
      ensures forall i :: 0 <= i < |items| ==> ShowsItem(active, project, containers[i], items[i])
    {
      items := [];
      for j := 0 to |containers|
        invariant |items| == j
        invariant forall i :: 0 <= i < j ==> ShowsItem(active, project, containers[i], items[i])
      {
        var operation := State("container:" + containers[j].id);
        var own := operation;
        if operation == "" {
          operation := project;
        }
        assert ShowsItem(active, project, containers[j], Item(containers[j].id, operation));
        items := items + [Item(containers[j].id, operation)];
      }
    }

    /** `Apply` of the source. */
    method Apply(snapshot: Snapshot)
      requires OperationsMatch()
      modifies snapshot
      ensures |snapshot.projects| == |old(snapshot.projects)|
      ensures forall i :: 0 <= i < |snapshot.projects| ==> Shows(active, old(snapshot.projects)[i], snapshot.projects[i])
    {
      for i := 0 to |snapshot.projects|
        invariant |snapshot.projects| == |old(snapshot.projects)|
        invariant forall k :: i <= k < |snapshot.projects| ==> snapshot.projects[k] == old(snapshot.projects)[k]
        invariant forall k :: 0 <= k < i ==> Shows(active, old(snapshot.projects)[k], snapshot.projects[k])
      {
        var project := snapshot.projects[i];
        hide Shows;
        var shown := Mark(project);
        snapshot.projects := snapshot.projects[i := shown];
      }
    }

    method Mark(project: Project) returns (shown: Project)
      requires OperationsMatch()
      ensures Shows(active, project, shown)
    {
      hide IsOldest, ShowsItem, IsFirst;
      var own := State(project.id);
      var items := MarkContainers(project.containers, own);
      var operation := own;
      if operation == "" {
        operation := FirstOperation(items);
      }
      shown := Project(project.id, operation, items);
    }

    static method FirstOperation(items: seq<Item>) returns (operation: string)
      ensures IsFirst(items, operation)
    {
      for j := 0 to |items|
        invariant forall k :: 0 <= k < j ==> items[k].operation == ""
      {
        if items[j].operation != "" {
          return items[j].operation;
        }
      }
      return "";
    }
  }

  /** A project shows nothing exactly when no operation with a state is the oldest on it or on any of its containers. */
  lemma ShowsNothingIff(active: map<nat, Operation>, before: Project, after: Project)
    requires Shows(active, before, after)
    ensures after.operation == "" <==>
            && IsOldest(active, before.id, "")
            && forall i :: 0 <= i < |before.containers| ==> IsOldest(active, "container:" + before.containers[i].id, "")
  {
    var own :| IsOldest(active, before.id, own)
               && (forall i :: 0 <= i < |before.containers| ==> ShowsItem(active, own, before.containers[i], after.containers[i]))
               && (own != "" ==> after.operation == own)
               && (own == "" ==> IsFirst(after.containers, after.operation));
    if IsOldest(active, before.id, "") {
      OldestIsUnique(active, before.id, own, "");
    }
    forall i | 0 <= i < |before.containers| && own == ""
      ensures after.containers[i].operation == "" <==> IsOldest(active, "container:" + before.containers[i].id, "")
    {
      var target := "container:" + before.containers[i].id;
      assert ShowsItem(active, own, before.containers[i], after.containers[i]);
      var mine :| IsOldest(active, target, mine) && after.containers[i].operation == if mine != "" then mine else own;
      if IsOldest(active, target, "") {
        OldestIsUnique(active, target, mine, "");
      }
    }
  }
}
