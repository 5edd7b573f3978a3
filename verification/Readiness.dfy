/**
 * Which services a deployment must bring up, and the polling loop that only accepts a real window
 * of stability (internal/managed/readiness.go).
 */
module Readiness {
  import opened Strings
  import ComposeOrder

  // ---- Expectations -----------------------------------------------------------

  /** A Compose service; absent counts mean one replica. */
  datatype Service = Service(
    dependsOn: map<string, string>, profiles: seq<string>, scale: Option<int>, replicas: Option<int>, markedOneShot: bool)

  datatype Model = Model(services: map<string, Service>, active: Option<seq<string>>)

  datatype Expectation = Expectation(replicas: int, oneShot: bool)

  predicate Active(m: Model, name: string)
    requires name in m.services
  {
    match m.active
    case Some(names) => name in names
    case None => m.services[name].profiles == []
  }

  function Replicas(s: Service): int {
    match s.replicas
    case Some(n) => n
    case None => (match s.scale case Some(n) => n case None => 1)
  }

  /** Some service waits for `name` to complete. */
  predicate AwaitedCompletion(m: Model, name: string) {
    exists other :: other in m.services && name in m.services[other].dependsOn
                    && m.services[other].dependsOn[name] == ComposeOrder.COMPLETED
  }

  function Expected(m: Model): map<string, Expectation> {
    map name | name in m.services && Active(m, name) && Replicas(m.services[name]) > 0 ::
      Expectation(Replicas(m.services[name]), AwaitedCompletion(m, name) || m.services[name].markedOneShot)
  }

  /** Which services are expected, how often, and which of them are to complete. */
  lemma WhatIsExpected(m: Model, name: string)
    requires name in m.services
    ensures var s, scaled := m.services[name], Expected(m);
            && (name in scaled <==>
                  && (if m.active.Some? then name in m.active.value else s.profiles == [])
                  && (s.replicas.Some? ==> s.replicas.value > 0) && (s.replicas.None? && s.scale.Some? ==> s.scale.value > 0))
            && (name in scaled ==>
                  && (s.replicas.Some? ==> scaled[name].replicas == s.replicas.value)
                  && (s.replicas.None? && s.scale.Some? ==> scaled[name].replicas == s.scale.value)
                  && (s.replicas.None? && s.scale.None? ==> scaled[name].replicas == 1)
                  && (scaled[name].oneShot <==> s.markedOneShot || AwaitedCompletion(m, name)))
  {
  }

  /** `expectedServices` of the source: one pass collects the one-shot names, a second the expectations. */
  method ExpectedServices(m: Model) returns (expected: map<string, Expectation>)
    ensures expected == Expected(m)
  {
    var oneShot: set<string> := {};
    var todo := m.services.Keys;
    while todo != {}
      invariant todo <= m.services.Keys
      invariant forall name :: name in oneShot <==>
                  exists other :: other in m.services.Keys - todo && name in m.services[other].dependsOn
                                  && m.services[other].dependsOn[name] == ComposeOrder.COMPLETED
    {
      var other :| other in todo;
      todo := todo - {other};
      oneShot := oneShot + set name | name in m.services[other].dependsOn && m.services[other].dependsOn[name] == ComposeOrder.COMPLETED;
    }
    assert forall name :: name in oneShot <==> AwaitedCompletion(m, name);
    expected := map[];
    todo := m.services.Keys;
    while todo != {}
      invariant todo <= m.services.Keys
      invariant forall name :: name in expected <==> name in Expected(m) && name !in todo
      invariant forall name :: name in expected ==> expected[name] == Expected(m)[name]
    {
      var name :| name in todo;
      todo := todo - {name};
      if !Active(m, name) || Replicas(m.services[name]) <= 0 {
        continue;
      }
      expected := expected[name := Expectation(Replicas(m.services[name]), name in oneShot || m.services[name].markedOneShot)];
    }
  }

  // ---- Polls --------------------------------------------------------------------

  datatype Health = Starting | Healthy | Unhealthy

  datatype State = State(
    failed: bool, exited: bool, exitCode: int, running: bool, paused: bool, restarting: bool,
    health: Option<Health>, startedAt: string)

  /** One inspected container; without configuration it belongs to no service. */
  datatype Item = Item(id: string, service: Option<string>, state: Option<State>, healthcheck: bool, restarts: nat)

  datatype Identity = Identity(startedAt: string, restarts: nat)

  datatype Poll = Cancelled | Broken | Seen(items: seq<Item>, now: int)

  /** What the runtime shows at each poll. */
  type Readings = nat -> Poll

  function Of(items: seq<Item>, service: string): seq<Item> {
    if items == [] then []
    else (if items[0].service == Some(service) then [items[0]] else []) + Of(items[1..], service)
  }

  lemma {:induction false} OfMembers(items: seq<Item>, service: string)
    ensures forall x :: x in Of(items, service) <==> x in items && x.service == Some(service)
  {
    if items != [] {
      OfMembers(items[1..], service);
    }
  }

  predicate IsReady(want: Expectation, x: Item) {
    && !want.oneShot && x.state.Some?
    && var s := x.state.value;
       && !s.failed && !s.exited && s.running && !s.paused && !s.restarting
       && ((!x.healthcheck && s.health.None?) || s.health == Some(Healthy))
  }

  predicate IsDone(want: Expectation, x: Item) {
    want.oneShot && x.state.Some? && !x.state.value.failed && x.state.value.exited && x.state.value.exitCode == 0
  }

  function IdentityOf(x: Item): Identity
    requires x.state.Some?
  {
    Identity(x.state.value.startedAt, x.restarts)
  }

  /** The container was seen ready in poll `q` with this start time and restart count. */
  ghost predicate SeenReady(expected: map<string, Expectation>, readings: Readings, q: nat, id: string, identity: Identity) {
    && readings(q).Seen?
    && exists x :: x in readings(q).items && x.id == id && x.service.Some? && x.service.value in expected
                   && IsReady(expected[x.service.value], x) && IdentityOf(x) == identity
  }

  /** It was seen so in every poll from `p` to `n`. */
  ghost predicate ReadySince(expected: map<string, Expectation>, readings: Readings, p: nat, n: int, id: string, identity: Identity) {
    forall q: nat :: p <= q <= n ==> SeenReady(expected, readings, q, id, identity)
  }

  /** What acceptance at poll `n` means for one container. */
  ghost predicate Settled(expected: map<string, Expectation>, readings: Readings, n: nat, want: Expectation, x: Item, stableFor: int)
    requires readings(n).Seen?
  {
    || IsDone(want, x)
    || (x.state.Some? && exists p: nat :: p <= n && readings(p).Seen? && readings(n).now - readings(p).now >= stableFor
                                          && ReadySince(expected, readings, p, n, x.id, IdentityOf(x)))
  }

  /** Every expected service has its exact replicas, and each of them is done or has been ready throughout a window. */
  ghost predicate RealWindow(expected: map<string, Expectation>, readings: Readings, n: nat, stableFor: int) {
    && readings(n).Seen?
    && forall service :: service in expected ==>
         && |Of(readings(n).items, service)| == expected[service].replicas
         && forall x :: x in Of(readings(n).items, service) ==>
              Settled(expected, readings, n, expected[service], x, stableFor)
  }

  /** A container keeps its service label, a poll shows each container once, and clocks do not go back. */
  ghost predicate Sane(readings: Readings, labels: string -> Option<string>) {
    && (forall q, x :: readings(q).Seen? && x in readings(q).items ==> x.service == labels(x.id))
    && (forall q :: readings(q).Seen? ==> EachOnce(readings(q).items))
    && forall p, q :: p <= q && readings(p).Seen? && readings(q).Seen? ==> readings(p).now <= readings(q).now
  }

  predicate EachOnce(items: seq<Item>) {
    forall i, j :: 0 <= i < j < |items| ==> items[i].id != items[j].id
  }

  /** A container in a state that ends the verification at once. */
  predicate Fatal(want: Expectation, x: Item) {
    || x.state.None?
    || x.state.value.failed
    || (x.state.value.exited && !IsDone(want, x))
    || (!x.state.value.exited && x.state.value.health == Some(Unhealthy))
  }

  ghost predicate FatalPoll(expected: map<string, Expectation>, poll: Poll) {
    || !poll.Seen?
    || exists x :: x in poll.items && x.service.Some? && x.service.value in expected && Fatal(expected[x.service.value], x)
  }

  /** A container that the loop goes on waiting for. */
  predicate Waits(want: Expectation, x: Item) {
    && x.state.Some? && !x.state.value.failed && !x.state.value.exited && x.state.value.health != Some(Unhealthy)
    && (|| want.oneShot || !x.state.value.running || x.state.value.paused || x.state.value.restarting
        || x.state.value.health == Some(Starting) || (x.healthcheck && x.state.value.health.None?))
  }

  /** Every container is fatal, done, ready or waited for, and only one of these. */
  lemma StatesAreToldApart(want: Expectation, x: Item)
    ensures Fatal(want, x) <==> !IsDone(want, x) && !IsReady(want, x) && !Waits(want, x)
    ensures !(IsDone(want, x) && IsReady(want, x)) && !(IsReady(want, x) && Waits(want, x)) && !(IsDone(want, x) && Waits(want, x))
  {
    if x.state.Some? && x.state.value.health.Some? {
      match x.state.value.health.value {
        case Starting =>
        case Healthy =>
        case Unhealthy =>
      }
    }
  }

  datatype Tally = Tally(stable: map<string, int>, identity: map<string, Identity>, seen: set<string>, ready: bool)

  /** The last poll the maps know about for this container. */
  function Known(t: Tally, id: string, n: nat): int {
    if id in t.seen then n else n - 1
  }

  /** What is remembered is true: the container has been ready since the remembered time. */
  ghost predicate Truthful(expected: map<string, Expectation>, readings: Readings, labels: string -> Option<string>, n: nat, t: Tally) {
    forall id :: id in t.stable ==>
      && id in t.identity
      && labels(id).Some? && labels(id).value in expected && !expected[labels(id).value].oneShot
      && exists p: nat :: p <= n && readings(p).Seen? && readings(p).now == t.stable[id]
                          && ReadySince(expected, readings, p, Known(t, id, n), id, t.identity[id])
  }

  /** Nothing is forgotten: a container that has been ready since some poll is remembered since then or earlier. */
  ghost predicate Complete(expected: map<string, Expectation>, readings: Readings, n: nat, t: Tally) {
    forall id, p: nat, identity :: p <= Known(t, id, n) && ReadySince(expected, readings, p, Known(t, id, n), id, identity) ==>
      id in t.stable && id in t.identity && t.identity[id] == identity && readings(p).Seen? && t.stable[id] <= readings(p).now
  }

  /** The maps summarise the polls so far. */
  ghost predicate Remembers(expected: map<string, Expectation>, readings: Readings, labels: string -> Option<string>, n: nat, t: Tally) {
    Truthful(expected, readings, labels, n, t) && Complete(expected, readings, n, t)
  }

  datatype Verdict = Fine(tally: Tally) | Rejected

  /** In poll `n` a container is seen ready exactly as its own item says. */
  lemma SeenByOwnItem(expected: map<string, Expectation>, readings: Readings, labels: string -> Option<string>,
                      n: nat, x: Item, identity: Identity)
    requires Sane(readings, labels) && readings(n).Seen? && x in readings(n).items
    ensures SeenReady(expected, readings, n, x.id, identity) <==>
            x.service.Some? && x.service.value in expected && IsReady(expected[x.service.value], x) && IdentityOf(x) == identity
  {
    OnlyOne(readings(n).items, x);
  }

  lemma OnlyOne(items: seq<Item>, x: Item)
    requires x in items && EachOnce(items)
    ensures forall y :: y in items && y.id == x.id ==> y == x
  {
  }

  /** The body of the loop over the containers of one service. */
  method Weigh(expected: map<string, Expectation>, ghost readings: Readings, ghost labels: string -> Option<string>,
               ghost n: nat, service: string, x: Item, now: int, t: Tally, stableFor: int)
    returns (r: Verdict)
    requires service in expected && readings(n).Seen? && x in readings(n).items && x.service == Some(service)
    requires now == readings(n).now && Sane(readings, labels) && Remembers(expected, readings, labels, n, t)
    requires x.id !in t.seen
    ensures r.Rejected? <==> Fatal(expected[service], x)
    ensures r.Fine? ==>
              && Remembers(expected, readings, labels, n, r.tally) && r.tally.seen == t.seen + {x.id}
              && (r.tally.ready <==> t.ready && Settled(expected, readings, n, expected[service], x, stableFor))
  {
    hide Sane, SeenReady;
    var want := expected[service];
    if x.state.None? || x.state.value.failed {
      return Rejected;
    }
    var s := x.state.value;
    if s.exited {
      if want.oneShot && s.exitCode == 0 {
        NotReadyNow(expected, readings, labels, n, x, t, t.stable);
        return Fine(t.(seen := t.seen + {x.id}));
      }
      return Rejected;
    }
    if s.health == Some(Unhealthy) {
      return Rejected;
    }
    var isReady := !want.oneShot && s.running && !s.paused && !s.restarting
                   && ((!x.healthcheck && s.health.None?) || s.health == Some(Healthy));
    if !isReady {
      NotReadyNow(expected, readings, labels, n, x, t, t.stable - {x.id});
      return Fine(Tally(t.stable - {x.id}, t.identity, t.seen + {x.id}, false));
    }
    var current := IdentityOf(x);
    var stable, identity := t.stable, t.identity;
    if x.id !in identity || identity[x.id] != current || x.id !in stable {
      identity := identity[x.id := current];
      stable := stable[x.id := now];
    }
    ReadyNow(expected, readings, labels, n, x, t, stable, identity, stableFor);
    return Fine(Tally(stable, identity, t.seen + {x.id}, t.ready && now - stable[x.id] >= stableFor));
  }

  lemma NotReadyNow(expected: map<string, Expectation>, readings: Readings, labels: string -> Option<string>,
                    n: nat, x: Item, t: Tally, stable: map<string, int>)
    requires readings(n).Seen? && x in readings(n).items && x.service.Some? && x.service.value in expected
    requires Sane(readings, labels) && Remembers(expected, readings, labels, n, t) && x.id !in t.seen
    requires !IsReady(expected[x.service.value], x)
    requires stable == t.stable - {x.id} || (stable == t.stable && expected[x.service.value].oneShot)
    ensures forall b :: Remembers(expected, readings, labels, n, Tally(stable, t.identity, t.seen + {x.id}, b))
    ensures forall p: nat, identity :: p <= n ==> !ReadySince(expected, readings, p, n, x.id, identity)
  {
    assert x.service == labels(x.id);
    hide Sane, SeenReady;
    forall p: nat, identity | p <= n ensures !ReadySince(expected, readings, p, n, x.id, identity) {
      SeenByOwnItem(expected, readings, labels, n, x, identity);
      assert !SeenReady(expected, readings, n, x.id, identity);
    }
    forall b ensures Remembers(expected, readings, labels, n, Tally(stable, t.identity, t.seen + {x.id}, b)) {
      var u := Tally(stable, t.identity, t.seen + {x.id}, b);
      assert forall id :: id != x.id ==> Known(u, id, n) == Known(t, id, n);
    }
  }

  lemma ReadyNow(expected: map<string, Expectation>, readings: Readings, labels: string -> Option<string>,
                 n: nat, x: Item, t: Tally, stable: map<string, int>, identity: map<string, Identity>, stableFor: int)
    requires readings(n).Seen? && x in readings(n).items && x.service.Some? && x.service.value in expected
    requires Sane(readings, labels) && Remembers(expected, readings, labels, n, t) && x.id !in t.seen
    requires IsReady(expected[x.service.value], x)
    requires var keep := x.id in t.identity && t.identity[x.id] == IdentityOf(x) && x.id in t.stable;
             if keep then stable == t.stable && identity == t.identity
             else stable == t.stable[x.id := readings(n).now] && identity == t.identity[x.id := IdentityOf(x)]
    ensures forall b :: Remembers(expected, readings, labels, n, Tally(stable, identity, t.seen + {x.id}, b))
    ensures readings(n).now - stable[x.id] >= stableFor <==> Settled(expected, readings, n, expected[x.service.value], x, stableFor)
  {
    assert x.service == labels(x.id);
    var current := IdentityOf(x);
    SeenByOwnItem(expected, readings, labels, n, x, current);
    var since := StreakStart(expected, readings, labels, n, x, t, stable);
    StreakIsLongest(expected, readings, labels, n, x, t, stable);
    hide Remembers, Sane;
    forall b ensures Remembers(expected, readings, labels, n, Tally(stable, identity, t.seen + {x.id}, b)) {
      var u := Tally(stable, identity, t.seen + {x.id}, b);
      OthersRemembered(expected, readings, labels, n, x, t, u);
    }
  }

  /** The remembered time is the time of a poll since which the container has been ready. */
  lemma StreakStart(expected: map<string, Expectation>, readings: Readings, labels: string -> Option<string>,
                    n: nat, x: Item, t: Tally, stable: map<string, int>) returns (p: nat)
    requires readings(n).Seen? && x.state.Some? && x.id !in t.seen
    requires Truthful(expected, readings, labels, n, t) && SeenReady(expected, readings, n, x.id, IdentityOf(x))
    requires var keep := x.id in t.identity && t.identity[x.id] == IdentityOf(x) && x.id in t.stable;
             if keep then stable == t.stable else stable == t.stable[x.id := readings(n).now]
    ensures p <= n && readings(p).Seen? && readings(p).now == stable[x.id]
    ensures ReadySince(expected, readings, p, n, x.id, IdentityOf(x))
  {
    hide SeenReady;
    if x.id in t.identity && t.identity[x.id] == IdentityOf(x) && x.id in t.stable {
      p :| p <= n && readings(p).Seen? && readings(p).now == t.stable[x.id]
           && ReadySince(expected, readings, p, n - 1, x.id, t.identity[x.id]);
    } else {
      p := n;
    }
  }

  /** And no longer streak of readiness has been forgotten. */
  lemma StreakIsLongest(expected: map<string, Expectation>, readings: Readings, labels: string -> Option<string>,
                        n: nat, x: Item, t: Tally, stable: map<string, int>)
    requires readings(n).Seen? && x in readings(n).items && x.state.Some? && x.id !in t.seen && Sane(readings, labels)
    requires Remembers(expected, readings, labels, n, t) && SeenReady(expected, readings, n, x.id, IdentityOf(x))
    requires var keep := x.id in t.identity && t.identity[x.id] == IdentityOf(x) && x.id in t.stable;
             if keep then stable == t.stable else stable == t.stable[x.id := readings(n).now]
    ensures forall p: nat, identity :: p <= n && ReadySince(expected, readings, p, n, x.id, identity) ==>
              identity == IdentityOf(x) && readings(p).Seen? && stable[x.id] <= readings(p).now
  {
    forall p: nat, identity | p <= n && ReadySince(expected, readings, p, n, x.id, identity)
      ensures identity == IdentityOf(x) && readings(p).Seen? && stable[x.id] <= readings(p).now
    {
      SeenByOwnItem(expected, readings, labels, n, x, identity);
      assert SeenReady(expected, readings, n, x.id, identity) && SeenReady(expected, readings, p, x.id, identity);
      if p < n {
        assert Known(t, x.id, n) == n - 1 && ReadySince(expected, readings, p, Known(t, x.id, n), x.id, identity);
      } else {
        var since := StreakStart(expected, readings, labels, n, x, t, stable);
        assert readings(since).now <= readings(n).now;
      }
    }
  }

  lemma OthersRemembered(expected: map<string, Expectation>, readings: Readings, labels: string -> Option<string>,
                         n: nat, x: Item, t: Tally, u: Tally)
    requires Remembers(expected, readings, labels, n, t) && x.id !in t.seen && u.seen == t.seen + {x.id}
    requires forall id :: id != x.id ==> (id in u.stable <==> id in t.stable) && (id in u.identity <==> id in t.identity)
    requires forall id :: id != x.id && id in t.stable ==> u.stable[id] == t.stable[id]
    requires forall id :: id != x.id && id in t.identity ==> u.identity[id] == t.identity[id]
    requires x.id in u.stable && x.id in u.identity && labels(x.id).Some? && labels(x.id).value in expected
    requires !expected[labels(x.id).value].oneShot
    requires exists p: nat :: p <= n && readings(p).Seen? && readings(p).now == u.stable[x.id]
                              && ReadySince(expected, readings, p, n, x.id, u.identity[x.id])
    requires forall p: nat, identity :: p <= n && ReadySince(expected, readings, p, n, x.id, identity) ==>
               identity == u.identity[x.id] && readings(p).Seen? && u.stable[x.id] <= readings(p).now
    ensures Remembers(expected, readings, labels, n, u)
  {
    hide Truthful, Complete, ReadySince;
    OthersTruthful(expected, readings, labels, n, x, t, u);
    OthersComplete(expected, readings, n, x, t, u);
  }

  lemma OthersTruthful(expected: map<string, Expectation>, readings: Readings, labels: string -> Option<string>,
                       n: nat, x: Item, t: Tally, u: Tally)
    requires Truthful(expected, readings, labels, n, t)
    requires x.id !in t.seen && u.seen == t.seen + {x.id}
    requires forall id :: id != x.id ==> (id in u.stable <==> id in t.stable) && (id in u.identity <==> id in t.identity)
    requires forall id :: id != x.id && id in t.stable ==> u.stable[id] == t.stable[id]
    requires forall id :: id != x.id && id in t.identity ==> u.identity[id] == t.identity[id]
    requires x.id in u.stable && x.id in u.identity && labels(x.id).Some? && labels(x.id).value in expected
    requires !expected[labels(x.id).value].oneShot
    requires exists p: nat :: p <= n && readings(p).Seen? && readings(p).now == u.stable[x.id]
                              && ReadySince(expected, readings, p, n, x.id, u.identity[x.id])
    ensures Truthful(expected, readings, labels, n, u)
  {
    hide ReadySince;
    assert forall id :: id != x.id ==> Known(u, id, n) == Known(t, id, n);
  }

  lemma OthersComplete(expected: map<string, Expectation>, readings: Readings, n: nat, x: Item, t: Tally, u: Tally)
    requires Complete(expected, readings, n, t)
    requires x.id !in t.seen && u.seen == t.seen + {x.id}
    requires forall id :: id != x.id ==> (id in u.stable <==> id in t.stable) && (id in u.identity <==> id in t.identity)
    requires forall id :: id != x.id && id in t.stable ==> u.stable[id] == t.stable[id]
    requires forall id :: id != x.id && id in t.identity ==> u.identity[id] == t.identity[id]
    requires x.id in u.stable && x.id in u.identity
    requires forall p: nat, identity :: p <= n && ReadySince(expected, readings, p, n, x.id, identity) ==>
               identity == u.identity[x.id] && readings(p).Seen? && u.stable[x.id] <= readings(p).now
    ensures Complete(expected, readings, n, u)
  {
    hide ReadySince;
    assert forall id :: id != x.id ==> Known(u, id, n) == Known(t, id, n);
  }

  // ---- One poll ---------------------------------------------------------------------

  lemma {:induction false} OfOnce(items: seq<Item>, service: string)
    requires EachOnce(items)
    ensures EachOnce(Of(items, service))
  {
    if items != [] {
      assert EachOnce(items[1..]);
      OfOnce(items[1..], service);
      OfMembers(items[1..], service);
      var rest := Of(items[1..], service);
      forall k | 0 <= k < |rest| ensures rest[k].id != items[0].id {
        assert rest[k] in items[1..];
      }
    }
  }

  /** One service of the poll at `n` is complete and settled. */
  ghost predicate ServiceSettled(expected: map<string, Expectation>, readings: Readings, n: nat, service: string, stableFor: int)
    requires readings(n).Seen? && service in expected
  {
    && |Of(readings(n).items, service)| == expected[service].replicas
    && forall x :: x in Of(readings(n).items, service) ==> Settled(expected, readings, n, expected[service], x, stableFor)
  }

  /** The loop over the containers of one service. */
  method WeighService(expected: map<string, Expectation>, ghost readings: Readings, ghost labels: string -> Option<string>,
                      ghost n: nat, service: string, items: seq<Item>, now: int, t: Tally, stableFor: int)
    returns (r: Verdict)
    requires service in expected && readings(n) == Seen(items, now) && Sane(readings, labels)
    requires Remembers(expected, readings, labels, n, t)
    requires forall x :: x in Of(items, service) ==> x.id !in t.seen
    ensures r.Rejected? <==> exists x :: x in Of(items, service) && Fatal(expected[service], x)
    ensures r.Fine? ==>
              && Remembers(expected, readings, labels, n, r.tally)
              && (forall id :: id in r.tally.seen <==> id in t.seen || exists x :: x in Of(items, service) && x.id == id)
              && (r.tally.ready <==> t.ready && ServiceSettled(expected, readings, n, service, stableFor))
  {
    hide Remembers, Settled, Fatal, Of;
    var group := Of(items, service);
    OfMembers(items, service);
    OfOnce(items, service);
    hide Sane, EachOnce;
    var u := t;
    if |group| != expected[service].replicas {
      u := u.(ready := false);
      ReadinessIsNotMemory(expected, readings, labels, n, t, false);
    }
    for j := 0 to |group|
      invariant Remembers(expected, readings, labels, n, u)
      invariant forall id :: id in u.seen <==> id in t.seen || exists k :: 0 <= k < j && group[k].id == id
      invariant forall k :: 0 <= k < j ==> !Fatal(expected[service], group[k])
      invariant u.ready <==> t.ready && |group| == expected[service].replicas
                             && forall k :: 0 <= k < j ==> Settled(expected, readings, n, expected[service], group[k], stableFor)
    {
      assert group[j] in group;
      r := Weigh(expected, readings, labels, n, service, group[j], now, u, stableFor);
      if r.Rejected? {
        return;
      }
      u := r.tally;
    }
    r := Fine(u);
  }

  lemma ReadinessIsNotMemory(expected: map<string, Expectation>, readings: Readings, labels: string -> Option<string>,
                             n: nat, t: Tally, b: bool)
    requires Remembers(expected, readings, labels, n, t)
    ensures Remembers(expected, readings, labels, n, t.(ready := b))
  {
    hide ReadySince;
    assert forall id :: Known(t.(ready := b), id, n) == Known(t, id, n);
  }

  /** The loop over the services, in any order. */
  method WeighAll(expected: map<string, Expectation>, ghost readings: Readings, ghost labels: string -> Option<string>,
                  ghost n: nat, items: seq<Item>, now: int, stable: map<string, int>, identity: map<string, Identity>, stableFor: int)
    returns (r: Verdict)
    requires readings(n) == Seen(items, now) && Sane(readings, labels)
    requires Remembers(expected, readings, labels, n, Tally(stable, identity, {}, true))
    ensures r.Rejected? <==> FatalPoll(expected, readings(n))
    ensures r.Fine? ==>
              && Remembers(expected, readings, labels, n, r.tally)
              && (forall id :: id in r.tally.seen <==>
                    exists x :: x in items && x.id == id && x.service.Some? && x.service.value in expected)
              && (r.tally.ready <==> RealWindow(expected, readings, n, stableFor))
  {
    hide Remembers, Settled, Fatal;
    var t := Tally(stable, identity, {}, true);
    var todo := expected.Keys;
    while todo != {}
      invariant todo <= expected.Keys
      invariant Remembers(expected, readings, labels, n, t)
      invariant forall id :: id in t.seen <==>
                  exists x :: x in items && x.id == id && x.service.Some? && x.service.value in expected.Keys - todo
      invariant forall x :: x in items && x.service.Some? && x.service.value in expected.Keys - todo ==>
                  !Fatal(expected[x.service.value], x)
      invariant t.ready <==> forall service :: service in expected.Keys - todo ==>
                                ServiceSettled(expected, readings, n, service, stableFor)
    {
      var service :| service in todo;
      OfMembers(items, service);
      GroupIsUnseen(items, service, t.seen, expected.Keys - todo);
      todo := todo - {service};
      r := WeighService(expected, readings, labels, n, service, items, now, t, stableFor);
      if r.Rejected? {
        return;
      }
      t := r.tally;
    }
    assert forall service :: service in expected.Keys - todo <==> service in expected;
    assert RealWindow(expected, readings, n, stableFor) <==>
           forall service :: service in expected ==> ServiceSettled(expected, readings, n, service, stableFor);
    r := Fine(t);
  }

  lemma GroupIsUnseen(items: seq<Item>, service: string, seen: set<string>, done: set<string>)
    requires EachOnce(items) && service !in done
    requires forall id :: id in seen <==> exists x :: x in items && x.id == id && x.service.Some? && x.service.value in done
    ensures forall x :: x in items && x.service == Some(service) ==> x.id !in seen
  {
    forall x | x in items && x.service == Some(service) ensures x.id !in seen {
      OnlyOne(items, x);
    }
  }

  // ---- The loop ------------------------------------------------------------------------

  /** Containers that were not seen are forgotten. */
  lemma ForgettingIsRight(expected: map<string, Expectation>, readings: Readings, labels: string -> Option<string>, n: nat, t: Tally)
    requires readings(n).Seen? && Sane(readings, labels) && Remembers(expected, readings, labels, n, t)
    requires forall id :: id in t.seen <==>
               exists x :: x in readings(n).items && x.id == id && x.service.Some? && x.service.value in expected
    ensures var kept := map id | id in t.stable && id in t.seen :: t.stable[id];
            var identity := map id | id in t.identity && (id in t.seen || id !in t.stable) :: t.identity[id];
            Remembers(expected, readings, labels, n + 1, Tally(kept, identity, {}, true))
  {
    hide Sane, IsReady;
    var kept := map id | id in t.stable && id in t.seen :: t.stable[id];
    var identity := map id | id in t.identity && (id in t.seen || id !in t.stable) :: t.identity[id];
    var u := Tally(kept, identity, {}, true);
    forall id, p: nat, i | p <= n && ReadySince(expected, readings, p, n, id, i) ensures id in t.seen {
      assert SeenReady(expected, readings, n, id, i);
    }
    assert forall id :: id in t.seen ==> Known(t, id, n) == n == Known(u, id, n + 1);
  }

  /**
   * `verifyReadiness` of the source, cancelled at the latest after `patience` polls. It accepts if and
   * only if some poll completes a real window before any poll shows a fatal state.
   */
  method VerifyReadiness(expected: map<string, Expectation>, readings: Readings, patience: nat, stableFor: int,
                         ghost labels: string -> Option<string>)
    returns (ok: bool)
    requires Sane(readings, labels)
    ensures ok <==>
            && expected != map[]
            && exists n: nat :: n <= patience && RealWindow(expected, readings, n, stableFor)
                                && forall q: nat :: q <= n ==> !FatalPoll(expected, readings(q))
  {
    hide Sane, FatalPoll, RealWindow, Remembers;
    if expected == map[] {
      return false;
    }
    var stable: map<string, int>, identity: map<string, Identity> := map[], map[];
    NothingRemembered(expected, readings, labels);
    for n := 0 to patience + 1
      invariant Remembers(expected, readings, labels, n, Tally(stable, identity, {}, true))
      invariant forall q: nat :: q < n ==> !FatalPoll(expected, readings(q)) && !RealWindow(expected, readings, q, stableFor)
    {
      var poll := readings(n);
      if !poll.Seen? {
        NoPollIsFatal(expected, poll);
        return false;
      }
      var r := WeighAll(expected, readings, labels, n, poll.items, poll.now, stable, identity, stableFor);
      if r.Rejected? {
        return false;
      }
      if r.tally.ready {
        return true;
      }
      ForgettingIsRight(expected, readings, labels, n, r.tally);
      var t := r.tally;
      stable := map id | id in t.stable && id in t.seen :: t.stable[id];
      identity := map id | id in t.identity && (id in t.seen || id !in t.stable) :: t.identity[id];
    }
    return false;
  }

  lemma NothingRemembered(expected: map<string, Expectation>, readings: Readings, labels: string -> Option<string>)
    ensures Remembers(expected, readings, labels, 0, Tally(map[], map[], {}, true))
  {
  }

  lemma NoPollIsFatal(expected: map<string, Expectation>, poll: Poll)
    requires !poll.Seen?
    ensures FatalPoll(expected, poll)
  {
  }
}
