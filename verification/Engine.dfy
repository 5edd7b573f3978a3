/**
 * The Docker Engine and the job store as the replacement workers see them. Both survive a
 * worker crash. Every call may succeed, fail without effect, or take effect and lose its response.
 */
module Engine {
  import opened Strings

  type Id = nat
  type Config = string
  type Endpoint = string

  datatype Status = Created | Running | Exited(code: int)

  /** What inspection reports; `config` stands for all configuration that is compared as a whole. */
  datatype Container = Container(
    name: string, image: string, config: Config, endpoints: map<string, Endpoint>, status: Status)

  /**
   * The containers, with the status the last call left each in. `next` is the identity of the next
   * created container; identities are never reused.
   */
  datatype State = State(containers: map<Id, Container>, next: Id)

  /** Exit codes of the containers that have exited by themselves since they were left running. */
  type Exits = map<Id, int>

  datatype Call =
    | Create(container: Container)
    | Start(id: Id)
    | Stop(id: Id)
    | Rename(id: Id, name: string)
    | Disconnect(id: Id, network: string)
    | Connect(id: Id, network: string, endpoint: Endpoint)
    | Remove(id: Id, force: bool)

  predicate Taken(e: State, name: string) {
    exists id :: id in e.containers && e.containers[id].name == name
  }

  predicate Addressed(e: State, c: Call) {
    c.Create? || c.id in e.containers
  }

  /** The container as inspection shows it. */
  function Observed(e: State, x: Exits, id: Id): Container
    requires id in e.containers
  {
    if id in x then e.containers[id].(status := Exited(x[id])) else e.containers[id]
  }

  predicate Runs(e: State, x: Exits, id: Id) {
    id in e.containers && Observed(e, x, id).status.Running?
  }

  predicate Legal(e: State, x: Exits, c: Call) {
    Addressed(e, c) &&
    match c
    case Create(container) => !Taken(e, container.name)
    case Start(_) => true
    case Stop(_) => true
    case Rename(_, name) => !Taken(e, name)
    case Disconnect(id, network) => network in e.containers[id].endpoints
    case Connect(id, network, _) => network !in e.containers[id].endpoints
    case Remove(id, force) => force || !Runs(e, x, id)
  }

  /** The container a legal call leaves behind (for calls that neither create nor remove one). */
  function Changed(e: State, x: Exits, c: Call, exit: int): Container
    requires !c.Create? && c.id in e.containers
  {
    var was := e.containers[c.id];
    match c
    case Start(_) => was.(status := Running)
    case Stop(_) => was.(status := if Runs(e, x, c.id) then Exited(exit) else Observed(e, x, c.id).status)
    case Rename(_, name) => was.(name := name)
    case Disconnect(_, network) => was.(endpoints := was.endpoints - {network})
    case Connect(_, network, endpoint) => was.(endpoints := was.endpoints[network := endpoint])
    case _ => was
  }

  function Put(e: State, id: Id, x: Container): State {
    e.(containers := e.containers[id := x])
  }

  function Drop(e: State, id: Id): State {
    e.(containers := e.containers - {id})
  }

  function Apply(e: State, x: Exits, c: Call, exit: int): State
    requires Legal(e, x, c)
  {
    match c
    case Create(container) => State(e.containers[e.next := container.(status := Created)], e.next + 1)
    case Remove(id, _) => Drop(e, id)
    case _ => Put(e, c.id, Changed(e, x, c, exit))
  }

  /** A container that is started, stopped or removed is no longer one that exited by itself. */
  function Settled(x: Exits, c: Call): Exits {
    if c.Start? || c.Stop? || c.Remove? then x - {c.id} else x
  }

  ghost predicate Consistent(e: State) {
    && (forall id :: id in e.containers ==> id < e.next)
    && forall a, b :: a in e.containers && b in e.containers && a != b ==> e.containers[a].name != e.containers[b].name
  }

  /** Only what was left running exits by itself. */
  ghost predicate ExitsFit(e: State, x: Exits) {
    forall id :: id in x ==> id in e.containers && e.containers[id].status.Running?
  }

  /** No call makes two containers share a name. */
  lemma NamesStayUnique(e: State, x: Exits, c: Call, exit: int)
    requires Consistent(e) && Legal(e, x, c)
    ensures Consistent(Apply(e, x, c, exit))
  {
  }

  // ---- Answers -------------------------------------------------------------

  datatype Health = NoHealth | Starting | Healthy | Unhealthy

  /** How the outside world answers one call of the worker. */
  datatype Answer = Answer(
    exits: Exits,    // containers that exit by themselves before the call
    done: bool,      // the call takes effect (if it is legal)
    heard: bool,     // and its response arrives
    expired: bool,   // the worker's context is cancelled or past its deadline
    exit: int,       // exit code of a container that the call stops
    steady: bool,    // the inspected container is neither paused, restarting nor killed for memory
    health: Health,
    settled: bool,   // it has been running for the settling time
    patience: nat)   // polls that a readiness deadline set by this call allows after the first

  /** A call that works, while containers stay up and none is unhealthy; those that are `brief` have done their work and exited. */
  predicate Fine(a: Answer, brief: set<Id>) {
    a.exits == (map id | id in brief :: 0) && a.done && a.heard && !a.expired && a.steady && !a.health.Unhealthy?
  }

  /** A running container that is looked at has become healthy, if it is to, and has settled. */
  predicate Ripe(a: Answer) { (a.health.NoHealth? || a.health.Healthy?) && a.settled }

  /** Of the polls that the deadline set by call `n` allows, at least one finds the container ripe. */
  ghost predicate Patient(script: nat -> Answer, n: nat) {
    exists k: nat :: RipeAt(script, n, k)
  }

  predicate RipeAt(script: nat -> Answer, n: nat, k: nat) {
    k <= script(n).patience && Ripe(script(n + 1 + k))
  }

  datatype Reply = Done(id: Id) | Missing | Failed(expired: bool)

  function Effect(e: State, x: Exits, c: Call, a: Answer): State {
    if a.done && Legal(e, x, c) then Apply(e, x, c, a.exit) else e
  }

  function Response(e: State, x: Exits, c: Call, a: Answer): Reply {
    if !a.done || !a.heard then Failed(a.expired)
    else if !Addressed(e, c) then Missing
    else if !Legal(e, x, c) then Failed(a.expired)
    else Done(if c.Create? then e.next else c.id)
  }

  /** What a look at a container finds out about its state. */
  datatype Observation = Observation(status: Status, steady: bool, health: Health, settled: bool)

  function Shown(s: Seen, a: Answer): Observation
    requires s.Found?
  {
    Observation(s.container.status, a.steady, a.health, a.settled)
  }

  function Noted(seen: map<Id, Observation>, id: Id, s: Seen, a: Answer): map<Id, Observation> {
    if s.Found? then seen[id := Shown(s, a)] else seen
  }

  datatype Seen = Found(container: Container) | NotFound | Unavailable(expired: bool)

  function Inspection(e: State, x: Exits, id: Id, a: Answer): Seen {
    if !a.done || !a.heard then Unavailable(a.expired)
    else if id in e.containers then Found(Observed(e, x, id))
    else NotFound
  }

  /** Any running container may exit by itself at any moment. */
  function Drift(e: State, x: Exits, a: Answer): (r: Exits)
    ensures a.exits == map[] ==> r == x
    ensures forall id :: id in x ==> id in r
  {
    x + map id | id in a.exits && Runs(e, x, id) :: a.exits[id]
  }

  /** The exits after `k` calls from the `n`-th on that do nothing to the Engine. */
  function ExitsAt(e: State, x: Exits, script: nat -> Answer, n: nat, k: nat): Exits {
    if k == 0 then x else Drift(e, ExitsAt(e, x, script, n, k - 1), script(n + k - 1))
  }

  // ---- Polling until a deadline -------------------------------------------------

  /** Verdicts of polls, one after the other; none says to go on waiting. */
  type Polls = nat -> Option<bool>

  /** Within `limit` further polls one says yes, and none before it says no. */
  ghost predicate Passes(polls: Polls, limit: nat) {
    exists k: nat :: k <= limit && PassesAt(polls, k)
  }

  ghost predicate PassesAt(polls: Polls, k: nat) { polls(k) == Some(true) && Waited(polls, k) }

  ghost predicate Waited(polls: Polls, k: nat) {
    forall j: nat :: j < k ==> polls(j) == None
  }

  lemma WaitsOrEnds(polls: Polls, limit: nat, k: nat)
    requires Waited(polls, k) && k <= limit
    ensures match polls(k)
            case Some(v) => Passes(polls, limit) <==> v
            case None => Waited(polls, k + 1) && (k == limit ==> !Passes(polls, limit))
  {
    if polls(k) == Some(true) {
      assert PassesAt(polls, k);
    }
  }

  /** Polls of which none says no, and one within the limit says yes. */
  lemma PassesIfNoneFails(polls: Polls, limit: nat, k: nat)
    requires (forall j: nat :: j <= k ==> polls(j) != Some(false)) && polls(k) == Some(true) && k <= limit
    ensures Passes(polls, limit)
  {
    if j: nat :| j < k && polls(j) != None {
      var found := polls(j);
      match found {
        case Some(yes) =>
          assert yes;
          PassesIfNoneFails(polls, limit, j);
        case None =>
      }
    } else {
      assert PassesAt(polls, k);
    }
  }

  /** What a fine answer makes of the exits: every brief container that is running ends. */
  function Rest(e: State, x: Exits, brief: set<Id>): Exits {
    x + map id | id in brief && Runs(e, x, id) :: 0
  }

  lemma FineIsRest(e: State, x: Exits, brief: set<Id>)
    ensures forall a :: Fine(a, brief) ==> Drift(e, x, a) == Rest(e, x, brief)
    ensures Rest(e, Rest(e, x, brief), brief) == Rest(e, x, brief)
  {
    forall a | Fine(a, brief) ensures Drift(e, x, a) == Rest(e, x, brief) {
      assert a.exits.Keys == brief;
    }
  }

  // ---- The host ------------------------------------------------------------

  datatype Outcome = NotNeeded | Skipped | Unchanged | Verified | Reconciled | RolledBack | RecoveryRequired

  datatype JobStatus = Active | Finished(outcome: Outcome)

  /** Everything that outlives a worker, and what the last look at each container found out. */
  datatype World<P> = World(engine: State, exits: Exits, saved: P, status: JobStatus, seen: map<Id, Observation>)

  /** The world after the exits that precede a call. */
  function Aged<P>(w: World<P>, a: Answer): World<P> {
    w.(exits := Drift(w.engine, w.exits, a))
  }

  ghost predicate Possible<P>(w: World<P>) {
    Consistent(w.engine) && ExitsFit(w.engine, w.exits)
  }

  lemma CallIsPossible<P>(w: World<P>, c: Call, exit: int)
    requires Possible(w) && Legal(w.engine, w.exits, c)
    ensures Possible(w.(engine := Apply(w.engine, w.exits, c, exit), exits := Settled(w.exits, c)))
  {
    NamesStayUnique(w.engine, w.exits, c, exit);
  }

  /**
   * `history` holds every world a crash could leave behind: each call first lets time pass, and then
   * appends the world it produced.
   */
  class Host<P> {
    const script: nat -> Answer
    var calls: nat
    var engine: State
    var exits: Exits
    var saved: P
    var status: JobStatus
    var seen: map<Id, Observation>
    var history: seq<World<P>>
    /** The last request to the store of jobs that was not heard to succeed. */
    var refused: Option<nat>

    function Now(): World<P>
      reads this
    {
      World(engine, exits, saved, status, seen)
    }

    ghost predicate Valid()
      reads this
    {
      && |history| > 0 && history[|history| - 1] == Now()
      && forall k :: 0 <= k < |history| ==> Possible(history[k])
    }

    /** A host as a worker finds it: statuses as they are, nothing looked at. */
    constructor (script: nat -> Answer, engine: State, saved: P, status: JobStatus)
      requires Consistent(engine)
      ensures this.script == script && calls == 0 && Now() == World(engine, map[], saved, status, map[])
      ensures Valid() && history == [Now()] && refused.None?
    {
      this.script, this.calls := script, 0;
      this.engine, this.exits, this.saved, this.status := engine, map[], saved, status;
      this.seen, this.refused := map[], None;
      this.history := [World(engine, map[], saved, status, map[])];
    }

    /** The host as the next worker finds it, when the last one was lost at the end of `past`. */
    constructor After(script: nat -> Answer, past: seq<World<P>>)
      requires |past| > 0 && forall k :: 0 <= k < |past| ==> Possible(past[k])
      ensures this.script == script && calls == 0 && history == past && Now() == past[|past| - 1] && Valid() && refused.None?
    {
      var w := past[|past| - 1];
      this.script, this.calls := script, 0;
      this.engine, this.exits, this.saved, this.status, this.seen := w.engine, w.exits, w.saved, w.status, w.seen;
      this.history, this.refused := past, None;
    }

    /** The exits before a call. */
    method Pass()
      requires Valid()
      modifies this`exits, this`history
      ensures Valid()
      ensures exits == Drift(engine, old(exits), script(calls))
      ensures history == old(history) + [Aged(old(Now()), script(calls))]
    {
      exits := Drift(engine, exits, script(calls));
      history := history + [Now()];
    }

    method Do(c: Call) returns (r: Reply)
      requires Valid()
      modifies this`calls, this`engine, this`exits, this`history
      ensures Valid() && calls == old(calls) + 1
      ensures var a := script(old(calls)); var x := Drift(old(engine), old(exits), a);
              && engine == Effect(old(engine), x, c, a)
              && exits == (if a.done && Legal(old(engine), x, c) then Settled(x, c) else x)
              && r == Response(old(engine), x, c, a)
              && history == old(history) + [Aged(old(Now()), a)] + [Now()]
    {
      hide Possible, Apply, Settled, Drift, Legal;
      Pass();
      assert Possible(Now());
      var a := script(calls);
      r := Response(engine, exits, c, a);
      if a.done && Legal(engine, exits, c) {
        CallIsPossible(Now(), c, a.exit);
        engine, exits := Apply(engine, exits, c, a.exit), Settled(exits, c);
      }
      calls := calls + 1;
      history := history + [Now()];
    }

    /** A look at a container; `moved` tells that it has exited since it was left running. */
    method Inspect(id: Id) returns (s: Seen, moved: bool, a: Answer)
      requires Valid()
      modifies this`calls, this`exits, this`seen, this`history
      ensures Valid() && calls == old(calls) + 1 && a == script(old(calls))
      ensures exits == Drift(engine, old(exits), a)
      ensures s == Inspection(engine, exits, id, a) && (moved <==> s.Found? && id in exits)
      ensures seen == Noted(old(seen), id, s, a)
      ensures history == old(history) + [Aged(old(Now()), a)] + [Now()]
    {
      Pass();
      a := script(calls);
      s := Inspection(engine, exits, id, a);
      moved := s.Found? && id in exits;
      seen := Noted(seen, id, s, a);
      calls := calls + 1;
      history := history + [Now()];
    }

    /** A durable write of the worker's record; a finished job takes none. */
    method Save(p: P) returns (ok: bool)
      requires Valid()
      modifies this`calls, this`exits, this`saved, this`history, this`refused
      ensures Valid() && calls == old(calls) + 1 && refused == (if ok then old(refused) else Some(old(calls)))
      ensures var a := script(old(calls));
              && exits == Drift(engine, old(exits), a)
              && saved == (if a.done && status == Active then p else old(saved))
              && ok == (a.done && a.heard && status == Active)
              && history == old(history) + [Aged(old(Now()), a)] + [Now()]
    {
      Pass();
      var a := script(calls);
      if a.done && status == Active { saved := p; }
      ok := a.done && a.heard && status == Active;
      if !ok { refused := Some(calls); }
      calls := calls + 1;
      history := history + [Now()];
    }

    /** The final record of the job, which is written only once. */
    method Finish(outcome: Outcome) returns (ok: bool)
      requires Valid()
      modifies this`calls, this`exits, this`status, this`history, this`refused
      ensures Valid() && calls == old(calls) + 1 && refused == (if ok then old(refused) else Some(old(calls)))
      ensures var a := script(old(calls));
              && exits == Drift(engine, old(exits), a)
              && status == (if a.done && old(status) == Active then Finished(outcome) else old(status))
              && ok == (a.done && a.heard && old(status) == Active)
              && history == old(history) + [Aged(old(Now()), a)] + [Now()]
    {
      Pass();
      var a := script(calls);
      ok := a.done && a.heard && status == Active;
      if a.done && status == Active { status := Finished(outcome); }
      if !ok { refused := Some(calls); }
      calls := calls + 1;
      history := history + [Now()];
    }

    /** A write by somebody else to what the worker has recorded. */
    method Disturb(p: P)
      requires Valid()
      modifies this`saved, this`history
      ensures Valid() && saved == p && history == old(history) + [Now()]
    {
      saved := p;
      history := history + [Now()];
    }

    /** A write of the worker to a store of its own, which is not subject to the job's status. */
    method Write(p: P) returns (ok: bool)
      requires Valid()
      modifies this`calls, this`exits, this`saved, this`history
      ensures Valid() && calls == old(calls) + 1
      ensures var a := script(old(calls));
              && exits == Drift(engine, old(exits), a)
              && saved == (if a.done then p else old(saved))
              && ok == (a.done && a.heard)
              && history == old(history) + [Aged(old(Now()), a)] + [Now()]
    {
      Pass();
      var a := script(calls);
      if a.done { saved := p; }
      ok := a.done && a.heard;
      calls := calls + 1;
      history := history + [Now()];
    }

    /** A lookup by name. */
    method InspectName(name: string) returns (s: Option<Id>, ok: bool)
      requires Valid()
      modifies this`calls, this`exits, this`history
      ensures Valid() && calls == old(calls) + 1
      ensures ok == (script(old(calls)).done && script(old(calls)).heard)
      ensures ok ==> (s.Some? <==> Taken(engine, name))
      ensures s.Some? ==> ok && s.value in engine.containers && engine.containers[s.value].name == name
      ensures exits == Drift(engine, old(exits), script(old(calls)))
      ensures history == old(history) + [Aged(old(Now()), script(old(calls)))]
    {
      Pass();
      var a := script(calls);
      ok := a.done && a.heard;
      s := None;
      if ok && Taken(engine, name) {
        var id :| id in engine.containers && engine.containers[id].name == name;
        s := Some(id);
      }
      calls := calls + 1;
    }

    /** A call whose effect is outside the model: it can only succeed or fail. */
    method Ask() returns (ok: bool, a: Answer)
      requires Valid()
      modifies this`calls, this`exits, this`history
      ensures Valid() && calls == old(calls) + 1 && a == script(old(calls))
      ensures ok == (a.done && a.heard)
      ensures exits == Drift(engine, old(exits), a)
      ensures history == old(history) + [Aged(old(Now()), a)]
    {
      Pass();
      a := script(calls);
      ok := a.done && a.heard;
      calls := calls + 1;
    }

    /** A request to the store of jobs that changes nothing the model shows. */
    method Reserve() returns (ok: bool, a: Answer)
      requires Valid()
      modifies this`calls, this`exits, this`history, this`refused
      ensures Valid() && calls == old(calls) + 1 && refused == (if ok then old(refused) else Some(old(calls)))
      ensures a == script(old(calls)) && ok == (a.done && a.heard)
      ensures exits == Drift(engine, old(exits), a)
      ensures history == old(history) + [Aged(old(Now()), a)]
    {
      ok, a := Ask();
      if !ok { refused := Some(calls - 1); }
    }
  }
}
