/**
 * Replacement of the running application by its own worker, with a database snapshot and
 * deferred recovery (internal/selfupdate/worker.go).
 */
module SelfUpdate {
  import opened Strings
  import opened Engine

  /** What the database says of the job; a failure tells whether the original was restored. */
  datatype Record = Updating | Succeeded | Failed(restored: bool)

  /** One change that an application makes to its database. */
  datatype Change = Change(author: Id, text: string)

  /** The application database: the changes made to it, and the record of this job kept inside it. */
  datatype Database = Database(log: seq<Change>, job: Record)

  /** The live database, the snapshot file beside it, and all changes that were made since the worker began. */
  datatype Files = Files(live: Database, snapshot: Option<Database>, written: seq<Change>)

  datatype Plan = Plan(oldId: Id, name: string, backupName: string, base: State, start: seq<Change>)

  /** The original runs under its own name, and the recovery name is a different one. */
  ghost predicate ValidPlan(p: Plan) {
    && Consistent(p.base)
    && p.oldId in p.base.containers
    && p.base.containers[p.oldId].name == p.name && p.base.containers[p.oldId].status.Running?
    && p.backupName != p.name
  }

  /** The original keeps everything but its name and running state. */
  ghost predicate Kept(p: Plan, c: Container)
    requires p.oldId in p.base.containers
  {
    && c == p.base.containers[p.oldId].(name := c.name, status := c.status)
    && (c.name == p.name || c.name == p.backupName)
    && !c.status.Created?
  }

  ghost predicate Replacement(p: Plan, e: State, id: Id) {
    id in e.containers && id !in p.base.containers
  }

  /**
   * Holds in every world a crash can leave behind: the original exists until the database records
   * success, other containers are untouched, and whatever else exists bears the original's name.
   */
  ghost predicate SafeState(p: Plan, e: State, job: Record)
    requires p.oldId in p.base.containers
  {
    var cs := e.containers;
    && Consistent(e) && p.base.next <= e.next
    && (if p.oldId in cs then Kept(p, cs[p.oldId]) else job.Succeeded?)
    && (forall id :: id in p.base.containers && id != p.oldId ==> id in cs && cs[id] == p.base.containers[id])
    && (forall id: Id :: Replacement(p, e, id) ==> id >= p.base.next && cs[id].name == p.name)
  }

  // ---- The original's data ---------------------------------------------------

  /** What one application wrote. */
  function Own(written: seq<Change>, id: Id): seq<Change> {
    if written == [] then []
    else
      var last := written[|written| - 1];
      Own(written[..|written| - 1], id) + if last.author == id then [last] else []
  }

  lemma {:induction false} OwnConcat(a: seq<Change>, b: seq<Change>, id: Id)
    ensures Own(a + b, id) == Own(a, id) + Own(b, id)
    decreases |b|
  {
    if b == [] {
      assert a + b == a;
    } else {
      var n := |b| - 1;
      assert (a + b)[..|a + b| - 1] == a + b[..n];
      OwnConcat(a, b[..n], id);
    }
  }

  lemma {:induction false} AllOwn(ws: seq<Change>, id: Id)
    ensures (forall c :: c in ws ==> c.author == id) ==> Own(ws, id) == ws
    ensures (forall c :: c in ws ==> c.author != id) ==> Own(ws, id) == []
  {
    if ws != [] {
      var most, last := ws[..|ws| - 1], ws[|ws| - 1];
      assert ws == most + [last] && last in ws;
      assert forall c :: c in most ==> c in ws;
      AllOwn(most, id);
    }
  }

  /** The live database holds what it held at the start and all that the original wrote since, and nothing else. */
  ghost predicate Genuine(p: Plan, f: Files) {
    f.live.log == p.start + Own(f.written, p.oldId)
  }

  /** The container has not been stopped since it was started; it may have exited by itself. */
  ghost predicate LeftRunning(e: State, id: Id) {
    id in e.containers && e.containers[id].status.Running?
  }

  /** No replacement could be writing to the database. */
  ghost predicate Inert(p: Plan, e: State) {
    forall id: Id :: Replacement(p, e, id) ==> !LeftRunning(e, id)
  }

  /**
   * Holds in every world a crash can leave behind. While there is a snapshot it holds what the original
   * has written, all of it as long as the original is down. Without one the live database does, unless a
   * replacement has been left running.
   */
  ghost predicate Preserved(p: Plan, e: State, f: Files) {
    var all := p.start + Own(f.written, p.oldId);
    && (f.snapshot.None? && Inert(p, e) ==> Genuine(p, f))
    && (f.snapshot.Some? ==> p.start <= f.snapshot.value.log <= all && (!LeftRunning(e, p.oldId) ==> f.snapshot.value.log == all))
  }

  /** A replacement may spoil the only database there is. */
  ghost predicate Exposed(p: Plan, e: State, f: Files) {
    f.snapshot.None? && !Inert(p, e)
  }

  ghost predicate Safe(p: Plan, w: World<Files>)
    requires p.oldId in p.base.containers
  {
    SafeState(p, w.engine, w.saved.live.job) && Preserved(p, w.engine, w.saved)
  }

  ghost predicate AllSafe(p: Plan, h: seq<World<Files>>)
    requires p.oldId in p.base.containers
  {
    forall k :: 0 <= k < |h| ==> Safe(p, h[k])
  }

  /** Time passing and a safe step keep every world safe. */
  lemma SafeExtends(p: Plan, h: seq<World<Files>>, a: Answer, now: World<Files>)
    requires p.oldId in p.base.containers && |h| > 0 && AllSafe(p, h) && Safe(p, now)
    ensures AllSafe(p, h + [Aged(h[|h| - 1], a)]) && AllSafe(p, h + [Aged(h[|h| - 1], a)] + [now])
  {
    hide SafeState, Preserved;
    assert Safe(p, h[|h| - 1]);
    assert Safe(p, Aged(h[|h| - 1], a));
    hide Safe;
  }

  // ---- Writing to the database ------------------------------------------------

  /** Running applications write: the original, and whatever bears its name. */
  predicate MayWrite(e: State, x: Exits, oldId: Id, name: string, id: Id) {
    Runs(e, x, id) && (id == oldId || e.containers[id].name == name)
  }

  /** Of the attempted changes those by running applications are made. */
  function Landed(e: State, x: Exits, oldId: Id, name: string, attempts: seq<Change>): (r: seq<Change>)
    ensures forall c :: c in r ==> MayWrite(e, x, oldId, name, c.author)
  {
    if attempts == [] then []
    else (if MayWrite(e, x, oldId, name, attempts[0].author) then [attempts[0]] else []) + Landed(e, x, oldId, name, attempts[1..])
  }

  function Busy(f: Files, ws: seq<Change>): Files {
    f.(live := f.live.(log := f.live.log + ws), written := f.written + ws)
  }

  /** What running applications leave unchanged: the snapshot, the job's record, and genuine data without a replacement. */
  ghost predicate Traffic(p: Plan, e: State, f0: Files, f1: Files) {
    && f1.snapshot == f0.snapshot && f1.live.job == f0.live.job
    && (Inert(p, e) && Genuine(p, f0) ==> Genuine(p, f1))
    && (!LeftRunning(e, p.oldId) ==> Own(f1.written, p.oldId) == Own(f0.written, p.oldId))
    && (Inert(p, e) && !LeftRunning(e, p.oldId) ==> f1 == f0)
  }

  lemma TrafficIsSafe(p: Plan, e: State, x: Exits, f: Files, ws: seq<Change>)
    requires ValidPlan(p) && SafeState(p, e, f.live.job) && Preserved(p, e, f)
    requires forall c :: c in ws ==> MayWrite(e, x, p.oldId, p.name, c.author)
    ensures Traffic(p, e, f, Busy(f, ws)) && Preserved(p, e, Busy(f, ws))
  {
    WhoWrites(p, e, x, f.live.job, ws);
    hide SafeState, ValidPlan, MayWrite, Own, Inert, LeftRunning, Traffic, Preserved, Busy;
    OwnConcat(f.written, ws, p.oldId);
    IsTraffic(p, e, f, ws);
    StaysPreserved(p, e, f, ws);
  }

  lemma IsTraffic(p: Plan, e: State, f: Files, ws: seq<Change>)
    requires Own(f.written + ws, p.oldId) == Own(f.written, p.oldId) + Own(ws, p.oldId)
    requires Inert(p, e) ==> Own(ws, p.oldId) == ws
    requires !LeftRunning(e, p.oldId) ==> Own(ws, p.oldId) == []
    requires Inert(p, e) && !LeftRunning(e, p.oldId) ==> ws == []
    ensures Traffic(p, e, f, Busy(f, ws))
  {
    hide Own, Inert, LeftRunning;
    if ws == [] {
      assert Busy(f, ws) == f;
    }
  }

  lemma StaysPreserved(p: Plan, e: State, f: Files, ws: seq<Change>)
    requires Own(f.written + ws, p.oldId) == Own(f.written, p.oldId) + Own(ws, p.oldId) && Preserved(p, e, f)
    requires Inert(p, e) ==> Own(ws, p.oldId) == ws
    requires !LeftRunning(e, p.oldId) ==> Own(ws, p.oldId) == []
    ensures Preserved(p, e, Busy(f, ws))
  {
    hide Own, Inert, LeftRunning;
  }

  /** The original writes only while it has been left running, and a replacement only while the world is not inert. */
  lemma WhoWrites(p: Plan, e: State, x: Exits, job: Record, ws: seq<Change>)
    requires ValidPlan(p) && SafeState(p, e, job)
    requires forall c :: c in ws ==> MayWrite(e, x, p.oldId, p.name, c.author)
    ensures Inert(p, e) ==> Own(ws, p.oldId) == ws
    ensures !LeftRunning(e, p.oldId) ==> Own(ws, p.oldId) == []
    ensures Inert(p, e) && !LeftRunning(e, p.oldId) ==> ws == []
  {
    AllOwn(ws, p.oldId);
    forall c | c in ws && c.author != p.oldId ensures !Inert(p, e) {
      assert Replacement(p, e, c.author) && LeftRunning(e, c.author);
    }
  }

  /** While the database is exposed, what a replacement writes is in it. */
  lemma ExposedIsSpoiled(p: Plan, e: State, x: Exits, f: Files, c: Change)
    requires ValidPlan(p) && SafeState(p, e, f.live.job) && Replacement(p, e, c.author) && Runs(e, x, c.author) && Genuine(p, f)
    ensures Landed(e, x, p.oldId, p.name, [c]) == [c] && !Genuine(p, Busy(f, [c]))
  {
    OwnConcat(f.written, [c], p.oldId);
    AllOwn([c], p.oldId);
  }

  lemma TrafficIsTransitive(p: Plan, e: State)
    ensures forall f :: Traffic(p, e, f, f)
    ensures forall f0, f1, f2 :: Traffic(p, e, f0, f1) && Traffic(p, e, f1, f2) ==> Traffic(p, e, f0, f2)
  {
  }

  /** An Engine change after which `Preserved` says no more than before. */
  ghost predicate Looser(p: Plan, e0: State, e1: State, f: Files) {
    && (f.snapshot.None? && Inert(p, e1) ==> Inert(p, e0))
    && (f.snapshot.Some? && !LeftRunning(e1, p.oldId) ==> !LeftRunning(e0, p.oldId))
  }

  // ---- The worker -------------------------------------------------------------

  /** The next `m` calls work and every container that is looked at is healthy. */
  ghost predicate HealthyFor(host: Host<Files>, n: nat, m: nat) {
    forall k :: n <= k < n + m ==> Fine(host.script(k), {}) && host.script(k).health.Healthy?
  }

  ghost predicate WorksFor(host: Host<Files>, n: nat, m: nat) {
    forall k :: n <= k < n + m ==> Fine(host.script(k), {})
  }

  /** All calls work, and containers that are starting become healthy within the deadlines, after however many polls. */
  ghost predicate HealthyFrom(host: Host<Files>, n: nat) {
    && (forall k :: n <= k ==> Fine(host.script(k), {}) && (host.script(k).health.Starting? || host.script(k).health.Healthy?))
    && forall k {:trigger InTime(host.script, k)} :: n <= k ==> InTime(host.script, k)
  }

  ghost predicate InTime(script: nat -> Answer, n: nat) {
    exists k: nat :: HealthyAt(script, n, k)
  }

  predicate HealthyAt(script: nat -> Answer, n: nat, k: nat) {
    k <= script(n).patience && script(n + 1 + k).health.Healthy?
  }

  lemma HealthyLater(host: Host<Files>, n: nat, m: nat)
    ensures HealthyFrom(host, n) && n <= m ==> HealthyFrom(host, m) && Fine(host.script(m), {}) && WorksFor(host, m, 4)
    ensures Fine(host.script(m), {}) ==> host.script(m).done && host.script(m).heard
  {
    hide InTime;
  }

  lemma HealthyPart(host: Host<Files>, n: nat, m: nat, k: nat, l: nat)
    ensures HealthyFor(host, n, m) && k + l <= m ==>
              HealthyFor(host, n + k, l) && WorksFor(host, n + k, l) && (l > 0 ==> Fine(host.script(n + k), {}))
    ensures Fine(host.script(n + k), {}) ==> host.script(n + k).done && host.script(n + k).heard
  {
  }

  /** One poll of `waitHealthy`. */
  function HealthOf(s: Seen, a: Answer): (r: Option<bool>)
    ensures r == Some(true) <==> s.Found? && IsHealthy(Shown(s, a))
    ensures r == None <==> s.Found? && s.container.status.Running? && a.health.Starting?
  {
    if !s.Found? || !s.container.status.Running? || a.health.NoHealth? then Some(false)
    else if a.health.Healthy? then Some(true)
    else if a.health.Unhealthy? then Some(false)
    else None
  }

  /** What the polls find, when call `n` has set the deadline. */
  function HealthPolls(id: Id, e: State, exits: Exits, script: nat -> Answer, n: nat): Polls {
    (k: nat) => HealthPoll(id, e, exits, script, n, k)
  }

  function HealthPoll(id: Id, e: State, exits: Exits, script: nat -> Answer, n: nat, k: nat): Option<bool> {
    var a := script(n + 1 + k);
    HealthOf(Inspection(e, ExitsAt(e, exits, script, n, k + 2), id, a), a)
  }

  lemma HealthPollFinds(id: Id, e: State, exits: Exits, script: nat -> Answer, n: nat, k: nat)
    ensures ExitsAt(e, exits, script, n, k + 2) == Drift(e, ExitsAt(e, exits, script, n, k + 1), script(n + 1 + k))
    ensures ExitsAt(e, exits, script, n, 1) == Drift(e, exits, script(n))
    ensures var a := script(n + 1 + k);
            HealthPolls(id, e, exits, script, n)(k) ==
            HealthOf(Inspection(e, Drift(e, ExitsAt(e, exits, script, n, k + 1), a), id, a), a)
    ensures Waited(HealthPolls(id, e, exits, script, n), 0)
  {
    hide Drift, HealthOf, Inspection;
  }

  /** When everything works, a running container passes. */
  lemma RunningPasses(host: Host<Files>, id: Id, e: State, exits: Exits, n: nat)
    requires HealthyFrom(host, n) && Runs(e, exits, id)
    ensures Passes(HealthPolls(id, e, exits, host.script, n), host.script(n).patience)
  {
    assert InTime(host.script, n);
    var k: nat :| HealthyAt(host.script, n, k);
    forall j: nat
      ensures HealthPoll(id, e, exits, host.script, n, j) != Some(false)
      ensures host.script(n + 1 + j).health.Healthy? ==> HealthPoll(id, e, exits, host.script, n, j) == Some(true)
    {
      PollOfRunning(host, id, e, exits, n, j);
    }
    PassesIfNoneFails(HealthPolls(id, e, exits, host.script, n), host.script(n).patience, k);
  }

  lemma PollOfRunning(host: Host<Files>, id: Id, e: State, exits: Exits, n: nat, k: nat)
    requires HealthyFrom(host, n) && Runs(e, exits, id)
    ensures HealthPoll(id, e, exits, host.script, n, k) == if host.script(n + 1 + k).health.Healthy? then Some(true) else None
  {
    hide Drift, InTime;
    NobodyExits(host, e, exits, n, k + 2);
    assert Fine(host.script(n + 1 + k), {});
  }

  lemma {:induction false} NobodyExits(host: Host<Files>, e: State, exits: Exits, n: nat, k: nat)
    requires HealthyFrom(host, n)
    ensures ExitsAt(e, exits, host.script, n, k) == exits
  {
    hide Drift, InTime;
    if k > 0 {
      NobodyExits(host, e, exits, n, k - 1);
      NoneExit(e, exits, host.script(n + k - 1));
    }
  }

  ghost predicate Alone(p: Plan, e: State) {
    forall id: Id :: !Replacement(p, e, id)
  }

  /** The only replacement ever started is the one whose identity is known. */
  ghost predicate OnlyOurs(p: Plan, e: State, newId: Option<Id>) {
    forall id: Id :: Replacement(p, e, id) && LeftRunning(e, id) ==> newId == Some(id)
  }

  ghost predicate OthersSame(e0: State, e1: State, id: Id) {
    e1.containers.Keys == e0.containers.Keys && forall x :: x in e0.containers && x != id ==> e1.containers[x] == e0.containers[x]
  }

  /** The test of `waitHealthy` on what a look found out. */
  predicate IsHealthy(o: Observation) { o.status.Running? && o.health.Healthy? }

  ghost predicate SeenHealthy(seen: map<Id, Observation>, id: Id) {
    id in seen && IsHealthy(seen[id])
  }

  /** At some moment since the history had length `from` the container was seen running, or even healthy. */
  ghost predicate WasSeen(h: seq<World<Files>>, from: nat, id: Id, healthy: bool) {
    exists k :: from <= k < |h| && id in h[k].seen && h[k].seen[id].status.Running? && (healthy ==> IsHealthy(h[k].seen[id]))
  }

  lemma SeenLater(h0: seq<World<Files>>, h1: seq<World<Files>>, from: nat, later: nat, id: Id, healthy: bool)
    requires h0 <= h1 && from <= later && WasSeen(h0, later, id, healthy)
    ensures WasSeen(h1, from, id, healthy)
  {
    var k :| later <= k < |h0| && id in h0[k].seen && h0[k].seen[id].status.Running? && (healthy ==> IsHealthy(h0[k].seen[id]));
    assert h1[k] == h0[k];
  }

  /**
   * Before recovery: a replacement can only exist once the original is down and the snapshot has been
   * taken, so never do two applications write to the database.
   */
  ghost predicate RecoverableFrom(p: Plan, e: State, f: Files, backupCreated: bool, newId: Option<Id>) {
    && (backupCreated ==> f.snapshot.Some? && f.snapshot.value.job.Updating? && !LeftRunning(e, p.oldId))
    && (!backupCreated ==> newId.None? && Genuine(p, f) && f.live.job.Updating? && Alone(p, e))
    && p.oldId in e.containers
    && (e.containers[p.oldId].name == p.name ==> newId.None? && Alone(p, e))
    && (newId.Some? ==> Replacement(p, e, newId.value))
  }

  lemma RecoverableInTraffic(p: Plan, e: State, f0: Files, f1: Files, backupCreated: bool, newId: Option<Id>)
    requires Traffic(p, e, f0, f1) && RecoverableFrom(p, e, f0, backupCreated, newId)
    ensures RecoverableFrom(p, e, f1, backupCreated, newId)
    ensures f1.snapshot == f0.snapshot && f1.live.job == f0.live.job
  {
    hide Genuine;
  }

  class Worker {
    const host: Host<Files>
    ghost const plan: Plan
    const oldId: Id
    const name: string
    const backupName: string
    /** What applications try to write before a given moment. */
    const attempts: nat -> seq<Change>
    var newId: Option<Id>
    var backupCreated: bool
    var committed: bool
    /** The worker has the live database open. */
    var open: bool
    /** The success was to be recorded, and the number of the first call of the recovery. */
    ghost var reported: bool
    ghost var began: nat

    constructor (host: Host<Files>, oldId: Id, name: string, backupName: string, attempts: nat -> seq<Change>)
      ensures this.host == host && this.oldId == oldId && this.name == name && this.backupName == backupName
      ensures plan == Plan(oldId, name, backupName, host.engine, host.saved.live.log)
      ensures newId == None && !backupCreated && !committed && open && !reported
    {
      this.host, this.oldId, this.name, this.backupName, this.attempts := host, oldId, name, backupName, attempts;
      this.plan := Plan(oldId, name, backupName, host.engine, host.saved.live.log);
      this.newId, this.backupCreated, this.committed, this.open, this.reported := None, false, false, true, false;
    }

    ghost predicate Valid()
      reads this, host
    {
      && ValidPlan(plan) && plan.oldId == oldId && plan.name == name && plan.backupName == backupName
      && host.Valid() && AllSafe(plan, host.history)
      && (newId.Some? ==> newId.value !in plan.base.containers)
      && OnlyOurs(plan, host.engine, newId)
    }

    ghost predicate Recoverable()
      reads this, host
    {
      RecoverableFrom(plan, host.engine, host.saved, backupCreated, newId)
    }

    lemma NowIsSafe()
      requires Valid()
      ensures SafeState(plan, host.engine, host.saved.live.job) && Preserved(plan, host.engine, host.saved)
      ensures Consistent(host.engine) && ExitsFit(host.engine, host.exits)
    {
      hide SafeState, Preserved;
      assert Safe(plan, host.history[|host.history| - 1]);
      assert Possible(host.history[|host.history| - 1]);
    }

    /** The files after what running applications write now. */
    ghost function Disturbed(): Files
      reads this, host
    {
      Busy(host.saved, Landed(host.engine, host.exits, oldId, name, attempts(|host.history|)))
    }

    /** The call numbered `n` takes effect and is heard to. */
    ghost predicate Answered(n: nat)
    {
      host.script(n).done && host.script(n).heard
    }

    ghost predicate AllAnswered(n: int, m: int)
    {
      forall k: nat :: n <= k < m ==> Answered(k)
    }

    lemma Sequences()
      ensures forall n :: AllAnswered(n, n) && AllAnswered(n, n - 1)
      ensures forall n: nat :: Answered(n) ==> AllAnswered(n, n + 1)
      ensures forall a, b, c {:trigger AllAnswered(a, b), AllAnswered(b, c)} ::
                AllAnswered(a, b) && AllAnswered(b, c) ==> AllAnswered(a, c)
    {
    }

    /** Of the `m` calls of a sequence that begins with call `n` none follows a failed one, and `calls` have been made. */
    ghost predicate Unbroken(n: nat, m: nat, calls: nat)
    {
      AllAnswered(n, if calls - 1 < n + m then calls - 1 else n + m)
    }

    /** Running applications may write to the live database before any step. */
    method Interfere()
      requires Valid()
      modifies host`saved, host`history
      ensures host.saved == old(Disturbed())
      ensures Valid() && Traffic(plan, host.engine, old(host.saved), host.saved) && old(host.history) <= host.history
    {
      hide AllSafe, SafeState, Preserved, Inert, OnlyOurs, Traffic;
      NowIsSafe();
      TrafficIsTransitive(plan, host.engine);
      var ws := Landed(host.engine, host.exits, oldId, name, attempts(|host.history|));
      NothingWritten(host.saved);
      if ws != [] {
        ghost var h := host.history;
        TrafficIsSafe(plan, host.engine, host.exits, host.saved, ws);
        host.Disturb(Busy(host.saved, ws));
        SafeGrows(plan, h, host.Now());
      }
    }

    lemma WorksHere(n: nat, m: nat)
      ensures m > 0 && WorksFor(host, n, m) ==> Fine(host.script(n), {}) && Answered(n) && WorksFor(host, n + 1, m - 1)
    {
    }

    lemma Replied(e: State, x: Exits, c: Call, a: Answer)
      ensures Response(e, x, c, a).Done? ==> a.done && a.heard
    {
    }

    lemma NothingWritten(f: Files)
      ensures Busy(f, []) == f
    {
    }

    // ---- Calls -------------------------------------------------------------------

    ghost predicate CallKeeps(c: Call, x: Exits, a: Answer)
      requires plan.oldId in plan.base.containers
      reads this, host
    {
      var e := Effect(host.engine, x, c, a);
      SafeState(plan, e, host.saved.live.job) && OnlyOurs(plan, e, newId) && Looser(plan, host.engine, e, host.saved)
    }

    /** An Engine call that is safe whenever it takes effect. */
    method Call(c: Call) returns (r: Reply)
      requires Valid()
      requires forall x: Exits, a: Answer :: ExitsFit(host.engine, x) ==> CallKeeps(c, x, a)
      modifies host`calls, host`engine, host`exits, host`saved, host`history
      ensures Valid() && host.calls == old(host.calls) + 1 && old(host.history) <= host.history
      ensures Traffic(plan, old(host.engine), old(host.saved), host.saved)
      ensures var a := host.script(old(host.calls)); var x := Drift(old(host.engine), old(host.exits), a);
              && host.engine == Effect(old(host.engine), x, c, a)
              && host.exits == (if a.done && Legal(old(host.engine), x, c) then Settled(x, c) else x)
              && r == Response(old(host.engine), x, c, a)
      ensures host.saved == old(Disturbed())
    {
      hide Disturbed, AllSafe, Drift, SafeState, OnlyOurs, Inert, Effect, Response, Legal, Settled, Consistent,
        Preserved, Looser, LeftRunning;
      ghost var a := host.script(host.calls);
      ghost var x := Drift(host.engine, host.exits, a);
      DriftFits(a);
      assert CallKeeps(c, x, a);
      Interfere();
      NowIsSafe();
      ghost var h, e := host.history, host.engine;
      TrafficMeans(plan, e, old(host.saved), host.saved);
      LooserBySnapshot(plan, e, Effect(e, x, c, a), old(host.saved), host.saved);
      LooserPreserves(plan, e, Effect(e, x, c, a), host.saved);
      r := host.Do(c);
      SafeExtends(plan, h, a, host.Now());
    }

    lemma DriftFits(a: Answer)
      requires Valid()
      ensures ExitsFit(host.engine, Drift(host.engine, host.exits, a))
    {
      hide AllSafe, SafeState, Preserved;
      NowIsSafe();
    }

    /** An Engine call on the original: renaming to one of its names, starting it, or stopping it while there is no snapshot. */
    method CallOld(c: Call) returns (r: Reply)
      requires Valid() && oldId in host.engine.containers
      requires || c == Start(oldId) || (c == Stop(oldId) && host.saved.snapshot.None?)
               || c == Rename(oldId, name) || c == Rename(oldId, backupName)
      modifies host`calls, host`engine, host`exits, host`saved, host`history
      ensures Valid() && host.calls == old(host.calls) + 1 && old(host.history) <= host.history
      ensures Traffic(plan, old(host.engine), old(host.saved), host.saved)
      ensures var a := host.script(old(host.calls)); var x := Drift(old(host.engine), old(host.exits), a);
              && host.engine == Effect(old(host.engine), x, c, a)
              && host.exits == (if a.done && Legal(old(host.engine), x, c) then Settled(x, c) else x)
              && r == Response(old(host.engine), x, c, a)
      ensures oldId in host.engine.containers && OthersSame(old(host.engine), host.engine, oldId)
      ensures host.saved == old(Disturbed())
      ensures r.Done? ==> Answered(old(host.calls))
    {
      hide Disturbed, AllSafe, Drift, SafeState, OnlyOurs, Inert, Effect, Response, Legal, Settled, Consistent,
        OthersSame, Preserved, Traffic, Looser;
      NowIsSafe();
      forall x: Exits, a: Answer | ExitsFit(host.engine, x)
        ensures CallKeeps(c, x, a) && OthersSame(host.engine, Effect(host.engine, x, c, a), oldId)
                && oldId in Effect(host.engine, x, c, a).containers
      {
        OldCallIsSafe(plan, host.engine, x, host.saved, newId, c, a);
      }
      DriftFits(host.script(host.calls));
      ghost var e0, x0, a := host.engine, host.exits, host.script(host.calls);
      r := Call(c);
      Replied(e0, Drift(e0, x0, a), c, a);
    }

    method RemoveReplacement(id: Id) returns (r: Reply)
      requires Valid() && id !in plan.base.containers && host.saved.snapshot.Some?
      modifies host`calls, host`engine, host`exits, host`saved, host`history
      ensures Valid() && host.calls == old(host.calls) + 1 && old(host.history) <= host.history
      ensures Traffic(plan, old(host.engine), old(host.saved), host.saved)
      ensures host.engine == if host.script(old(host.calls)).done then Drop(old(host.engine), id) else old(host.engine)
      ensures r.Done? ==> host.script(old(host.calls)).done
      ensures Fine(host.script(old(host.calls)), {}) && id in old(host.engine).containers ==> r.Done?
      ensures r.Done? ==> Answered(old(host.calls))
    {
      hide AllSafe, Drift, SafeState, OnlyOurs, Inert, Preserved, Traffic, Looser, LeftRunning;
      NowIsSafe();
      forall x: Exits, a: Answer ensures CallKeeps(Remove(id, true), x, a) {
        RemovingIsSafe(plan, host.engine, x, host.saved, newId, id, a);
      }
      ghost var e0, x0, a := host.engine, host.exits, host.script(host.calls);
      r := Call(Remove(id, true));
      Replied(e0, Drift(e0, x0, a), Remove(id, true), a);
      assert id !in old(host.engine).containers ==> Drop(old(host.engine), id) == old(host.engine);
    }

    /** A request to something else than the Engine. */
    method Ask() returns (ok: bool, a: Answer)
      requires Valid()
      modifies host`calls, host`exits, host`saved, host`history
      ensures Valid() && host.calls == old(host.calls) + 1 && old(host.history) <= host.history
      ensures Traffic(plan, host.engine, old(host.saved), host.saved)
      ensures a == host.script(old(host.calls)) && ok == (a.done && a.heard)
      ensures host.exits == Drift(host.engine, old(host.exits), a) && (Fine(a, {}) ==> host.exits == old(host.exits))
      ensures host.saved == old(Disturbed())
      ensures ok == Answered(old(host.calls))
    {
      hide Disturbed, AllSafe, SafeState, Drift, Inert, OnlyOurs, Preserved, Traffic;
      NoneExit(host.engine, host.exits, host.script(host.calls));
      Interfere();
      NowIsSafe();
      SafeExtends(plan, host.history, host.script(host.calls), host.Now());
      ok, a := host.Ask();
    }

    /** A look at a container. */
    method Look(id: Id) returns (s: Seen, a: Answer)
      requires Valid()
      modifies host`calls, host`exits, host`seen, host`saved, host`history
      ensures Valid() && host.calls == old(host.calls) + 1 && old(host.history) <= host.history
      ensures Traffic(plan, host.engine, old(host.saved), host.saved)
      ensures a == host.script(old(host.calls)) && s == Inspection(host.engine, host.exits, id, a)
      ensures host.exits == Drift(host.engine, old(host.exits), a) && (Fine(a, {}) ==> host.exits == old(host.exits))
      ensures host.seen == Noted(old(host.seen), id, s, a)
      ensures |host.history| > |old(host.history)| && host.history[|host.history| - 1].seen == host.seen
      ensures host.saved == old(Disturbed())
      ensures s.Found? ==> Answered(old(host.calls))
    {
      hide Disturbed, AllSafe, Drift, SafeState, Consistent, Inert, OnlyOurs, Preserved, Traffic;
      NoneExit(host.engine, host.exits, host.script(host.calls));
      Interfere();
      ghost var h := host.history;
      NowIsSafe();
      var moved;
      s, moved, a := host.Inspect(id);
      SafeExtends(plan, h, a, host.Now());
    }

    /**
     * `waitHealthy` of the source. It succeeds if and only if within the deadline a poll finds the container
     * running and healthy and those before it find it running and starting.
     */
    method WaitHealthy(id: Id) returns (ok: bool)
      requires Valid()
      modifies host`calls, host`exits, host`seen, host`saved, host`history
      ensures Valid() && host.calls >= old(host.calls) + 2 && old(host.history) <= host.history
      ensures Traffic(plan, host.engine, old(host.saved), host.saved)
      ensures ok ==> LeftRunning(host.engine, id) && SeenHealthy(host.seen, id)
      ensures ok ==> |host.history| > |old(host.history)| && host.history[|host.history| - 1].seen == host.seen
      ensures ok <==> Passes(HealthPolls(id, host.engine, old(host.exits), host.script, old(host.calls)),
                             host.script(old(host.calls)).patience)
      ensures HealthyFrom(host, old(host.calls)) && Runs(host.engine, old(host.exits), id) ==> ok
      ensures HealthyFor(host, old(host.calls), 2) && Runs(host.engine, old(host.exits), id) ==> ok && host.calls == old(host.calls) + 2
    {
      hide AllSafe, Consistent, Inert, SafeState, OnlyOurs, Preserved, Traffic, Genuine, ValidPlan, Drift, HealthPolls,
        Passes, InTime, ExitsAt, HealthyFrom;
      TrafficIsTransitive(plan, host.engine);
      ghost var n, x0, f := host.calls, host.exits, host.saved;
      HealthPollFinds(id, host.engine, x0, host.script, n, 0);
      if HealthyFrom(host, n) && Runs(host.engine, x0, id) {
        RunningPasses(host, id, host.engine, x0, n);
      }
      var _, deadline := Ask();
      ok := PollHealth(id, deadline.patience, n, x0);
    }

    /** The loop, with so many polls left after the first. */
    method PollHealth(id: Id, polls: nat, ghost n: nat, ghost x0: Exits) returns (ok: bool)
      requires Valid() && host.calls == n + 1 && host.exits == ExitsAt(host.engine, x0, host.script, n, 1)
      modifies host`calls, host`exits, host`seen, host`saved, host`history
      ensures Valid() && host.calls > n + 1 && old(host.history) <= host.history
      ensures Traffic(plan, host.engine, old(host.saved), host.saved)
      ensures ok ==> LeftRunning(host.engine, id) && SeenHealthy(host.seen, id)
      ensures ok ==> |host.history| > |old(host.history)| && host.history[|host.history| - 1].seen == host.seen
      ensures ok <==> Passes(HealthPolls(id, host.engine, x0, host.script, n), polls)
      ensures HealthyFor(host, n + 1, 1) && Runs(host.engine, old(host.exits), id) ==> ok && host.calls == n + 2
    {
      hide AllSafe, Consistent, Inert, SafeState, OnlyOurs, Preserved, Traffic, Genuine, ValidPlan, Drift, HealthPolls,
        Passes, Waited, ExitsAt, HealthOf, Inspection, Fine, LeftRunning, SeenHealthy, HealthyFor;
      TrafficIsTransitive(plan, host.engine);
      ghost var found := HealthPolls(id, host.engine, x0, host.script, n);
      HealthPollFinds(id, host.engine, x0, host.script, n, 0);
      var left := polls;
      ghost var p := 0;
      while true
        invariant Valid() && host.calls == n + 1 + p && old(host.history) <= host.history
        invariant left + p == polls && Waited(found, p)
        invariant Traffic(plan, host.engine, old(host.saved), host.saved)
        invariant host.exits == ExitsAt(host.engine, x0, host.script, n, p + 1)
        invariant p == 0 ==> host.exits == old(host.exits)
        invariant HealthyFor(host, n + 1, 1) && Runs(host.engine, old(host.exits), id) ==> p == 0
        decreases left
      {
        WaitsOrEnds(found, polls, p);
        var verdict := NextHealth(id, n, x0, p);
        if verdict.Some? {
          return verdict.value;
        }
        if left == 0 {
          return false;
        }
        left, p := left - 1, p + 1;
      }
    }

    /** The poll after `p` others since call `n`. */
    method NextHealth(id: Id, ghost n: nat, ghost x0: Exits, ghost p: nat) returns (verdict: Option<bool>)
      requires Valid() && host.calls == n + 1 + p && host.exits == ExitsAt(host.engine, x0, host.script, n, p + 1)
      modifies host`calls, host`exits, host`seen, host`saved, host`history
      ensures Valid() && host.calls == old(host.calls) + 1 && old(host.history) <= host.history
      ensures Traffic(plan, host.engine, old(host.saved), host.saved)
      ensures verdict == Some(true) ==> LeftRunning(host.engine, id) && SeenHealthy(host.seen, id)
      ensures |host.history| > |old(host.history)| && host.history[|host.history| - 1].seen == host.seen
      ensures host.exits == ExitsAt(host.engine, x0, host.script, n, p + 2)
      ensures verdict == HealthPolls(id, host.engine, x0, host.script, n)(p)
      ensures HealthyFor(host, n + 1 + p, 1) && Runs(host.engine, old(host.exits), id) ==> verdict == Some(true)
    {
      hide AllSafe, Consistent, Inert, SafeState, OnlyOurs, Preserved, Traffic, Genuine, ValidPlan, Drift, HealthPolls,
        ExitsAt;
      HealthPollFinds(id, host.engine, x0, host.script, n, p);
      var seen, a := Look(id);
      verdict := HealthOf(seen, a);
    }

    /** A write to the database file or its snapshot. */
    method Write(files: Files) returns (ok: bool)
      requires Valid() && (oldId in host.engine.containers || files.live.job.Succeeded?) && Preserved(plan, host.engine, files)
      modifies host`calls, host`exits, host`saved, host`history
      ensures Valid() && host.calls == old(host.calls) + 1 && old(host.history) <= host.history
      ensures host.saved == if host.script(old(host.calls)).done then files else old(host.saved)
      ensures ok == (host.script(old(host.calls)).done && host.script(old(host.calls)).heard)
      ensures Fine(host.script(old(host.calls)), {}) ==> host.exits == old(host.exits)
      ensures ok == Answered(old(host.calls))
    {
      hide AllSafe, Consistent, Drift, OnlyOurs, Kept, Preserved;
      NoneExit(host.engine, host.exits, host.script(host.calls));
      ghost var h := host.history;
      NowIsSafe();
      ok := host.Write(files);
      SafeExtends(plan, h, host.script(old(host.calls)), host.Now());
    }

    /** Records the outcome in the live database, which takes only the first one. */
    method RecordJob(job: Record) returns (ok: bool)
      requires Valid() && (oldId in host.engine.containers || job.Succeeded?)
      modifies host`calls, host`exits, host`saved, host`history
      ensures Valid() && host.calls == old(host.calls) + 1 && old(host.history) <= host.history
      ensures var a := host.script(old(host.calls));
              && host.saved.live.job == (if a.done && old(host.saved).live.job.Updating? then job else old(host.saved).live.job)
              && ok == (a.done && a.heard && old(host.saved).live.job.Updating?)
      ensures host.saved.snapshot == old(host.saved).snapshot
      ensures Inert(plan, host.engine) && Genuine(plan, old(host.saved)) ==> Genuine(plan, host.saved)
      ensures var a, f := host.script(old(host.calls)), old(Disturbed());
              host.saved == if a.done && old(host.saved).live.job.Updating? then f.(live := f.live.(job := job)) else f
    {
      hide Disturbed, AllSafe, Inert, SafeState, OnlyOurs;
      TrafficIsTransitive(plan, host.engine);
      if host.saved.live.job.Updating? {
        Interfere();
        NowIsSafe();
        ok := Write(host.saved.(live := host.saved.live.(job := job)));
      } else {
        var _, _ := Ask();
        ok := false;
      }
    }

    // ---- Recovery ------------------------------------------------------------------

    /** The calls from `n` on by which the snapshot becomes the live database. */
    ghost predicate SnapshotUsed(n: nat)
    {
      var a := host.script;
      a(n).done && a(n).heard && a(n + 1).done && a(n + 1).heard && a(n + 2).done
    }

    /** `restoreDatabase` and reopening: the snapshot file becomes the live database. */
    method RestoreDatabase() returns (ok: bool)
      requires Valid() && backupCreated && host.saved.snapshot.Some? && host.saved.snapshot.value.job.Updating?
      requires oldId in host.engine.containers && !LeftRunning(host.engine, oldId)
      modifies this`open, host`calls, host`exits, host`saved, host`history
      ensures Valid() && host.calls >= old(host.calls) && old(host.history) <= host.history
      ensures host.saved.live.job == if SnapshotUsed(old(host.calls)) then Updating else old(host.saved).live.job
      ensures host.saved.snapshot == if SnapshotUsed(old(host.calls)) then None else old(host.saved).snapshot
      ensures open == ok && (ok ==> SnapshotUsed(old(host.calls)))
      ensures ok && Inert(plan, host.engine) ==> Genuine(plan, host.saved)
      ensures HealthyFrom(host, old(host.calls)) ==> ok
      ensures ok ==> host.calls == old(host.calls) + 4 && AllAnswered(old(host.calls), host.calls)
    {
      Sequences();
      hide AllAnswered, Disturbed, AllSafe, Consistent, Inert, Preserved, SafeState, OnlyOurs, Genuine;
      TrafficIsTransitive(plan, host.engine);
      open := false;
      var closed, _ := Ask();
      if !closed {
        return false;
      }
      var cleared, _ := Ask();
      if !cleared {
        return false;
      }
      var renamed := UseSnapshot();
      if !renamed {
        return false;
      }
      var reopened, _ := Ask();
      open := reopened;
      return reopened;
    }

    method UseSnapshot() returns (ok: bool)
      requires Valid() && backupCreated && host.saved.snapshot.Some? && host.saved.snapshot.value.job.Updating?
      requires oldId in host.engine.containers && !LeftRunning(host.engine, oldId)
      modifies host`calls, host`exits, host`saved, host`history
      ensures Valid() && host.calls == old(host.calls) + 1 && old(host.history) <= host.history
      ensures var done := host.script(old(host.calls)).done;
              && ok == Answered(old(host.calls))
              && host.saved.live.job == (if done then Updating else old(host.saved).live.job)
              && host.saved.snapshot == (if done then None else old(host.saved).snapshot)
              && (done ==> Genuine(plan, host.saved))
      ensures var a, f := host.script(old(host.calls)), old(Disturbed());
              host.saved == if a.done then f.(live := f.snapshot.value, snapshot := None) else f
    {
      hide Disturbed, AllSafe, SafeState, OnlyOurs, Inert;
      Interfere();
      NowIsSafe();
      ok := Write(host.saved.(live := host.saved.snapshot.value, snapshot := None));
    }

    /**
     * `rollback` of the source. It goes on after failures and reports success only when there was
     * none. Success means that the Engine holds exactly the containers it held before the update, that
     * the original was seen running, and healthy if it had been down, and that the database is genuine.
     * When everything works it succeeds, even if the response to creating the replacement was lost.
     */
    method Rollback() returns (ok: bool)
      requires Valid() && Recoverable() && open
      modifies this`newId, this`open, host`calls, host`engine, host`exits, host`seen, host`saved, host`history
      ensures Valid() && host.calls >= old(host.calls) && old(host.history) <= host.history
      ensures oldId in host.engine.containers
      ensures ok ==> open && host.engine.containers == plan.base.containers && Genuine(plan, host.saved)
      ensures host.saved.live.job.Updating? || (!open && host.saved.live.job == old(host.saved).live.job)
      ensures ok ==> WasSeen(host.history, |old(host.history)|, oldId, backupCreated)
      ensures HealthyFrom(host, old(host.calls)) ==> ok
      ensures old(newId).Some? ==> newId == old(newId) && RecoveredAs(old(host.calls), old(host.engine), old(host.saved))
      ensures ok && old(newId).Some? ==> AllAnswered(old(host.calls), old(host.calls) + 8)
    {
      Sequences();
      hide AllAnswered, Answered, Disturbed, AllSafe, Consistent, SafeState, Kept, Inert, WasSeen, Genuine, Preserved,
        OnlyOurs, OthersSame, Alone, Traffic, SnapshotUsed, Exposed, RecoveredAs, LeftRunning, Fine;
      ghost var n, e0, f0 := |host.history|, host.engine, host.saved;
      NowIsSafe();
      ok := DiscardReplacement();
      ghost var e := host.engine;
      if backupCreated {
        var restored := RestoreDatabase();
        ok := ok && restored;
      }
      ghost var k, f := |host.history|, host.saved;
      NowIsSafe();
      var original := RestoreOriginal();
      ok := ok && original;
      if old(newId).Some? {
        Recovered(old(host.calls), e0, f0, e, f);
      }
      if ok {
        WholeEngineRestored();
        WholeIsInert();
        HealthyIsRunning(host.history, k);
        SeenLater(host.history, host.history, n, k, oldId, backupCreated);
      }
    }

    /** What the answers from call `n` on make of a recovery that knows the replacement. */
    ghost predicate RecoveredAs(n: nat, e0: State, f0: Files)
      requires newId.Some?
      reads this, host
    {
      var id, removed, used := newId.value, host.script(n).done, SnapshotUsed(n + 1);
      && host.saved.live.job == (if used then Updating else f0.live.job)
      && (if removed then id !in host.engine.containers
          else id in e0.containers && id in host.engine.containers && host.engine.containers[id] == e0.containers[id])
      && (Exposed(plan, host.engine, host.saved) <==> used && !removed && !Inert(plan, e0))
      && (open ==> used)
    }

    /** Removes the replacement, looking for it when its identity was never learnt. */
    method DiscardReplacement() returns (ok: bool)
      requires Valid() && Recoverable()
      modifies this`newId, host`calls, host`engine, host`exits, host`saved, host`history
      ensures Valid() && host.calls >= old(host.calls) && old(host.history) <= host.history
      ensures oldId in host.engine.containers && (host.engine.containers[oldId].name == name ==> Alone(plan, host.engine))
      ensures host.saved.snapshot == old(host.saved).snapshot && host.saved.live.job == old(host.saved).live.job
      ensures if backupCreated then !LeftRunning(host.engine, oldId) else Genuine(plan, host.saved)
      ensures ok ==> Inert(plan, host.engine)
      ensures HealthyFrom(host, old(host.calls)) ==> ok && Alone(plan, host.engine)
      ensures old(newId).Some? ==>
                && newId == old(newId) && host.calls == old(host.calls) + 1
                && host.engine == if host.script(old(host.calls)).done then Drop(old(host.engine), newId.value) else old(host.engine)
      ensures ok && old(newId).Some? ==> Answered(old(host.calls))
    {
      hide Answered, AllSafe, Consistent, SafeState, Kept, Preserved, OnlyOurs, Genuine, Inert;
      LookUpReplacement();
      ok := true;
      if newId.Some? {
        ghost var e := host.engine;
        var removed := RemoveReplacement(newId.value);
        ok := removed.Done?;
        OursIsGone(e);
      } else {
        NoneIsOurs();
      }
    }

    lemma OursIsGone(e: State)
      requires newId.Some? && OnlyOurs(plan, e, newId)
      ensures Inert(plan, Drop(e, newId.value))
      ensures Alone(plan, e) ==> Alone(plan, Drop(e, newId.value))
      ensures (forall id: Id :: Replacement(plan, e, id) ==> newId == Some(id)) ==> Alone(plan, Drop(e, newId.value))
    {
      forall id: Id ensures Replacement(plan, Drop(e, newId.value), id) <==> Replacement(plan, e, id) && newId != Some(id) {
      }
      forall id: Id | id in e.containers && newId != Some(id)
        ensures LeftRunning(Drop(e, newId.value), id) <==> LeftRunning(e, id)
      {
      }
    }

    lemma NoneIsOurs()
      requires newId.None? && OnlyOurs(plan, host.engine, newId)
      ensures Inert(plan, host.engine)
    {
    }

    /** Name, image tag and running state of the original, each attempted whatever became of the others. */
    method RestoreOriginal() returns (ok: bool)
      requires Valid() && oldId in host.engine.containers
      requires host.engine.containers[oldId].name == name ==> Alone(plan, host.engine)
      modifies host`calls, host`engine, host`exits, host`seen, host`saved, host`history
      ensures Valid() && host.calls >= old(host.calls) && old(host.history) <= host.history
      ensures oldId in host.engine.containers && OthersSame(old(host.engine), host.engine, oldId)
      ensures Undisturbed(plan, old(host.engine), old(host.saved), host.saved)
      ensures ok ==> host.engine.containers[oldId] == plan.base.containers[oldId]
      ensures ok ==> WasSeen(host.history, |old(host.history)|, oldId, !LeftRunning(old(host.engine), oldId))
      ensures HealthyFrom(host, old(host.calls)) && Alone(plan, old(host.engine)) ==> ok
      ensures ok ==> AllAnswered(old(host.calls), old(host.calls) + if old(host.engine).containers[oldId].name == name then 2 else 3)
    {
      Sequences();
      hide HealthyFrom, InTime, Fine, ValidPlan, AllAnswered, Answered, Disturbed, AllSafe, Consistent, SafeState, Kept,
        Inert, WasSeen, OnlyOurs, Genuine, Preserved, Traffic, Undisturbed, OthersSame, Alone;
      HealthyLater(host, host.calls, host.calls);
      HealthyLater(host, host.calls, host.calls + 1);
      ghost var n, e := |host.history|, host.engine;
      UndisturbedIsTransitive(plan, e);
      var seen, _ := Look(oldId);
      if !seen.Found? {
        SameItself(e, oldId);
        return false;
      }
      ghost var m := |host.history|;
      ghost var looked := host.history;
      var running := seen.container.status.Running?;
      if running {
        NowSeen(n, false);
      }
      OriginalIsKept();
      ok := PutBack(seen.container.name, running);
      if running {
        SeenLater(looked, host.history, n, n, oldId, false);
      } else if ok {
        SeenLater(host.history, host.history, n, m, oldId, true);
        HealthyIsRunning(host.history, n);
      }
    }

    /** The three attempts, for an original seen under this name, running or not. */
    method PutBack(seen: string, running: bool) returns (ok: bool)
      requires Valid() && oldId in host.engine.containers && host.engine.containers[oldId].name == seen
      requires seen == name ==> Alone(plan, host.engine)
      requires running ==> host.engine.containers[oldId].status.Running?
      modifies host`calls, host`engine, host`exits, host`seen, host`saved, host`history
      ensures Valid() && host.calls >= old(host.calls) && old(host.history) <= host.history
      ensures oldId in host.engine.containers && OthersSame(old(host.engine), host.engine, oldId)
      ensures Undisturbed(plan, old(host.engine), old(host.saved), host.saved)
      ensures ok ==> host.engine.containers[oldId] == plan.base.containers[oldId]
      ensures ok && !running ==> WasSeen(host.history, |old(host.history)|, oldId, true)
      ensures HealthyFrom(host, old(host.calls)) && Alone(plan, old(host.engine)) ==> ok
      ensures ok ==> AllAnswered(old(host.calls), old(host.calls) + if seen == name then 1 else 2)
      ensures running ==> host.calls == old(host.calls) + if seen == name then 1 else 2
    {
      Sequences();
      hide HealthyFrom, InTime, Fine, AllAnswered, Answered, Disturbed, AllSafe, Consistent, SafeState, Kept, Inert,
        WasSeen, OnlyOurs, Genuine, Preserved, Traffic, Undisturbed, Alone;
      ghost var e, n := host.engine, host.calls;
      OriginalIsKept();
      ok := Reclaim(seen);
      HealthyLater(host, n, host.calls);
      if !running {
        ghost var m, e1 := |host.history|, host.engine;
        OriginalIsKept();
        var started := RestoreRunning();
        UndisturbedIsTransitive(plan, e);
        UndisturbedElsewhere(plan, e, e1);
        ok := ok && started;
        if ok {
          SeenLater(host.history, host.history, |old(host.history)|, m, oldId, true);
        }
      }
      OriginalIsKept();
    }

    /** Name and image tag. */
    method Reclaim(seen: string) returns (ok: bool)
      requires Valid() && oldId in host.engine.containers && host.engine.containers[oldId].name == seen
      requires seen == name ==> Alone(plan, host.engine)
      modifies host`calls, host`engine, host`exits, host`saved, host`history
      ensures Valid() && host.calls == old(host.calls) + (if seen == name then 1 else 2) && old(host.history) <= host.history
      ensures oldId in host.engine.containers && OthersSame(old(host.engine), host.engine, oldId)
      ensures Undisturbed(plan, old(host.engine), old(host.saved), host.saved)
      ensures host.engine.containers[oldId] == old(host.engine).containers[oldId].(name := host.engine.containers[oldId].name)
      ensures ok ==> host.engine.containers[oldId].name == name && AllAnswered(old(host.calls), host.calls)
      ensures HealthyFrom(host, old(host.calls)) && Alone(plan, old(host.engine)) ==> ok
    {
      Sequences();
      hide HealthyFrom, InTime, Fine, AllAnswered, Answered, Disturbed, AllSafe, Consistent, SafeState, Kept, Inert,
        OnlyOurs, Genuine, Preserved, Traffic, Undisturbed, Alone;
      ghost var e, n := host.engine, host.calls;
      UndisturbedIsTransitive(plan, e);
      ok := RestoreName(seen);
      ghost var e1 := host.engine;
      UndisturbedIsTransitive(plan, e1);
      UndisturbedElsewhere(plan, e, e1);
      HealthyLater(host, n, host.calls);
      var tagged, _ := Ask();
      ok := ok && tagged;
    }

    lemma NowSeen(from: nat, healthy: bool)
      requires |host.history| > from && host.history[|host.history| - 1].seen == host.seen
      requires oldId in host.seen && host.seen[oldId].status.Running? && (healthy ==> IsHealthy(host.seen[oldId]))
      ensures WasSeen(host.history, from, oldId, healthy)
    {
    }

    lemma HealthyIsRunning(h: seq<World<Files>>, from: nat)
      ensures WasSeen(h, from, oldId, true) ==> WasSeen(h, from, oldId, false)
    {
    }

    lemma SameItself(e: State, id: Id)
      ensures OthersSame(e, e, id)
    {
    }

    lemma OriginalIsKept()
      requires Valid() && oldId in host.engine.containers
      ensures var c, o := host.engine.containers[oldId], plan.base.containers[oldId];
              c == o.(name := c.name, status := c.status) && o.name == name && o.status.Running?
      ensures Observed(host.engine, host.exits, oldId).name == host.engine.containers[oldId].name
      ensures Observed(host.engine, host.exits, oldId).status.Running? ==> host.engine.containers[oldId].status.Running?
    {
      hide AllSafe, Consistent, Preserved;
      NowIsSafe();
    }

    method RestoreName(seen: string) returns (ok: bool)
      requires Valid() && oldId in host.engine.containers && host.engine.containers[oldId].name == seen
      requires seen == name ==> Alone(plan, host.engine)
      modifies host`calls, host`engine, host`exits, host`saved, host`history
      ensures Valid() && host.calls >= old(host.calls) && OthersSame(old(host.engine), host.engine, oldId)
      ensures oldId in host.engine.containers && old(host.history) <= host.history
      ensures Undisturbed(plan, old(host.engine), old(host.saved), host.saved)
      ensures host.engine.containers[oldId] == old(host.engine).containers[oldId].(name := host.engine.containers[oldId].name)
      ensures ok ==> host.engine.containers[oldId].name == name && Alone(plan, host.engine)
      ensures HealthyFrom(host, old(host.calls)) && Alone(plan, old(host.engine)) ==> ok
      ensures host.calls == old(host.calls) + if seen == name then 0 else 1
      ensures ok ==> AllAnswered(old(host.calls), host.calls)
    {
      Sequences();
      hide AllAnswered, Answered, Disturbed, AllSafe, Drift, Preserved, Inert, Genuine, Traffic, Undisturbed, OnlyOurs;
      NowIsSafe();
      UndisturbedIsTransitive(plan, host.engine);
      ok := true;
      if seen != name {
        if Alone(plan, host.engine) {
          NameIsFree();
        }
        var renamed := CallOld(Rename(oldId, name));
        ok := renamed.Done?;
      }
      SameInert(plan, old(host.engine), host.engine);
      NowIsSafe();
    }

    lemma NameIsFree()
      requires Valid() && oldId in host.engine.containers && host.engine.containers[oldId].name != name
      requires Alone(plan, host.engine)
      ensures !Taken(host.engine, name)
    {
      hide AllSafe, Preserved;
      NowIsSafe();
      forall id | id in host.engine.containers ensures host.engine.containers[id].name != name {
        assert !Replacement(plan, host.engine, id);
      }
    }

    method RestoreRunning() returns (ok: bool)
      requires Valid() && oldId in host.engine.containers
      modifies host`calls, host`engine, host`exits, host`seen, host`saved, host`history
      ensures Valid() && host.calls >= old(host.calls) && OthersSame(old(host.engine), host.engine, oldId)
      ensures oldId in host.engine.containers && old(host.history) <= host.history
      ensures host.engine.containers[oldId] == old(host.engine).containers[oldId].(status := host.engine.containers[oldId].status)
      ensures Undisturbed(plan, old(host.engine), old(host.saved), host.saved)
      ensures ok ==> host.engine.containers[oldId].status.Running? && WasSeen(host.history, |old(host.history)|, oldId, true)
      ensures HealthyFrom(host, old(host.calls)) ==> ok
      ensures ok ==> Answered(old(host.calls))
    {
      hide AllSafe, Consistent, SafeState, Drift, Inert, Preserved, Genuine, Traffic, Undisturbed, OnlyOurs, WasSeen;
      ghost var e := host.engine;
      UndisturbedIsTransitive(plan, e);
      var started := CallOld(Start(oldId));
      UndisturbedElsewhere(plan, e, host.engine);
      UndisturbedIsTransitive(plan, host.engine);
      if !started.Done? {
        return false;
      }
      ok := WaitHealthy(oldId);
      if ok {
        NowSeen(|old(host.history)|, true);
      }
    }

    /** With the original back under its name, no replacement can exist. */
    lemma WholeEngineRestored()
      requires Valid() && oldId in host.engine.containers
      requires host.engine.containers[oldId] == plan.base.containers[oldId]
      ensures host.engine.containers == plan.base.containers
    {
      hide AllSafe, Preserved;
      NowIsSafe();
      forall id | id in host.engine.containers ensures id in plan.base.containers {
        assert !Replacement(plan, host.engine, id);
      }
    }

    lemma WholeIsInert()
      requires host.engine.containers == plan.base.containers
      ensures Inert(plan, host.engine)
    {
    }

    /** The create call may have taken effect without its response arriving. */
    method LookUpReplacement()
      requires Valid() && Recoverable()
      modifies this`newId, host`calls, host`exits, host`saved, host`history
      ensures Valid() && Recoverable() && host.calls >= old(host.calls) && old(host.history) <= host.history
      ensures host.saved.snapshot == old(host.saved).snapshot && host.saved.live.job == old(host.saved).live.job
      ensures HealthyFrom(host, old(host.calls)) ==> forall id: Id :: Replacement(plan, host.engine, id) ==> newId == Some(id)
      ensures old(newId).Some? ==> newId == old(newId) && host.calls == old(host.calls)
    {
      hide AllSafe, Drift, SafeState, OnlyOurs, Inert, Kept, Preserved, Genuine;
      AloneIsInert(plan, host.engine);
      if newId.None? {
        var found, answered := FindByName();
        if found.Some? && found.value != oldId {
          NameIsTheOriginals(found.value);
          FoundIsOurs(found.value);
          assert Replacement(plan, host.engine, found.value);
          newId := found;
        }
      }
      OnlyOneIsNamed();
    }

    lemma NameIsTheOriginals(id: Id)
      requires Valid() && id != oldId && id in host.engine.containers && host.engine.containers[id].name == name
      ensures id !in plan.base.containers
    {
      hide AllSafe, Preserved;
      NowIsSafe();
    }

    method FindByName() returns (found: Option<Id>, answered: bool)
      requires Valid()
      modifies host`calls, host`exits, host`saved, host`history
      ensures Valid() && host.calls == old(host.calls) + 1 && old(host.history) <= host.history
      ensures Traffic(plan, host.engine, old(host.saved), host.saved)
      ensures found.Some? ==> found.value in host.engine.containers && host.engine.containers[found.value].name == name
      ensures Fine(host.script(old(host.calls)), {}) ==> (found.Some? <==> Taken(host.engine, name))
    {
      hide AllSafe, Drift, SafeState, OnlyOurs, Inert, Preserved, Traffic;
      Interfere();
      NowIsSafe();
      SafeExtends(plan, host.history, host.script(host.calls), host.Now());
      found, answered := host.InspectName(name);
    }

    /** A replacement whose identity was never learnt was never started. */
    lemma FoundIsOurs(id: Id)
      requires Valid() && newId.None?
      ensures OnlyOurs(plan, host.engine, Some(id))
    {
      hide AllSafe;
    }

    lemma OnlyOneIsNamed()
      requires Valid()
      ensures forall id: Id :: Replacement(plan, host.engine, id) ==> host.engine.containers[id].name == name && Taken(host.engine, name)
      ensures forall a, b :: a in host.engine.containers && b in host.engine.containers && a != b ==>
                               host.engine.containers[a].name != host.engine.containers[b].name
      ensures oldId in host.engine.containers && host.engine.containers[oldId].name != name ==>
                host.engine.containers[oldId].name == backupName
    {
      hide AllSafe, Preserved;
      NowIsSafe();
    }

    /** From the three stages of a recovery to what it amounts to. */
    lemma Recovered(n: nat, e0: State, f0: Files, e: State, f: Files)
      requires newId.Some? && OnlyOurs(plan, e0, newId) && newId.value in e0.containers
      requires newId.value !in plan.base.containers && plan.oldId in plan.base.containers
      requires f0.snapshot.Some? && e == if host.script(n).done then Drop(e0, newId.value) else e0
      requires f.live.job == (if SnapshotUsed(n + 1) then Updating else f0.live.job)
      requires f.snapshot == (if SnapshotUsed(n + 1) then None else f0.snapshot)
      requires OthersSame(e, host.engine, plan.oldId) && host.saved.live.job == f.live.job && host.saved.snapshot == f.snapshot
      requires open ==> SnapshotUsed(n + 1)
      ensures RecoveredAs(n, e0, f0)
    {
      hide SnapshotUsed;
      SameInert(plan, e, host.engine);
      OursIsGone(e0);
      assert newId.value in e.containers.Keys <==> newId.value in host.engine.containers.Keys;
    }

    // ---- The update ------------------------------------------------------------

    method CreateReplacement(c: Container) returns (r: Reply)
      requires Valid() && Recoverable() && backupCreated && newId.None? && c.name == name
      requires oldId in host.engine.containers && host.engine.containers[oldId].name != name
      modifies this`newId, host`calls, host`engine, host`exits, host`saved, host`history
      ensures Valid() && Recoverable() && host.calls == old(host.calls) + 1 && old(host.history) <= host.history
      ensures r.Done? ==> newId == Some(r.id) && r.id in host.engine.containers && host.engine.containers[r.id] == c.(status := Created)
      ensures !r.Done? ==> newId == old(newId)
      ensures host.saved.live.job == old(host.saved).live.job
      ensures Fine(host.script(old(host.calls)), {}) && !Taken(old(host.engine), name) ==> r.Done?
      ensures r.Done? ==> Answered(old(host.calls))
    {
      hide AllSafe, SafeState, Consistent, Drift, OnlyOurs, Inert, Kept, Preserved, Looser, Genuine;
      NowIsSafe();
      forall x: Exits, a: Answer ensures CallKeeps(Create(c), x, a) {
        CreatingIsSafe(plan, host.engine, x, host.saved, newId, c, a);
      }
      ghost var e := host.engine;
      CreatingIsSafe(plan, e, host.exits, host.saved, newId, c, host.script(host.calls));
      ghost var e0, x0, a := host.engine, host.exits, host.script(host.calls);
      r := Call(Create(c));
      Replied(e0, Drift(e0, x0, a), Create(c), a);
      if r.Done? {
        CreatedIsOurs(r.id);
        newId := Some(r.id);
      }
    }

    lemma CreatedIsOurs(id: Id)
      requires Valid() && newId.None?
      ensures OnlyOurs(plan, host.engine, Some(id))
    {
      hide AllSafe;
    }

    method StartReplacement() returns (r: Reply)
      requires Valid() && Recoverable() && newId.Some? && backupCreated
      modifies host`calls, host`engine, host`exits, host`saved, host`history
      ensures Valid() && Recoverable() && host.calls == old(host.calls) + 1 && old(host.history) <= host.history
      ensures host.engine == old(host.engine) || host.engine == Started(old(host.engine), newId.value)
      ensures r.Done? ==> host.engine == Started(old(host.engine), newId.value) && newId.value !in host.exits
      ensures host.saved.live.job == old(host.saved).live.job
      ensures Fine(host.script(old(host.calls)), {}) ==> r.Done?
      ensures r.Done? ==> Answered(old(host.calls))
    {
      hide AllSafe, SafeState, Consistent, Drift, OnlyOurs, Inert, Kept, Preserved, Looser, Genuine;
      NowIsSafe();
      forall x: Exits, a: Answer ensures CallKeeps(Start(newId.value), x, a) {
        StartingIsSafe(plan, host.engine, x, host.saved, newId.value, a);
      }
      ghost var e0, x0, a := host.engine, host.exits, host.script(host.calls);
      r := Call(Start(newId.value));
      Replied(e0, Drift(e0, x0, a), Start(newId.value), a);
    }

    method RemoveOriginal()
      requires Valid() && host.saved.live.job.Succeeded? && !LeftRunning(host.engine, oldId)
      modifies host`calls, host`engine, host`exits, host`saved, host`history
      ensures Valid() && host.calls == old(host.calls) + 1 && old(host.history) <= host.history
      ensures host.saved.live.job.Succeeded?
      ensures host.engine == old(host.engine) || host.engine == Drop(old(host.engine), oldId)
      ensures var a := host.script(old(host.calls));
              host.engine == if a.done then Drop(old(host.engine), oldId) else old(host.engine)
      ensures host.saved.snapshot == old(host.saved).snapshot
    {
      hide AllSafe, Drift, SafeState, OnlyOurs, Inert, Consistent, Preserved, Looser;
      NowIsSafe();
      forall x: Exits, a: Answer ensures CallKeeps(Remove(oldId, false), x, a) {
        RetiringIsSafe(plan, host.engine, x, host.saved, newId, a);
      }
      var r := Call(Remove(oldId, false));
    }

    /**
     * Rename, stop, snapshot: everything before a replacement can exist. The snapshot is taken of a
     * database that nobody writes to any more, and holds all that the original wrote.
     */
    method Retire() returns (ok: bool)
      requires Valid() && Recoverable() && !backupCreated && host.saved.snapshot.None?
      modifies this`backupCreated, host`calls, host`engine, host`exits, host`saved, host`history
      ensures Valid() && Recoverable() && host.calls >= old(host.calls) && old(host.history) <= host.history
      ensures Alone(plan, host.engine) && newId.None? && host.saved.live.job.Updating?
      ensures ok ==> backupCreated && host.engine.containers[oldId].name == backupName != name
      ensures ok ==> !LeftRunning(host.engine, oldId) && Genuine(plan, host.saved) && host.saved.snapshot == Some(host.saved.live)
      ensures WorksFor(host, old(host.calls), 3) && !Taken(old(host.engine), backupName) ==>
                ok && !Taken(host.engine, name) && host.calls == old(host.calls) + 3
      ensures host.calls <= old(host.calls) + 3 && AllAnswered(old(host.calls), host.calls - 1)
      ensures ok ==> host.calls == old(host.calls) + 3 && AllAnswered(old(host.calls), host.calls)
    {
      Sequences();
      hide AllAnswered, Answered, Disturbed, AllSafe, Drift, SafeState, OnlyOurs, Inert, Consistent, Taken, Kept, Alone,
        OthersSame, Preserved, Genuine, Traffic;
      ok := StandDown();
      if ok {
        ok := TakeSnapshot();
      }
    }

    /** The original gives up its name and stops. */
    method StandDown() returns (ok: bool)
      requires Valid() && Recoverable() && !backupCreated && host.saved.snapshot.None?
      modifies host`calls, host`engine, host`exits, host`saved, host`history
      ensures Valid() && Recoverable() && host.calls >= old(host.calls) && old(host.history) <= host.history
      ensures host.saved.snapshot.None?
      ensures ok ==> host.engine.containers[oldId].name == backupName != name && !LeftRunning(host.engine, oldId)
      ensures WorksFor(host, old(host.calls), 2) && !Taken(old(host.engine), backupName) ==> ok && host.calls == old(host.calls) + 2
      ensures host.calls <= old(host.calls) + 2 && AllAnswered(old(host.calls), host.calls - 1)
      ensures ok ==> host.calls == old(host.calls) + 2 && AllAnswered(old(host.calls), host.calls)
    {
      Sequences();
      hide AllAnswered, Answered, Disturbed, AllSafe, Drift, SafeState, OnlyOurs, Inert, Consistent, Taken, Kept, Alone,
        OthersSame, Preserved, Genuine, Traffic;
      NowIsSafe();
      AloneIsInert(plan, host.engine);
      var renamed := CallOld(Rename(oldId, backupName));
      TrafficMeans(plan, old(host.engine), old(host.saved), host.saved);
      SameInert(plan, old(host.engine), host.engine);
      AloneIsInert(plan, host.engine);
      if !renamed.Done? {
        return false;
      }
      ghost var e, f := host.engine, host.saved;
      var stopped := CallOld(Stop(oldId));
      TrafficMeans(plan, e, f, host.saved);
      SameInert(plan, e, host.engine);
      return stopped.Done?;
    }

    method TakeSnapshot() returns (ok: bool)
      requires Valid() && Recoverable() && !backupCreated && host.saved.snapshot.None?
      requires !LeftRunning(host.engine, oldId) && host.engine.containers[oldId].name != name
      modifies this`backupCreated, host`calls, host`exits, host`saved, host`history
      ensures Valid() && Recoverable() && host.calls == old(host.calls) + 1 && old(host.history) <= host.history
      ensures host.saved.live.job.Updating? && ok == backupCreated
      ensures ok ==> Genuine(plan, host.saved) && host.saved.snapshot == Some(host.saved.live)
      ensures Fine(host.script(old(host.calls)), {}) ==> ok && !Taken(host.engine, name)
      ensures var a, f := host.script(old(host.calls)), old(Disturbed());
              host.saved == if a.done then f.(snapshot := Some(f.live)) else f
      ensures ok ==> Answered(old(host.calls))
    {
      hide Disturbed, AllSafe, Drift, SafeState, OnlyOurs, Consistent, Taken, Kept;
      AloneIsInert(plan, host.engine);
      NameIsFree();
      Interfere();
      ok := Write(host.saved.(snapshot := Some(host.saved.live)));
      backupCreated := ok;
    }

    /** The replacement as the update wants it. */
    ghost predicate InPlace(image: string, config: Config, endpoints: map<string, Endpoint>)
      reads this`newId, host
    {
      && newId.Some? && newId.value in host.engine.containers
      && host.engine.containers[newId.value] == Container(name, image, config, endpoints, Running)
    }

    /** What the last call has put on record, if it was to record the success. */
    ghost function RecordedSoFar(): Record
      reads this`reported, host
    {
      if reported && host.calls > 0 && host.script(host.calls - 1).done then Succeeded else Updating
    }

    /** The sequence of `RunWorker` up to and including the recorded success. */
    method Attempt(image: string, config: Config, endpoints: map<string, Endpoint>)
      requires Valid() && Recoverable() && !backupCreated && !committed && newId.None? && !reported
      requires host.saved.snapshot.None?
      modifies this`newId, this`backupCreated, this`committed, this`reported, host
      ensures Valid() && host.calls >= old(host.calls) && old(host.history) <= host.history
      ensures !committed ==> Recoverable()
      ensures committed ==>
                && host.saved.live.job.Succeeded? && InPlace(image, config, endpoints)
                && SeenHealthy(host.seen, newId.value) && !LeftRunning(host.engine, oldId)
      ensures !committed ==> host.saved.live.job == RecordedSoFar()
      ensures reported ==> InPlace(image, config, endpoints) && backupCreated && host.calls > 0
      ensures HealthyFrom(host, old(host.calls)) && !Taken(old(host.engine), backupName) ==> committed
      ensures HealthyFor(host, old(host.calls), 9) && !Taken(old(host.engine), backupName) ==>
                && reported && host.calls == old(host.calls) + 10
                && committed == (host.script(old(host.calls) + 9).done && host.script(old(host.calls) + 9).heard)
      ensures Unbroken(old(host.calls), 7, host.calls)
      ensures reported ==> host.calls > old(host.calls) + 7
      ensures committed ==> reported
    {
      Sequences();
      hide AllAnswered, Answered, Disturbed, AllSafe, Consistent, SafeState, Taken, Inert, Drift, ValidPlan, OnlyOurs,
        Preserved, Genuine, Traffic, RecoverableFrom, InPlace, LeftRunning, SeenHealthy, HealthyFor, HealthyFrom,
        WorksFor, Fine;
      ghost var n := host.calls;
      HealthyLater(host, n, n);
      HealthyPart(host, n, 9, 0, 4);
      var prepared := Prepare();
      HealthyLater(host, n, host.calls);
      HealthyPart(host, n, 9, 4, 5);
      if prepared {
        Install(image, config, endpoints);
      }
    }

    /** Up to the snapshot. */
    method Prepare() returns (ok: bool)
      requires Valid() && Recoverable() && !backupCreated && host.saved.snapshot.None?
      modifies this`backupCreated, host`calls, host`engine, host`exits, host`saved, host`history
      ensures Valid() && Recoverable() && host.calls >= old(host.calls) && old(host.history) <= host.history
      ensures newId.None? && host.saved.live.job.Updating?
      ensures ok ==> backupCreated && host.engine.containers[oldId].name == backupName != name && !LeftRunning(host.engine, oldId)
      ensures WorksFor(host, old(host.calls), 4) && !Taken(old(host.engine), backupName) ==>
                ok && !Taken(host.engine, name) && host.calls == old(host.calls) + 4
      ensures host.calls <= old(host.calls) + 4 && AllAnswered(old(host.calls), host.calls - 1)
      ensures ok ==> host.calls == old(host.calls) + 4 && AllAnswered(old(host.calls), host.calls)
    {
      Sequences();
      hide AllAnswered, Answered, Disturbed, AllSafe, Consistent, SafeState, Taken, Inert, Drift, ValidPlan, OnlyOurs,
        Preserved, Genuine, Traffic, RecoverableFrom, LeftRunning, WorksFor, Fine;
      ghost var f := host.saved;
      WhatIsRecoverable();
      WorksHere(host.calls, 4);
      var announced, _ := Ask();
      RecoverableInTraffic(plan, host.engine, f, host.saved, backupCreated, newId);
      if !announced {
        return false;
      }
      ok := Retire();
    }

    /** From the snapshot to the recorded success. */
    method Install(image: string, config: Config, endpoints: map<string, Endpoint>)
      requires Valid() && Recoverable() && backupCreated && !committed && newId.None? && !reported
      requires host.engine.containers[oldId].name != name && host.saved.live.job.Updating?
      modifies this`newId, this`committed, this`reported, host
      ensures Valid() && host.calls >= old(host.calls) && old(host.history) <= host.history
      ensures !committed ==> Recoverable()
      ensures committed ==>
                && host.saved.live.job.Succeeded? && InPlace(image, config, endpoints)
                && SeenHealthy(host.seen, newId.value) && !LeftRunning(host.engine, oldId)
      ensures !committed ==> host.saved.live.job == RecordedSoFar()
      ensures reported ==> InPlace(image, config, endpoints) && host.calls > 0
      ensures HealthyFrom(host, old(host.calls)) && !Taken(old(host.engine), name) ==> committed
      ensures HealthyFor(host, old(host.calls), 5) && !Taken(old(host.engine), name) ==>
                && reported && host.calls == old(host.calls) + 6
                && committed == (host.script(old(host.calls) + 5).done && host.script(old(host.calls) + 5).heard)
      ensures Unbroken(old(host.calls), 3, host.calls)
      ensures reported ==> host.calls > old(host.calls) + 3
      ensures committed ==> reported
    {
      Sequences();
      hide AllAnswered, Answered, Disturbed, AllSafe, Consistent, SafeState, Taken, Inert, Drift, ValidPlan, OnlyOurs,
        Preserved, Genuine, RecoverableFrom, InPlace, LeftRunning, SeenHealthy, HealthyFor, HealthyFrom, WorksFor, Fine;
      ghost var n := host.calls;
      HealthyLater(host, n, n);
      HealthyPart(host, n, 5, 0, 1);
      WhatIsRecoverable();
      var created := CreateReplacement(Container(name, image, config, endpoints, Created));
      HealthyLater(host, n, host.calls);
      HealthyPart(host, n, 5, 1, 4);
      if created.Done? {
        Finish(image, config, endpoints);
      }
    }

    /** From the created replacement to the recorded success. */
    method Finish(image: string, config: Config, endpoints: map<string, Endpoint>)
      requires Valid() && Recoverable() && backupCreated && !committed && newId.Some? && newId.value in host.engine.containers && !reported
      requires host.engine.containers[newId.value] == Container(name, image, config, endpoints, Created)
      requires host.saved.live.job.Updating?
      modifies this`committed, this`reported, host
      ensures Valid() && host.calls >= old(host.calls) && old(host.history) <= host.history
      ensures !committed ==> Recoverable()
      ensures committed ==>
                && host.saved.live.job.Succeeded? && InPlace(image, config, endpoints)
                && SeenHealthy(host.seen, newId.value) && !LeftRunning(host.engine, oldId)
      ensures !committed ==> host.saved.live.job == RecordedSoFar()
      ensures reported ==> InPlace(image, config, endpoints) && host.calls > 0
      ensures HealthyFrom(host, old(host.calls)) ==> committed
      ensures HealthyFor(host, old(host.calls), 4) ==>
                && reported && host.calls == old(host.calls) + 5
                && committed == (host.script(old(host.calls) + 4).done && host.script(old(host.calls) + 4).heard)
      ensures Unbroken(old(host.calls), 2, host.calls)
      ensures reported ==> host.calls > old(host.calls) + 2
      ensures committed ==> reported
    {
      Sequences();
      hide AllAnswered, Answered, Disturbed, AllSafe, Consistent, SafeState, Taken, Inert, Drift, ValidPlan, OnlyOurs,
        Preserved, Genuine, Traffic, RecoverableFrom, LeftRunning, SeenHealthy, HealthyFor, HealthyFrom, WorksFor, Fine;
      ghost var n := host.calls;
      HealthyLater(host, n, n);
      HealthyPart(host, n, 4, 0, 1);
      HealthyPart(host, n, 4, 1, 1);
      HealthyLater(host, n, n + 1);
      var launched := Launch(image, config, endpoints);
      if !launched {
        return;
      }
      HealthyLater(host, n, host.calls);
      HealthyPart(host, n, 4, 2, 2);
      Confirm(image, config, endpoints);
    }

    /** The replacement is started, and its identity recorded. */
    method Launch(image: string, config: Config, endpoints: map<string, Endpoint>) returns (ok: bool)
      requires Valid() && Recoverable() && backupCreated && newId.Some? && newId.value in host.engine.containers
      requires host.engine.containers[newId.value] == Container(name, image, config, endpoints, Created)
      modifies host`calls, host`engine, host`exits, host`saved, host`history
      ensures Valid() && Recoverable() && old(host.history) <= host.history && host.saved.live.job == old(host.saved).live.job
      ensures old(host.calls) < host.calls <= old(host.calls) + 2 && AllAnswered(old(host.calls), host.calls - 1)
      ensures ok ==> host.calls == old(host.calls) + 2 && AllAnswered(old(host.calls), host.calls) && InPlace(image, config, endpoints)
      ensures Fine(host.script(old(host.calls)), {}) && Fine(host.script(old(host.calls) + 1), {}) ==>
                ok && Runs(host.engine, host.exits, newId.value)
    {
      Sequences();
      hide AllAnswered, Disturbed, AllSafe, Consistent, SafeState, Taken, Inert, Drift, ValidPlan, OnlyOurs, Preserved,
        Genuine, Traffic, RecoverableFrom, LeftRunning;
      WhatIsRecoverable();
      var started := StartReplacement();
      if !started.Done? {
        return false;
      }
      ghost var f := host.saved;
      var progressed, _ := Ask();
      RecoverableInTraffic(plan, host.engine, f, host.saved, backupCreated, newId);
      return progressed;
    }

    /** From the started replacement to the recorded success. */
    method Confirm(image: string, config: Config, endpoints: map<string, Endpoint>)
      requires Valid() && Recoverable() && backupCreated && !committed && !reported && host.saved.live.job.Updating?
      requires InPlace(image, config, endpoints)
      modifies this`committed, this`reported, host`calls, host`exits, host`seen, host`saved, host`history
      ensures Valid() && host.calls >= old(host.calls) && old(host.history) <= host.history
      ensures Recoverable() || committed
      ensures committed ==>
                && host.saved.live.job.Succeeded? && newId.Some? && SeenHealthy(host.seen, newId.value)
                && !LeftRunning(host.engine, oldId)
      ensures !committed ==> host.saved.live.job == RecordedSoFar()
      ensures reported ==> host.calls > 0
      ensures HealthyFrom(host, old(host.calls)) && Runs(host.engine, old(host.exits), newId.value) ==> committed
      ensures HealthyFor(host, old(host.calls), 2) && Runs(host.engine, old(host.exits), newId.value) ==>
                && reported && host.calls == old(host.calls) + 3
                && committed == (host.script(old(host.calls) + 2).done && host.script(old(host.calls) + 2).heard)
      ensures host.calls > old(host.calls)
      ensures committed ==> reported
    {
      hide AllSafe, Consistent, SafeState, Taken, Inert, Drift, ValidPlan, OnlyOurs, Preserved, Genuine, Traffic,
        RecoverableFrom, LeftRunning, SeenHealthy, HealthyFor, HealthyFrom, Fine, Passes;
      ghost var n, f := host.calls, host.saved;
      var healthy := WaitHealthy(newId.value);
      RecoverableInTraffic(plan, host.engine, f, host.saved, backupCreated, newId);
      HealthyLater(host, n, host.calls);
      if healthy {
        Report();
      }
    }

    /** The record of the success. */
    method Report()
      requires Valid() && Recoverable() && backupCreated && newId.Some? && !committed && host.saved.live.job.Updating?
      modifies this`committed, this`reported, host`calls, host`exits, host`saved, host`history
      ensures Valid() && host.calls == old(host.calls) + 1 && old(host.history) <= host.history && reported
      ensures Recoverable() && !LeftRunning(host.engine, oldId)
      ensures var a := host.script(host.calls - 1);
              && host.saved.live.job == (if a.done then Succeeded else Updating)
              && committed == (a.done && a.heard)
    {
      hide AllSafe, Consistent, SafeState, Inert, ValidPlan, OnlyOurs, Preserved, Genuine;
      reported := true;
      committed := RecordJob(Record.Succeeded);
    }

    lemma WhatIsRecoverable()
      requires Recoverable()
      ensures plan.oldId in host.engine.containers && (newId.Some? ==> Replacement(plan, host.engine, newId.value))
      ensures !backupCreated ==> host.saved.live.job.Updating? && Alone(plan, host.engine) && newId.None?
    {
    }

    // ---- The whole run -----------------------------------------------------------

    /** The record tells the truth: the replacement is in place, or everything is back. */
    ghost predicate Honest(image: string, config: Config, endpoints: map<string, Endpoint>)
      reads this, host
    {
      match host.saved.live.job
      case Updating => true
      case Succeeded => InPlace(image, config, endpoints)
      case Failed(restored) => restored ==> host.engine.containers == plan.base.containers && Genuine(plan, host.saved)
    }

    /**
     * The answers under which the record does not: the success is recorded unheard, the replacement
     * is removed, and the snapshot, in which the job is still open, is not put back.
     */
    ghost predicate Betrayed()
      reads this
    {
      reported && began > 0 && host.script(began - 1).done && host.script(began).done && !SnapshotUsed(began + 1)
    }

    /**
     * `RunWorker` of the source after its checks. Without a recorded success it rolls back; a restored
     * outcome leaves the Engine as it was and the database with all that the original wrote and nothing
     * else. When everything works the update is committed and the replacement is healthy.
     */
    method RunWorker(image: string, config: Config, endpoints: map<string, Endpoint>) returns (restored: bool)
      requires Valid() && Recoverable() && !backupCreated && !committed && newId.None? && open && !reported
      requires host.saved.snapshot.None?
      modifies this, host
      ensures Valid() && old(host.history) <= host.history
      ensures restored ==> !committed && host.engine.containers == plan.base.containers && Genuine(plan, host.saved)
                           && WasSeen(host.history, |old(host.history)|, oldId, backupCreated)
      ensures restored && reported ==> AllAnswered(began, began + 8)
      ensures committed ==> newId.Some? && SeenHealthy(host.seen, newId.value) && !LeftRunning(host.engine, oldId)
      ensures committed ==> InPlace(image, config, endpoints) && host.saved.live.job.Succeeded?
      ensures committed ==>
                && host.calls >= 2 && AllAnswered(old(host.calls), old(host.calls) + 7)
                && (host.script(host.calls - 2).done ==> oldId !in host.engine.containers)
                && (host.script(host.calls - 1).done ==> host.saved.snapshot.None?)
      ensures !committed ==> Unbroken(old(host.calls), 7, began)
      ensures Honest(image, config, endpoints) <==> committed || !Betrayed()
      ensures !committed && host.saved.live.job.Failed? ==> host.saved.live.job == Record.Failed(restored)
      ensures restored ==> open
      ensures !committed && open ==>
                host.calls > 0 && (host.script(host.calls - 1).done ==> host.saved.live.job == Record.Failed(restored))
      ensures !committed && Betrayed() ==> host.saved.live.job.Succeeded? && !InPlace(image, config, endpoints)
      ensures HealthyFrom(host, old(host.calls)) && !Taken(old(host.engine), backupName) ==> committed
      ensures HealthyFor(host, old(host.calls), 9) && !Taken(old(host.engine), backupName) ==>
                && committed == (host.script(old(host.calls) + 9).done && host.script(old(host.calls) + 9).heard)
                && (!committed ==> reported && began == old(host.calls) + 10)
    {
      hide AllAnswered, Answered, Disturbed, AllSafe, Consistent, SafeState, Taken, Inert, WasSeen, OnlyOurs, Preserved,
        Genuine, SnapshotUsed, Traffic, ValidPlan, RecoverableFrom, InPlace, Honest, Betrayed, LeftRunning, Fine,
        HealthyFor, HealthyFrom;
      Attempt(image, config, endpoints);
      if !committed {
        began := host.calls;
        ghost var n := |host.history|;
        restored := Recovery(image, config, endpoints);
        if restored {
          SeenLater(host.history, host.history, |old(host.history)|, n, oldId, backupCreated);
        }
        return;
      }
      CleanUp(image, config, endpoints);
      SuccessIsHonest(image, config, endpoints);
      return false;
    }

    lemma SuccessIsHonest(image: string, config: Config, endpoints: map<string, Endpoint>)
      ensures host.saved.live.job.Succeeded? ==> (Honest(image, config, endpoints) <==> InPlace(image, config, endpoints))
      ensures InPlace(image, config, endpoints) ==> newId.Some?
    {
    }

    /** After the recorded success: the original and the snapshot go. */
    method CleanUp(image: string, config: Config, endpoints: map<string, Endpoint>)
      requires Valid() && host.saved.live.job.Succeeded? && InPlace(image, config, endpoints) && !LeftRunning(host.engine, oldId)
      modifies host`calls, host`engine, host`exits, host`saved, host`history
      ensures Valid() && old(host.history) <= host.history
      ensures host.saved.live.job.Succeeded? && InPlace(image, config, endpoints) && !LeftRunning(host.engine, oldId)
      ensures host.calls == old(host.calls) + 2
      ensures host.engine == if host.script(old(host.calls)).done then Drop(old(host.engine), oldId) else old(host.engine)
      ensures host.saved.snapshot == if host.script(host.calls - 1).done then None else old(host.saved).snapshot
    {
      hide Disturbed, AllSafe, Consistent, SafeState, Inert, OnlyOurs, Preserved, Traffic;
      RemoveOriginal();
      RunningIsNotInert(newId.value);
      ghost var f := host.saved;
      Interfere();
      TrafficMeans(plan, host.engine, f, host.saved);
      SnapshotMayGo();
      var cleaned := Write(host.saved.(snapshot := None));
    }

    /** The deferred recovery and the record of the failure, if the database is still at hand. */
    method Recovery(image: string, config: Config, endpoints: map<string, Endpoint>) returns (restored: bool)
      requires Valid() && Recoverable() && open && !committed && began == host.calls
      requires host.saved.live.job == RecordedSoFar()
      requires reported ==> InPlace(image, config, endpoints) && backupCreated && host.calls > 0
      modifies this`newId, this`open, host
      ensures Valid() && old(host.history) <= host.history
      ensures restored ==> host.engine.containers == plan.base.containers && Genuine(plan, host.saved)
                           && WasSeen(host.history, |old(host.history)|, oldId, backupCreated)
      ensures Honest(image, config, endpoints) <==> !Betrayed()
      ensures host.saved.live.job.Failed? ==> host.saved.live.job == Record.Failed(restored)
      ensures restored ==> open
      ensures open ==> host.calls > 0 && (host.script(host.calls - 1).done ==> host.saved.live.job == Record.Failed(restored))
      ensures Betrayed() ==> host.saved.live.job.Succeeded? && !InPlace(image, config, endpoints)
      ensures restored && reported ==> AllAnswered(began, began + 8)
    {
      hide AllAnswered, Answered, Disturbed, AllSafe, Consistent, SafeState, RecoverableFrom, Inert, WasSeen, OnlyOurs,
        Preserved, Genuine, SnapshotUsed, Exposed, RecoveredAs, InPlace, ValidPlan;
      ghost var n, e0, f0 := |host.history|, host.engine, host.saved;
      HasReplacement(image, config, endpoints);
      restored := Rollback();
      ghost var h := host.history;
      WhatIsOnRecord(e0, f0, image, config, endpoints);
      if restored {
        WholeIsInert();
      }
      if open {
        var recorded := RecordJob(Record.Failed(restored));
        if restored {
          SeenLater(h, host.history, n, n, oldId, backupCreated);
        }
      }
    }

    lemma HasReplacement(image: string, config: Config, endpoints: map<string, Endpoint>)
      ensures InPlace(image, config, endpoints) ==>
                && newId.Some? && newId.value in host.engine.containers
                && host.engine.containers[newId.value] == Container(name, image, config, endpoints, Running)
    {
    }

    /** After the rollback, before the failure is recorded. */
    lemma WhatIsOnRecord(e0: State, f0: Files, image: string, config: Config, endpoints: map<string, Endpoint>)
      requires f0.live.job == if reported && began > 0 && host.script(began - 1).done then Succeeded else Updating
      requires if reported
               then && began > 0 && newId.Some? && RecoveredAs(began, e0, f0) && newId.value in e0.containers
                    && e0.containers[newId.value] == Container(name, image, config, endpoints, Running)
               else host.saved.live.job.Updating?
      ensures host.saved.live.job.Succeeded? ==> !open
      ensures !host.saved.live.job.Failed?
      ensures open ==> !Betrayed()
      ensures Honest(image, config, endpoints) <==> !Betrayed()
      ensures Betrayed() ==> host.saved.live.job.Succeeded? && !InPlace(image, config, endpoints)
    {
      hide SnapshotUsed, Exposed, Genuine;
    }

    lemma RunningIsNotInert(id: Id)
      requires id !in plan.base.containers
      ensures LeftRunning(host.engine, id) ==> !Inert(plan, host.engine)
    {
      assert LeftRunning(host.engine, id) ==> Replacement(plan, host.engine, id);
    }

    /** With the replacement running, the snapshot is not needed for what `Preserved` promises. */
    lemma SnapshotMayGo()
      requires !Inert(plan, host.engine)
      ensures Preserved(plan, host.engine, host.saved.(snapshot := None))
    {
    }
  }

  function Started(e: State, id: Id): State
    requires id in e.containers
  {
    Put(e, id, e.containers[id].(status := Running))
  }

  lemma SafeGrows(p: Plan, h: seq<World<Files>>, w: World<Files>)
    requires p.oldId in p.base.containers && AllSafe(p, h) && Safe(p, w)
    ensures AllSafe(p, h + [w])
  {
    hide Safe;
  }

  lemma NoneExit(e: State, x: Exits, a: Answer)
    ensures Fine(a, {}) ==> Drift(e, x, a) == x
  {
  }

  lemma LooserPreserves(p: Plan, e0: State, e1: State, f: Files)
    requires Preserved(p, e0, f)
    ensures Looser(p, e0, e1, f) ==> Preserved(p, e1, f)
  {
    hide LeftRunning;
  }

  lemma LooserBySnapshot(p: Plan, e0: State, e1: State, f0: Files, f1: Files)
    requires f1.snapshot == f0.snapshot
    ensures Looser(p, e0, e1, f0) <==> Looser(p, e0, e1, f1)
  {
  }

  lemma TrafficMeans(p: Plan, e: State, f0: Files, f1: Files)
    requires Traffic(p, e, f0, f1)
    ensures f1.snapshot == f0.snapshot && f1.live.job == f0.live.job
    ensures Inert(p, e) && Genuine(p, f0) ==> Genuine(p, f1)
  {
  }

  /** What recovery leaves unchanged while the original comes back. */
  ghost predicate Undisturbed(p: Plan, e: State, f0: Files, f1: Files) {
    && f1.snapshot == f0.snapshot && f1.live.job == f0.live.job
    && (Inert(p, e) && Genuine(p, f0) ==> Genuine(p, f1))
  }

  lemma UndisturbedIsTransitive(p: Plan, e: State)
    ensures forall f :: Undisturbed(p, e, f, f)
    ensures forall f0, f1, f2 :: Undisturbed(p, e, f0, f1) && Undisturbed(p, e, f1, f2) ==> Undisturbed(p, e, f0, f2)
    ensures forall f0, f1 :: Traffic(p, e, f0, f1) ==> Undisturbed(p, e, f0, f1)
  {
  }

  lemma UndisturbedElsewhere(p: Plan, e0: State, e1: State)
    requires OthersSame(e0, e1, p.oldId) && p.oldId in p.base.containers
    ensures forall f0, f1 :: Undisturbed(p, e0, f0, f1) <==> Undisturbed(p, e1, f0, f1)
    ensures Alone(p, e0) <==> Alone(p, e1)
  {
    hide Genuine;
    SameInert(p, e0, e1);
  }

  lemma AloneByKeys(p: Plan, e0: State, e1: State)
    requires e0.containers.Keys == e1.containers.Keys
    ensures Alone(p, e0) <==> Alone(p, e1)
  {
    forall id: Id ensures Replacement(p, e0, id) <==> Replacement(p, e1, id) {
      assert id in e0.containers.Keys <==> id in e1.containers.Keys;
    }
  }

  lemma AloneIsInert(p: Plan, e: State)
    ensures Alone(p, e) ==> Inert(p, e)
  {
  }

  lemma SameInert(p: Plan, e0: State, e1: State)
    requires OthersSame(e0, e1, p.oldId) && p.oldId in p.base.containers
    ensures Inert(p, e0) <==> Inert(p, e1)
    ensures Alone(p, e0) <==> Alone(p, e1)
  {
    AloneByKeys(p, e0, e1);
    forall id: Id ensures (Replacement(p, e0, id) && LeftRunning(e0, id)) <==> (Replacement(p, e1, id) && LeftRunning(e1, id)) {
      assert id in e0.containers.Keys <==> id in e1.containers.Keys;
    }
  }

  lemma OldCallIsSafe(p: Plan, e: State, x: Exits, f: Files, newId: Option<Id>, c: Call, a: Answer)
    requires ValidPlan(p) && SafeState(p, e, f.live.job) && ExitsFit(e, x) && p.oldId in e.containers && OnlyOurs(p, e, newId)
    requires || c == Start(p.oldId) || (c == Stop(p.oldId) && f.snapshot.None?)
             || c == Rename(p.oldId, p.name) || c == Rename(p.oldId, p.backupName)
    ensures var e1 := Effect(e, x, c, a);
            SafeState(p, e1, f.live.job) && OnlyOurs(p, e1, newId) && Looser(p, e, e1, f)
            && OthersSame(e, e1, p.oldId) && p.oldId in e1.containers
  {
    hide Consistent, Inert;
    if a.done && Legal(e, x, c) {
      NamesStayUnique(e, x, c, a.exit);
      var e1 := Apply(e, x, c, a.exit);
      assert Kept(p, e1.containers[p.oldId]);
      assert forall id: Id :: Replacement(p, e1, id) <==> Replacement(p, e, id);
      SameInert(p, e, e1);
    }
  }

  lemma RemovingIsSafe(p: Plan, e: State, x: Exits, f: Files, newId: Option<Id>, id: Id, a: Answer)
    requires ValidPlan(p) && SafeState(p, e, f.live.job) && id !in p.base.containers && OnlyOurs(p, e, newId) && f.snapshot.Some?
    ensures var e1 := Effect(e, x, Remove(id, true), a);
            SafeState(p, e1, f.live.job) && OnlyOurs(p, e1, newId) && Looser(p, e, e1, f)
  {
    var e1 := Effect(e, x, Remove(id, true), a);
    assert forall y: Id :: Replacement(p, e1, y) ==> Replacement(p, e, y);
  }

  lemma RetiringIsSafe(p: Plan, e: State, x: Exits, f: Files, newId: Option<Id>, a: Answer)
    requires ValidPlan(p) && SafeState(p, e, f.live.job) && f.live.job.Succeeded? && OnlyOurs(p, e, newId) && !LeftRunning(e, p.oldId)
    ensures var e1 := Effect(e, x, Remove(p.oldId, false), a);
            SafeState(p, e1, f.live.job) && OnlyOurs(p, e1, newId) && Looser(p, e, e1, f)
  {
    hide Consistent;
    DropIsConsistent(e, p.oldId);
    var e1 := Effect(e, x, Remove(p.oldId, false), a);
    assert forall y: Id :: y != p.oldId ==> (Replacement(p, e1, y) <==> Replacement(p, e, y)) && (LeftRunning(e1, y) <==> LeftRunning(e, y));
  }

  lemma DropIsConsistent(e: State, id: Id)
    requires Consistent(e)
    ensures Consistent(Drop(e, id))
  {
  }

  lemma CreatingIsSafe(p: Plan, e: State, x: Exits, f: Files, newId: Option<Id>, c: Container, a: Answer)
    requires ValidPlan(p) && SafeState(p, e, f.live.job) && c.name == p.name && OnlyOurs(p, e, newId)
    ensures var e1 := Effect(e, x, Create(c), a);
            SafeState(p, e1, f.live.job) && OnlyOurs(p, e1, newId) && Looser(p, e, e1, f)
    ensures e.next !in e.containers && e.next !in p.base.containers
  {
    if a.done && Legal(e, x, Create(c)) {
      NamesStayUnique(e, x, Create(c), a.exit);
      var e1 := Apply(e, x, Create(c), a.exit);
      assert forall y: Id :: LeftRunning(e1, y) <==> LeftRunning(e, y);
    }
  }

  lemma StartingIsSafe(p: Plan, e: State, x: Exits, f: Files, id: Id, a: Answer)
    requires ValidPlan(p) && SafeState(p, e, f.live.job) && id !in p.base.containers && OnlyOurs(p, e, Some(id))
    ensures var e1 := Effect(e, x, Start(id), a);
            SafeState(p, e1, f.live.job) && OnlyOurs(p, e1, Some(id)) && Looser(p, e, e1, f)
  {
    if a.done && Legal(e, x, Start(id)) {
      NamesStayUnique(e, x, Start(id), a.exit);
      var e1 := Apply(e, x, Start(id), a.exit);
      assert forall y: Id :: LeftRunning(e, y) ==> LeftRunning(e1, y);
      assert forall y: Id :: Replacement(p, e1, y) <==> Replacement(p, e, y);
    }
  }

  // ---- A success on record without a replacement --------------------------------------

  /**
   * Everything works but the response to the record of success and the closing of the database: the
   * replacement is removed, the original is back, and the update is on record as a success.
   */
  method SucceededThenRemoved() returns (host: Host<Files>, worker: Worker)
    ensures fresh(host) && fresh(worker) && worker.host == host
    ensures host.saved.live.job.Succeeded? && !worker.InPlace("new", "config", map[])
  {
    hide AllSafe, Taken, SafeState, ValidPlan, RecoverableFrom;
    var works := Answer(map[], true, true, false, 0, true, Healthy, true, 1);
    var script := (k: nat) => if k == 9 then works.(heard := false) else if k == 11 then works.(done := false) else works;
    host, worker := Yard(script);
    var restored := worker.RunWorker("new", "config", map[]);
    assert worker.Betrayed();
  }

  /** A host with nothing but the application, and its update's worker. */
  method Yard(script: nat -> Answer) returns (host: Host<Files>, worker: Worker)
    ensures fresh(host) && fresh(worker) && worker.host == host && host.script == script && host.calls == 0
    ensures worker.Valid() && worker.Recoverable() && !worker.backupCreated && !worker.committed && worker.newId.None?
    ensures worker.open && !worker.reported && host.saved.snapshot.None?
    ensures worker.backupName == "yard-rollback" && !Taken(host.engine, "yard-rollback")
  {
    var was := Container("yard", "image", "config", map[], Running);
    host := new Host(script, State(map[0 := was], 1), Files(Database([], Updating), None, []), Active);
    worker := new Worker(host, 0, "yard", "yard-rollback", _ => []);
    assert Safe(worker.plan, host.history[0]);
    FreeName(host.engine, was);
  }

  lemma FreeName(e: State, was: Container)
    requires e.containers == map[0 := was] && was.name == "yard"
    ensures !Taken(e, "yard-rollback")
  {
  }
}
