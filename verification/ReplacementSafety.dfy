/**
 * What the replacement protocol keeps true in every world a crash can leave behind,
 * and how each kind of Engine or store call keeps it (internal/recreate/worker.go).
 */
module ReplacementSafety {
  import opened Strings
  import opened ComposeOrder
  import opened Assessment
  import opened Engine

  /** One member of the group; the source's `entry`. `wanted` is the configuration a candidate is created with. */
  datatype Entry = Entry(
    id: Id, was: Container, backup: string, oneShot: bool,
    targetImage: string, wanted: Config, newId: Option<Id>, touched: bool)

  datatype Journal = Journal(entries: seq<Entry>, mutated: bool)

  /** The fixed facts of one job: its group, the order, and the Engine before the first change. */
  datatype Plan = Plan(labels: seq<Labels>, entries: seq<Entry>, order: seq<nat>, base: State)

  ghost predicate ValidPlan(p: Plan) {
    && Consistent(p.base)
    && 0 < |p.entries| <= |p.labels|
    && GroupOrder(p.labels, |p.entries|, p.order)
    && (forall i, j :: 0 <= i < j < |p.entries| ==> p.entries[i].id != p.entries[j].id)
    && (forall i, j :: 0 <= i < |p.entries| && 0 <= j < |p.entries| ==> p.entries[i].backup != p.entries[j].was.name)
    && forall i :: 0 <= i < |p.entries| && p.entries[i].oneShot ==> p.entries[i].was.status == Exited(0)
  }

  /** An inspection told the assessment how the container stands. */
  ghost predicate Reads(m: Member, c: Container) {
    && m.running == c.status.Running?
    && (m.exited <==> c.status.Exited?)
    && (c.status.Exited? ==> m.exitCode == c.status.code)
  }

  /**
   * The order and the one-shot marks that the assessment arrives at, for a group with distinct
   * originals and unused recovery names, make a valid plan: nothing else is asked of a caller.
   */
  lemma AssessedPlanIsValid(p: Plan, ms: seq<Member>, assessed: Assessed)
    requires Consistent(p.base) && 0 < |p.entries| <= |ms| && p.labels == LabelsOf(ms) && p.order == assessed.order
    requires Admissible(ms) && GroupOrder(LabelsOf(ms), |p.entries|, assessed.order)
    requires forall i :: 0 <= i < |p.entries| ==> Reads(ms[i], p.entries[i].was) && (p.entries[i].oneShot <==> Awaited(ms, i))
    requires forall i, j :: 0 <= i < j < |p.entries| ==> p.entries[i].id != p.entries[j].id
    requires forall i, j :: 0 <= i < |p.entries| && 0 <= j < |p.entries| ==> p.entries[i].backup != p.entries[j].was.name
    ensures ValidPlan(p)
  {
    forall i | 0 <= i < |p.entries| && p.entries[i].oneShot ensures p.entries[i].was.status == Exited(0) {
      AwaitedHasCompleted(ms, i);
    }
  }

  /** The originals are still exactly as the confirmed snapshot recorded them. */
  ghost predicate Matches(p: Plan) {
    forall i :: 0 <= i < |p.entries| ==>
                  p.entries[i].id in p.base.containers && p.base.containers[p.entries[i].id] == p.entries[i].was
  }

  ghost predicate SamePlan(p: Plan, s: seq<Entry>) {
    && |s| == |p.entries|
    && forall i :: 0 <= i < |s| ==>
                     && s[i].id == p.entries[i].id && s[i].was == p.entries[i].was
                     && s[i].backup == p.entries[i].backup && s[i].oneShot == p.entries[i].oneShot
  }

  ghost predicate IsOriginal(p: Plan, id: Id) {
    exists i :: 0 <= i < |p.entries| && p.entries[i].id == id
  }

  /** Whatever the calls, an original only ever loses its name, endpoints and running state. */
  ghost predicate Kept(x: Entry, c: Container) {
    && c.image == x.was.image && c.config == x.was.config
    && (c.name == x.was.name || c.name == x.backup)
    && (forall n :: n in c.endpoints ==> n in x.was.endpoints && c.endpoints[n] == x.was.endpoints[n])
    && (c.status == x.was.status || (x.was.status.Running? && c.status.Exited?))
  }

  /** The journal knows this candidate. */
  ghost predicate Known(s: seq<Entry>, id: Id) {
    exists i :: 0 <= i < |s| && s[i].newId == Some(id)
  }

  ghost predicate CandidateOf(s: seq<Entry>, i: int, id: Id, c: Container) {
    0 <= i < |s| && c.name == s[i].was.name && (s[i].newId == Some(id) || s[i].newId.None?)
  }

  /** A candidate in the Engine that is missing from the journal. */
  ghost predicate Unsaved(p: Plan, e: State, s: seq<Entry>, id: Id) {
    id in e.containers && id !in p.base.containers && !Known(s, id)
  }

  ghost predicate NoneLost(p: Plan, e: State, s: seq<Entry>) {
    forall id :: !Unsaved(p, e, s, id)
  }

  /** The original has not been stopped, or has been started again; it may have exited by itself since. */
  ghost predicate OriginalRuns(e: State, x: Entry) {
    x.id in e.containers && e.containers[x.id].status.Running?
  }

  predicate ReadyStatus(x: Entry, status: Status) {
    if x.oneShot then status == Exited(0)
    else if x.was.status.Running? then status.Running?
    else !status.Running?
  }

  /** The test of `ready`: a stable container in the wanted state, and one that runs is not unhealthy and has settled. */
  predicate Accepted(x: Entry, o: Observation) {
    && o.steady && ReadyStatus(x, o.status)
    && (!x.oneShot && x.was.status.Running? ==> (o.health.NoHealth? || o.health.Healthy?) && o.settled)
  }

  predicate Succeeded(status: JobStatus) {
    status == Finished(Verified) || status == Finished(Reconciled)
  }

  // ---- Safety of one world --------------------------------------------------

  ghost predicate OriginalsKept(e: State, s: seq<Entry>, status: JobStatus) {
    forall i :: 0 <= i < |s| ==>
                  if s[i].id in e.containers then Kept(s[i], e.containers[s[i].id]) else Succeeded(status)
  }

  /** Write-ahead: an original that a call has changed is marked in the saved journal. */
  ghost predicate WrittenAhead(e: State, s: seq<Entry>) {
    forall i :: 0 <= i < |s| && s[i].id in e.containers && e.containers[s[i].id] != s[i].was ==> s[i].touched
  }

  ghost predicate BystandersKept(p: Plan, e: State) {
    forall id :: id in p.base.containers && !IsOriginal(p, id) ==>
                   id in e.containers && e.containers[id] == p.base.containers[id]
  }

  /** Whatever else the Engine holds is a candidate, and at most one candidate is missing from the journal. */
  ghost predicate CandidatesAccounted(p: Plan, e: State, s: seq<Entry>) {
    && (forall id :: id in e.containers && id !in p.base.containers ==>
                       id >= p.base.next && exists i :: CandidateOf(s, i, id, e.containers[id]))
    && (forall a, b :: Unsaved(p, e, s, a) && Unsaved(p, e, s, b) ==> a == b)
    && (forall i :: 0 <= i < |s| && s[i].newId.Some? ==> p.base.next <= s[i].newId.value < e.next)
    && (forall i, j :: 0 <= i < j < |s| && s[i].newId.Some? ==> s[i].newId != s[j].newId)
    && (forall i :: 0 <= i < |s| && s[i].newId.Some? && s[i].newId.value in e.containers ==>
                      e.containers[s[i].newId.value].name == s[i].was.name)
  }

  /** An original left running never misses a member it depends on that was running before: none of those has been stopped. */
  ghost predicate DependenciesRun(p: Plan, e: State, s: seq<Entry>) {
    forall j, d :: 0 <= j < |s| && 0 <= d < |s| && DependsOn(p.labels, j, d) && OriginalRuns(e, s[j]) ==>
                     s[d].was.status.Running? ==> OriginalRuns(e, s[d])
  }

  ghost predicate Careful(p: Plan, w: World<Journal>) {
    && Matches(p)
    && Consistent(w.engine) && p.base.next <= w.engine.next
    && OriginalsKept(w.engine, w.saved.entries, w.status)
    && WrittenAhead(w.engine, w.saved.entries)
    && BystandersKept(p, w.engine)
    && CandidatesAccounted(p, w.engine, w.saved.entries)
    && (!Succeeded(w.status) ==> DependenciesRun(p, w.engine, w.saved.entries))
  }

  ghost predicate Safe(p: Plan, w: World<Journal>) {
    && SamePlan(p, w.saved.entries)
    && if w.saved.mutated then Careful(p, w)
       else w.engine == p.base && !Succeeded(w.status) && forall x :: x in w.saved.entries ==> x.newId.None?
  }

  // ---- Safety of one step ----------------------------------------------------

  /** The candidate passed the readiness test when it was last looked at. */
  ghost predicate SeenReady(seen: map<Id, Observation>, x: Entry) {
    x.newId.Some? && x.newId.value in seen && Accepted(x, seen[x.newId.value])
  }

  ghost predicate DependenciesReady(p: Plan, seen: map<Id, Observation>, s: seq<Entry>, j: int) {
    forall d :: 0 <= d < |s| && DependsOn(p.labels, j, d) ==> SeenReady(seen, s[d])
  }

  ghost predicate Started(e0: State, e1: State, id: Id) {
    && id in e0.containers && e0.containers[id].status.Created?
    && id in e1.containers && !e1.containers[id].status.Created?
  }

  /** A candidate is started only when the candidates it depends on have been seen ready. */
  ghost predicate StartsInOrder(p: Plan, w0: World<Journal>, w1: World<Journal>) {
    var s := w0.saved.entries;
    forall j :: 0 <= j < |s| && s[j].newId.Some? && Started(w0.engine, w1.engine, s[j].newId.value) ==>
                  DependenciesReady(p, w0.seen, s, j)
  }

  /** An original is removed only after success, and only while it is stopped under its backup name. */
  ghost predicate RemovalsJustified(p: Plan, w0: World<Journal>, w1: World<Journal>) {
    var s, c0 := w0.saved.entries, w0.engine.containers;
    forall i :: 0 <= i < |s| && s[i].id in c0 && s[i].id !in w1.engine.containers ==>
                  && Succeeded(w0.status)
                  && c0[s[i].id].name == s[i].backup && !Runs(w0.engine, w0.exits, s[i].id) && c0[s[i].id].image == s[i].was.image
  }

  /** The candidate is there, made as wanted, and the original is stopped under its recovery name. */
  ghost predicate InPlace(e: State, exits: Exits, x: Entry) {
    && x.newId.Some? && x.newId.value in e.containers && x.id in e.containers
    && e.containers[x.newId.value] ==
       Container(x.was.name, x.targetImage, x.wanted, x.was.endpoints, e.containers[x.newId.value].status)
    && e.containers[x.id].name == x.backup && !Runs(e, exits, x.id)
    && e.containers[x.id].image == x.was.image && e.containers[x.id].config == x.was.config
  }

  /** In place, and seen ready at the candidate's own poll; it may have exited by itself since. */
  ghost predicate EntryReplaced(e: State, exits: Exits, seen: map<Id, Observation>, x: Entry) {
    InPlace(e, exits, x) && SeenReady(seen, x)
  }

  ghost predicate Replaced(e: State, exits: Exits, seen: map<Id, Observation>, s: seq<Entry>) {
    forall i :: 0 <= i < |s| ==> EntryReplaced(e, exits, seen, s[i])
  }

  /** In place, and ready at this moment. */
  ghost predicate EntryLooksReplaced(e: State, exits: Exits, x: Entry) {
    InPlace(e, exits, x) && ReadyStatus(x, Observed(e, exits, x.newId.value).status)
  }

  ghost predicate LooksReplaced(e: State, exits: Exits, s: seq<Entry>) {
    forall i :: 0 <= i < |s| ==> EntryLooksReplaced(e, exits, s[i])
  }

  /** What a recorded outcome promises about the Engine at that moment. */
  ghost predicate Honest(p: Plan, w: World<Journal>) {
    match w.status
    case Active => true
    case Finished(Verified) => Replaced(w.engine, w.exits, w.seen, w.saved.entries)
    case Finished(Reconciled) => Replaced(w.engine, w.exits, w.seen, w.saved.entries)
    case Finished(RecoveryRequired) => true
    case Finished(_) => w.engine.containers == p.base.containers
  }

  ghost predicate StepOk(p: Plan, w0: World<Journal>, w1: World<Journal>) {
    && StartsInOrder(p, w0, w1)
    && RemovalsJustified(p, w0, w1)
    && (w0.status != w1.status ==> Honest(p, w1))
  }

  /** Every world is safe and every step between consecutive worlds is justified. */
  ghost predicate Sound(p: Plan, h: seq<World<Journal>>) {
    && (forall k :: 0 <= k < |h| ==> Safe(p, h[k]))
    && forall a, b :: 0 <= a && b == a + 1 && b < |h| ==> StepOk(p, h[a], h[b])
  }

  lemma SoundGrows(p: Plan, h: seq<World<Journal>>, w: World<Journal>)
    requires |h| > 0 && Sound(p, h) && Safe(p, w) && StepOk(p, h[|h| - 1], w)
    ensures Sound(p, h + [w])
  {
    hide Safe, StepOk;
    var longer := h + [w];
    forall a, b | 0 <= a && b == a + 1 && b < |longer| ensures StepOk(p, longer[a], longer[b]) {
      if b < |h| {
        assert longer[a] == h[a] && longer[b] == h[b];
      }
    }
  }

  /** A crash leaves a prefix of the history, which is sound as well. */
  lemma SoundPrefix(p: Plan, h: seq<World<Journal>>, k: nat)
    requires Sound(p, h) && k <= |h|
    ensures Sound(p, h[..k])
  {
    hide Safe, StepOk;
    forall a, b | 0 <= a && b == a + 1 && b < k ensures StepOk(p, h[..k][a], h[..k][b]) {
      assert h[..k][a] == h[a] && h[..k][b] == h[b];
    }
  }

  // ---- How calls keep a world safe ------------------------------------------

  lemma NotOwnDependency(p: Plan, j: nat)
    requires ValidPlan(p) && j < |p.entries|
    ensures !DependsOn(p.labels, j, j)
  {
    assert j in p.order;
    var k :| 0 <= k < |p.order| && p.order[k] == j;
    GroupDependenciesAreEarlier(p.labels, |p.entries|, p.order, k, k);
  }

  /** Candidates are created with fresh identities, so no original is taken for one. */
  lemma CandidatesAreNew(p: Plan, e: State, s: seq<Entry>, id: Id)
    requires ValidPlan(p) && Matches(p) && SamePlan(p, s) && CandidatesAccounted(p, e, s)
    ensures Known(s, id) ==> id !in p.base.containers
    ensures Consistent(p.base) && (IsOriginal(p, id) ==> id in p.base.containers)
    ensures forall i :: 0 <= i < |s| ==> IsOriginal(p, s[i].id)
  {
    forall i | 0 <= i < |s| ensures IsOriginal(p, s[i].id) {
      assert p.entries[i].id == s[i].id;
    }
  }

  /** Changing a container that was there from the start leaves the candidates accounted for. */
  lemma AccountedAfterOldChange(p: Plan, e: State, s: seq<Entry>, id: Id, c: Container)
    requires CandidatesAccounted(p, e, s) && id in e.containers && id in p.base.containers && Consistent(p.base)
    ensures CandidatesAccounted(p, Put(e, id, c), s)
  {
    var e1 := Put(e, id, c);
    forall x | x in e1.containers && x !in p.base.containers
      ensures x >= p.base.next && exists i :: CandidateOf(s, i, x, e1.containers[x])
    {
      assert e1.containers[x] == e.containers[x];
    }
    forall x ensures Unsaved(p, e1, s, x) <==> Unsaved(p, e, s, x) {
    }
  }

  /** So does changing a candidate without renaming it. */
  lemma AccountedAfterCandidateChange(p: Plan, e: State, s: seq<Entry>, id: Id, c: Container)
    requires CandidatesAccounted(p, e, s) && id in e.containers && c.name == e.containers[id].name
    ensures CandidatesAccounted(p, Put(e, id, c), s)
  {
    var e1 := Put(e, id, c);
    forall x | x in e1.containers && x !in p.base.containers
      ensures x >= p.base.next && exists i :: CandidateOf(s, i, x, e1.containers[x])
    {
      var i :| CandidateOf(s, i, x, e.containers[x]);
      assert CandidateOf(s, i, x, e1.containers[x]);
    }
    forall x ensures Unsaved(p, e1, s, x) <==> Unsaved(p, e, s, x) {
    }
  }

  lemma AccountedAfterRemoval(p: Plan, e: State, s: seq<Entry>, id: Id)
    requires CandidatesAccounted(p, e, s)
    ensures CandidatesAccounted(p, Drop(e, id), s)
  {
    var e1 := Drop(e, id);
    forall x | x in e1.containers && x !in p.base.containers
      ensures x >= p.base.next && exists i :: CandidateOf(s, i, x, e1.containers[x])
    {
      assert x in e.containers && e1.containers[x] == e.containers[x];
    }
    forall x ensures Unsaved(p, e1, s, x) ==> Unsaved(p, e, s, x) {
    }
  }

  lemma AccountedAfterCreation(p: Plan, e: State, exits: Exits, s: seq<Entry>, i: nat, c: Container)
    requires CandidatesAccounted(p, e, s) && NoneLost(p, e, s) && p.base.next <= e.next
    requires i < |s| && s[i].newId.None? && c.name == s[i].was.name && Legal(e, exits, Create(c))
    ensures CandidatesAccounted(p, Apply(e, exits, Create(c), 0), s)
  {
    var e1 := Apply(e, exits, Create(c), 0);
    forall x | x in e1.containers && x !in p.base.containers
      ensures x >= p.base.next && exists k :: CandidateOf(s, k, x, e1.containers[x])
    {
      if x == e.next {
        assert CandidateOf(s, i, x, e1.containers[x]);
      } else {
        assert e1.containers[x] == e.containers[x];
      }
    }
    forall x ensures Unsaved(p, e1, s, x) ==> x == e.next {
      assert !Unsaved(p, e, s, x);
    }
  }

  /** The rest of a world's safety when one touched original changes. */
  lemma OthersKeptAfterOriginal(p: Plan, e: State, s: seq<Entry>, status: JobStatus, i: nat, c: Container)
    requires ValidPlan(p) && Matches(p) && SamePlan(p, s)
    requires OriginalsKept(e, s, status) && WrittenAhead(e, s) && BystandersKept(p, e)
    requires i < |s| && s[i].touched && Kept(s[i], c)
    ensures var e1 := Put(e, s[i].id, c); OriginalsKept(e1, s, status) && WrittenAhead(e1, s) && BystandersKept(p, e1)
  {
    assert forall k :: 0 <= k < |s| && k != i ==> s[k].id != s[i].id;
    assert p.entries[i].id == s[i].id;
  }

  lemma DependenciesRunAfterOriginal(p: Plan, e: State, s: seq<Entry>, i: nat, c: Container)
    requires ValidPlan(p) && SamePlan(p, s) && DependenciesRun(p, e, s) && i < |s| && s[i].id in e.containers
    requires c.status.Running? ==>
               forall d :: 0 <= d < |s| && DependsOn(p.labels, i, d) && s[d].was.status.Running? ==> OriginalRuns(e, s[d])
    requires e.containers[s[i].id].status.Running? && !c.status.Running? ==>
               forall j :: 0 <= j < |s| && DependsOn(p.labels, j, i) ==> !OriginalRuns(e, s[j])
    ensures DependenciesRun(p, Put(e, s[i].id, c), s)
  {
    var e1 := Put(e, s[i].id, c);
    assert forall k :: 0 <= k < |s| && k != i ==> s[k].id != s[i].id && (OriginalRuns(e1, s[k]) <==> OriginalRuns(e, s[k]));
    NotOwnDependency(p, i);
  }

  /** Changing one touched original, within what `Kept` allows. */
  lemma OriginalChanges(p: Plan, w: World<Journal>, i: nat, c: Container, exits: Exits)
    requires ValidPlan(p) && Safe(p, w) && w.saved.mutated
    requires i < |w.saved.entries| && w.saved.entries[i].touched && w.saved.entries[i].id in w.engine.containers
    requires Kept(w.saved.entries[i], c) && Consistent(Put(w.engine, w.saved.entries[i].id, c))
    requires c.status.Running? && !Succeeded(w.status) ==>
               forall d :: 0 <= d < |w.saved.entries| && DependsOn(p.labels, i, d) && w.saved.entries[d].was.status.Running? ==>
                             OriginalRuns(w.engine, w.saved.entries[d])
    requires w.engine.containers[w.saved.entries[i].id].status.Running? && !c.status.Running? && !Succeeded(w.status) ==>
               forall j :: 0 <= j < |w.saved.entries| && DependsOn(p.labels, j, i) ==>
                             !OriginalRuns(w.engine, w.saved.entries[j])
    ensures var w1 := w.(engine := Put(w.engine, w.saved.entries[i].id, c), exits := exits); Safe(p, w1) && StepOk(p, w, w1)
  {
    hide CandidatesAccounted, DependenciesRun, OriginalsKept, WrittenAhead, BystandersKept, Consistent, ValidPlan, Matches,
      Kept, Honest, DependsOn, OriginalRuns;
    var s := w.saved.entries;
    var id := s[i].id;
    CandidatesAreNew(p, w.engine, s, id);
    OthersKeptAfterOriginal(p, w.engine, s, w.status, i, c);
    AccountedAfterOldChange(p, w.engine, s, id, c);
    if !Succeeded(w.status) {
      DependenciesRunAfterOriginal(p, w.engine, s, i, c);
    }
    forall j | 0 <= j < |s| && s[j].newId.Some? ensures s[j].newId.value != id {
      assert Known(s, s[j].newId.value);
      CandidatesAreNew(p, w.engine, s, s[j].newId.value);
    }
  }

  lemma OthersKeptAfterCandidate(p: Plan, w: World<Journal>, e1: State, exits: Exits, id: Id)
    requires ValidPlan(p) && Matches(p) && SamePlan(p, w.saved.entries) && id !in p.base.containers
    requires OriginalsKept(w.engine, w.saved.entries, w.status) && WrittenAhead(w.engine, w.saved.entries)
    requires BystandersKept(p, w.engine)
    requires forall x :: x != id ==>
               (x in e1.containers <==> x in w.engine.containers) && (x in e1.containers ==> e1.containers[x] == w.engine.containers[x])
    ensures OriginalsKept(e1, w.saved.entries, w.status) && WrittenAhead(e1, w.saved.entries) && BystandersKept(p, e1)
    ensures DependenciesRun(p, w.engine, w.saved.entries) ==> DependenciesRun(p, e1, w.saved.entries)
    ensures RemovalsJustified(p, w, w.(engine := e1, exits := exits))
  {
    var s := w.saved.entries;
    assert forall k :: 0 <= k < |s| ==> s[k].id != id && (OriginalRuns(e1, s[k]) <==> OriginalRuns(w.engine, s[k]));
  }

  /** Changing the status of one candidate. */
  lemma CandidateChanges(p: Plan, w: World<Journal>, id: Id, status: Status, exits: Exits)
    requires ValidPlan(p) && Safe(p, w) && w.saved.mutated
    requires id in w.engine.containers && id !in p.base.containers
    requires w.engine.containers[id].status.Created? && !status.Created? ==>
               forall j :: 0 <= j < |w.saved.entries| && w.saved.entries[j].newId == Some(id) ==>
                             DependenciesReady(p, w.seen, w.saved.entries, j)
    ensures var w1 := w.(engine := Put(w.engine, id, w.engine.containers[id].(status := status)), exits := exits);
            Safe(p, w1) && StepOk(p, w, w1)
  {
    hide CandidatesAccounted, DependenciesRun, OriginalsKept, WrittenAhead, BystandersKept, ValidPlan, Matches,
      Kept, Honest, DependsOn, DependenciesReady, RemovalsJustified;
    var c := w.engine.containers[id].(status := status);
    OthersKeptAfterCandidate(p, w, Put(w.engine, id, c), exits, id);
    AccountedAfterCandidateChange(p, w.engine, w.saved.entries, id, c);
  }

  lemma CandidateRemoved(p: Plan, w: World<Journal>, id: Id, exits: Exits)
    requires ValidPlan(p) && Safe(p, w) && w.saved.mutated && id !in p.base.containers
    ensures var w1 := w.(engine := Drop(w.engine, id), exits := exits); Safe(p, w1) && StepOk(p, w, w1)
  {
    hide CandidatesAccounted, DependenciesRun, OriginalsKept, WrittenAhead, BystandersKept, ValidPlan, Matches,
      Kept, Honest, DependsOn, DependenciesReady, RemovalsJustified;
    OthersKeptAfterCandidate(p, w, Drop(w.engine, id), exits, id);
    AccountedAfterRemoval(p, w.engine, w.saved.entries, id);
  }

  /** A candidate appears while the journal still knows all the others. */
  lemma CandidateCreated(p: Plan, w: World<Journal>, i: nat, c: Container)
    requires ValidPlan(p) && Safe(p, w) && w.saved.mutated
    requires i < |w.saved.entries| && w.saved.entries[i].newId.None? && c.name == w.saved.entries[i].was.name
    requires NoneLost(p, w.engine, w.saved.entries) && Legal(w.engine, w.exits, Create(c))
    ensures var w1 := w.(engine := Apply(w.engine, w.exits, Create(c), 0)); Safe(p, w1) && StepOk(p, w, w1)
  {
    assert w.engine.next !in w.engine.containers && w.engine.next !in p.base.containers;
    NamesStayUnique(w.engine, w.exits, Create(c), 0);
    CreatedIsSafe(p, w, i, c);
  }

  lemma CreatedIsSafe(p: Plan, w: World<Journal>, i: nat, c: Container)
    requires ValidPlan(p) && Safe(p, w) && w.saved.mutated
    requires i < |w.saved.entries| && w.saved.entries[i].newId.None? && c.name == w.saved.entries[i].was.name
    requires NoneLost(p, w.engine, w.saved.entries) && Legal(w.engine, w.exits, Create(c))
    requires w.engine.next !in w.engine.containers && w.engine.next !in p.base.containers
    requires Consistent(Apply(w.engine, w.exits, Create(c), 0))
    ensures var w1 := w.(engine := Apply(w.engine, w.exits, Create(c), 0)); Safe(p, w1) && StepOk(p, w, w1)
  {
    hide CandidatesAccounted, DependenciesRun, OriginalsKept, WrittenAhead, BystandersKept, ValidPlan, Matches,
      Kept, Honest, DependsOn, DependenciesReady, RemovalsJustified, Consistent, NoneLost;
    OthersKeptAfterCandidate(p, w, Apply(w.engine, w.exits, Create(c), 0), w.exits, w.engine.next);
    AccountedAfterCreation(p, w.engine, w.exits, w.saved.entries, i, c);
  }

  /** Containers that exit by themselves change nothing that calls have done. */
  lemma AgingIsSafe(p: Plan, w: World<Journal>, a: Answer)
    requires Safe(p, w)
    ensures Safe(p, Aged(w, a)) && StepOk(p, w, Aged(w, a))
  {
    hide Careful, Drift;
    if w.saved.mutated {
      SafetyIgnoresExits(p, w, Drift(w.engine, w.exits, a), w.seen);
    }
  }

  /** A success that is true stays true while containers exit. */
  lemma HonestAges(p: Plan, w: World<Journal>, a: Answer)
    requires Honest(p, w)
    ensures Honest(p, Aged(w, a))
  {
    assert forall i :: 0 <= i < |w.saved.entries| && Runs(w.engine, Drift(w.engine, w.exits, a), w.saved.entries[i].id) ==>
                         Runs(w.engine, w.exits, w.saved.entries[i].id);
  }

  /** Neither does looking. */
  lemma LookingIsSafe(p: Plan, w: World<Journal>, seen: map<Id, Observation>)
    requires Safe(p, w)
    ensures Safe(p, w.(seen := seen)) && StepOk(p, w, w.(seen := seen))
  {
    hide Careful;
    if w.saved.mutated {
      SafetyIgnoresExits(p, w, w.exits, seen);
    }
  }

  lemma SafetyIgnoresExits(p: Plan, w: World<Journal>, exits: Exits, seen: map<Id, Observation>)
    ensures Careful(p, w) <==> Careful(p, w.(exits := exits, seen := seen))
  {
  }

  /** Saving a journal that knows at least what the saved one knew. */
  lemma JournalSaved(p: Plan, w: World<Journal>, s1: seq<Entry>)
    requires ValidPlan(p) && Safe(p, w) && w.saved.mutated && SamePlan(p, s1)
    requires forall i :: 0 <= i < |s1| && w.saved.entries[i].touched ==> s1[i].touched
    requires CandidatesAccounted(p, w.engine, s1)
    ensures var w1 := w.(saved := Journal(s1, true)); Safe(p, w1) && StepOk(p, w, w1)
  {
    hide CandidatesAccounted, BystandersKept, Matches, Consistent, ValidPlan, Kept, DependsOn, Honest, DependenciesReady;
    var s, e := w.saved.entries, w.engine;
    forall i | 0 <= i < |s1|
      ensures if s1[i].id in e.containers then Kept(s1[i], e.containers[s1[i].id]) else Succeeded(w.status)
    {
      SameKept(s[i], s1[i]);
    }
    assert forall i :: 0 <= i < |s1| ==> (OriginalRuns(e, s1[i]) <==> OriginalRuns(e, s[i])) && s1[i].was == s[i].was;
  }

  lemma SameKept(x: Entry, y: Entry)
    requires x.was == y.was && x.backup == y.backup
    ensures forall c :: Kept(x, c) <==> Kept(y, c)
  {
  }

  /** Recording an outcome that keeps its promise. */
  lemma OutcomeRecorded(p: Plan, w: World<Journal>, outcome: Outcome)
    requires ValidPlan(p) && Safe(p, w) && Honest(p, w.(status := Finished(outcome)))
    requires Succeeded(w.status) ==> Succeeded(Finished(outcome))
    ensures var w1 := w.(status := Finished(outcome)); Safe(p, w1) && StepOk(p, w, w1)
  {
    var first := w.saved.entries[0];
    assert first in w.saved.entries && (Replaced(w.engine, w.exits, w.seen, w.saved.entries) ==> EntryReplaced(w.engine, w.exits, w.seen, first));
  }

  /** The journal is first marked as mutated while the Engine is untouched. */
  lemma MutationAnnounced(p: Plan, w: World<Journal>, s1: seq<Entry>)
    requires ValidPlan(p) && Safe(p, w) && !w.saved.mutated && Matches(p) && SamePlan(p, s1)
    requires forall x :: x in s1 ==> x.newId.None?
    ensures var w1 := w.(saved := Journal(s1, true)); Safe(p, w1) && StepOk(p, w, w1)
  {
  }

  /** Before the first change the journal only records preparation. */
  lemma PreparationSaved(p: Plan, w: World<Journal>, s1: seq<Entry>)
    requires Safe(p, w) && !w.saved.mutated && SamePlan(p, s1)
    requires forall x :: x in s1 ==> x.newId.None?
    ensures var w1 := w.(saved := Journal(s1, false)); Safe(p, w1) && StepOk(p, w, w1)
  {
  }

  /** Cleanup of one retained original of a job that succeeded. */
  lemma OriginalRemoved(p: Plan, w: World<Journal>, i: nat, exits: Exits)
    requires ValidPlan(p) && Safe(p, w) && w.saved.mutated && Succeeded(w.status)
    requires i < |w.saved.entries| && w.saved.entries[i].id in w.engine.containers
    requires var c := w.engine.containers[w.saved.entries[i].id];
             c.name == w.saved.entries[i].backup && !Runs(w.engine, w.exits, w.saved.entries[i].id) && c.image == w.saved.entries[i].was.image
    ensures var w1 := w.(engine := Drop(w.engine, w.saved.entries[i].id), exits := exits); Safe(p, w1) && StepOk(p, w, w1)
  {
    hide CandidatesAccounted, OriginalsKept, WrittenAhead, BystandersKept, DependenciesRun, Matches, ValidPlan, Known;
    var s := w.saved.entries;
    AccountedAfterRemoval(p, w.engine, s, s[i].id);
    OthersKeptAfterOriginalRemoval(p, w.engine, s, w.status, i);
  }

  lemma OthersKeptAfterOriginalRemoval(p: Plan, e: State, s: seq<Entry>, status: JobStatus, i: nat)
    requires ValidPlan(p) && Matches(p) && SamePlan(p, s) && Succeeded(status) && i < |s|
    requires OriginalsKept(e, s, status) && WrittenAhead(e, s) && BystandersKept(p, e)
    ensures var e1 := Drop(e, s[i].id); OriginalsKept(e1, s, status) && WrittenAhead(e1, s) && BystandersKept(p, e1)
    ensures forall k :: 0 <= k < |s| && k != i ==> s[k].id != s[i].id
  {
    assert p.entries[i].id == s[i].id;
  }

  /** A job that is recorded as successful was, at some earlier moment, seen with every member replaced. */
  lemma {:induction false} SuccessWasVerified(p: Plan, h: seq<World<Journal>>, k: nat)
    requires Sound(p, h) && k < |h| && !Succeeded(h[0].status) && Succeeded(h[k].status)
    ensures exists j :: 0 <= j <= k && Replaced(h[j].engine, h[j].exits, h[j].seen, h[j].saved.entries)
  {
    hide Safe, StartsInOrder, RemovalsJustified, Replaced;
    assert StepOk(p, h[k - 1], h[k]);
    if Succeeded(h[k - 1].status) && h[k - 1].status == h[k].status {
      SuccessWasVerified(p, h, k - 1);
    } else {
      assert Honest(p, h[k]);
    }
  }

  /** No original is ever gone unless every member of its group had been replaced before. */
  lemma NothingLostBeforeSuccess(p: Plan, h: seq<World<Journal>>, k: nat, i: nat)
    requires Sound(p, h) && k < |h| && h[0].status == Active && h[k].saved.mutated
    requires i < |h[k].saved.entries| && h[k].saved.entries[i].id !in h[k].engine.containers
    ensures exists j :: 0 <= j <= k && Replaced(h[j].engine, h[j].exits, h[j].seen, h[j].saved.entries)
  {
    hide StepOk, Replaced;
    assert Safe(p, h[k]);
    SuccessWasVerified(p, h, k);
  }
}
