/**
 * The replacement worker (internal/recreate/worker.go): it retires originals in reverse
 * dependency order, creates and verifies candidates in dependency order, journals before
 * every change, and rolls back on failure.
 */
module Recreate {
  import opened Strings
  import opened ComposeOrder
  import opened Assessment
  import opened Engine
  import opened ReplacementSafety

  /** How a stage ends: go on, stop without touching anything more, or enter failure handling. */
  datatype Step = Onward | Abandon | Broken(expired: bool)

  /** What pulling and image resolution decided, before any original is touched. */
  datatype Verdict = Replace | Refuse(expired: bool) | Skip | NothingNew

  /** How a job ends that is not to replace anything. */
  function OutcomeWithout(v: Verdict): Outcome
    requires !v.Replace?
  {
    match v
    case Refuse(expired) => if expired then RecoveryRequired else NotNeeded
    case Skip => Skipped
    case NothingNew => Outcome.Unchanged
  }

  datatype Resolution = Resolution(image: string, config: Config)

  /** Stops happen in reverse order: once a member is touched, no later member runs. */
  ghost predicate HaltedFrom(p: Plan, e: State, s: seq<Entry>, m: nat) {
    forall a, b :: m <= a < b < |p.order| && p.order[a] < |s| && p.order[b] < |s| && s[p.order[a]].touched ==>
                     !OriginalRuns(e, s[p.order[b]])
  }

  /** Only the container `id` may differ. */
  ghost predicate OnlyAt(e0: State, e1: State, id: Id) {
    && e1.next == e0.next && e1.containers.Keys == e0.containers.Keys
    && forall x :: x in e0.containers && x != id ==> e1.containers[x] == e0.containers[x]
  }

  /** Only the container `id` was looked at. */
  ghost predicate LookedAt(seen0: map<Id, Observation>, seen1: map<Id, Observation>, id: Id) {
    forall x :: x != id ==> (x in seen0 <==> x in seen1) && (x in seen0 ==> seen1[x] == seen0[x])
  }

  ghost predicate IsReady(e: State, exits: Exits, x: Entry, id: Id) {
    id in e.containers && ReadyStatus(x, Observed(e, exits, id).status)
  }

  /** Ready once the one-shots that are running have done their work. */
  ghost predicate WillBeReady(e: State, exits: Exits, x: Entry, id: Id) {
    if x.oneShot then LeftRunning(e, id) && id !in exits else IsReady(e, exits, x, id) && (LeftRunning(e, id) ==> id !in exits)
  }

  /** Since the history had length `from` neither the Engine nor the saved journal has been anything else. */
  ghost predicate Idle(h: seq<World<Journal>>, from: nat, e: State, j: Journal) {
    forall k :: from <= k < |h| ==> h[k].engine == e && h[k].saved == j
  }

  lemma IdleAdds(h0: seq<World<Journal>>, h1: seq<World<Journal>>, from: nat, e: State, j: Journal)
    requires h0 <= h1 && Idle(h0, from, e, j) && Idle(h1, |h0|, e, j)
    ensures Idle(h1, from, e, j)
  {
    forall k | from <= k < |h1| ensures h1[k].engine == e && h1[k].saved == j {
      if k < |h0| {
        assert h1[k] == h0[k];
      }
    }
  }

  /** At some moment since the history had length `from` this original passed the readiness test. */
  ghost predicate WasSeenReady(h: seq<World<Journal>>, from: nat, x: Entry) {
    exists k :: from <= k < |h| && x.id in h[k].seen && Accepted(x, h[k].seen[x.id])
  }

  /** The identities of the one-shot candidates, when candidates are created in order from the first. */
  function Brief(p: Plan): set<Id> {
    set k | 0 <= k < |p.order| && p.order[k] < |p.entries| && p.entries[p.order[k]].oneShot :: p.base.next + k
  }

  /** Nothing has exited by itself but one-shot candidates, and those with success. */
  ghost predicate AllUp(p: Plan, exits: Exits) {
    forall id :: id in exits ==> id in Brief(p) && exits[id] == 0
  }

  /** Nothing but one-shot candidates has exited between the two. */
  ghost predicate StillUp(p: Plan, x0: Exits, x1: Exits) {
    forall id :: id !in Brief(p) ==> (id in x0 <==> id in x1) && (id in x0 ==> x1[id] == x0[id])
  }

  /** The same of the containers that exist. */
  ghost predicate StillUpIn(p: Plan, e: State, x0: Exits, x1: Exits) {
    forall id :: id in e.containers && id !in Brief(p) ==> (id in x0 <==> id in x1)
  }

  lemma StillUpWithout(p: Plan, e: State, x0: Exits, x1: Exits, id: Id)
    ensures StillUp(p, x0, x1) ==> StillUpIn(p, e, x0, x1) && StillUpIn(p, Drop(e, id), x0, x1 - {id})
  {
  }

  lemma StillUpIsTransitive(p: Plan)
    ensures forall x :: StillUp(p, x, x)
    ensures forall x0, x1, x2 :: StillUp(p, x0, x1) && StillUp(p, x1, x2) ==> StillUp(p, x0, x2)
  {
  }

  lemma RestIsUp(p: Plan, e: State, x: Exits)
    ensures AllUp(p, x) ==> AllUp(p, Rest(e, x, Brief(p)))
    ensures StillUp(p, x, Rest(e, x, Brief(p)))
  {
  }

  /** An original is not taken for a one-shot candidate. */
  lemma OriginalsAreNotBrief(p: Plan)
    requires Consistent(p.base)
    ensures forall id :: id in p.base.containers ==> id !in Brief(p)
  {
  }

  /** The call is one the protocol may make on original `i` in this state. */
  ghost predicate MayAlter(p: Plan, e: State, s: seq<Entry>, i: nat, c: Call)
    requires i < |s|
  {
    && !c.Create? && !c.Remove? && c.id == s[i].id && s[i].touched && s[i].id in e.containers
    && (c.Rename? ==> c.name == s[i].was.name || c.name == s[i].backup)
    && (c.Connect? ==> c.network in s[i].was.endpoints && c.endpoint == s[i].was.endpoints[c.network])
    && (c.Stop? ==> NoDependantRuns(p, e, s, i))
    && (c.Start? ==> s[i].was.status.Running? && DependenciesOfRun(p, e, s, i))
  }

  ghost predicate NoDependantRuns(p: Plan, e: State, s: seq<Entry>, i: nat) {
    forall j :: 0 <= j < |s| && DependsOn(p.labels, j, i) ==> !OriginalRuns(e, s[j])
  }

  ghost predicate DependenciesOfRun(p: Plan, e: State, s: seq<Entry>, i: nat) {
    forall d :: 0 <= d < |s| && DependsOn(p.labels, i, d) && s[d].was.status.Running? ==> OriginalRuns(e, s[d])
  }

  lemma EffectIsThere(e: State, x: Exits, c: Call, a: Answer)
    requires !c.Create? && !c.Remove?
    ensures OnlyAt(e, Effect(e, x, c, a), c.id)
  {
  }

  lemma AlteringIsSafe(p: Plan, w: World<Journal>, i: nat, c: Call, exit: int)
    requires ValidPlan(p) && Safe(p, w) && w.saved.mutated && i < |w.saved.entries| && ExitsFit(w.engine, w.exits)
    requires MayAlter(p, w.engine, w.saved.entries, i, c) && Legal(w.engine, w.exits, c)
    ensures var w1 := w.(engine := Apply(w.engine, w.exits, c, exit), exits := Settled(w.exits, c)); Safe(p, w1) && StepOk(p, w, w1)
  {
    hide ValidPlan, Matches, WrittenAhead, BystandersKept, CandidatesAccounted, StepOk, DependsOn, Settled;
    var x := w.saved.entries[i];
    NamesStayUnique(w.engine, w.exits, c, exit);
    assert Kept(x, w.engine.containers[x.id]);
    var after := Changed(w.engine, w.exits, c, exit);
    assert Kept(x, after);
    if !w.engine.containers[x.id].status.Running? && after.status.Running? {
      assert c.Start?;
    } else if after.status.Running? {
      assert OriginalRuns(w.engine, x);
    }
    OriginalChanges(p, w, i, after, Settled(w.exits, c));
  }

  lemma StayingIsSafe(p: Plan, w: World<Journal>)
    requires Safe(p, w)
    ensures StepOk(p, w, w)
  {
  }

  /** Not ready yet, and nothing against it: a one-shot that has not ended, or a running container that is starting or has not settled. */
  predicate Waits(x: Entry, o: Observation) {
    && o.steady && (x.oneShot || x.was.status.Running?)
    && if x.oneShot then !o.status.Exited?
       else o.status.Running? && (o.health.Starting? || (!o.health.Unhealthy? && !o.settled))
  }

  /** One poll of the readiness loop: ready, failed, or wait. */
  function Judged(x: Entry, seen: Seen, a: Answer): (r: Option<bool>)
    ensures r == Some(true) <==> seen.Found? && Accepted(x, Shown(seen, a))
    ensures r == None <==> seen.Found? && Waits(x, Shown(seen, a))
  {
    if !seen.Found? || !a.steady then Some(false)
    else
      var status := seen.container.status;
      if x.oneShot then
        if status.Exited? then Some(status.code == 0) else None
      else if !x.was.status.Running? then Some(!status.Running?)
      else if !status.Running? || a.health.Unhealthy? then Some(false)
      else if (a.health.NoHealth? || a.health.Healthy?) && a.settled then Some(true)
      else None
  }

  /** What the polls find, when call `n` has set the deadline. */
  function PollsOf(x: Entry, id: Id, e: State, exits: Exits, script: nat -> Answer, n: nat): Polls {
    (k: nat) => PollAt(x, id, e, exits, script, n, k)
  }

  function PollAt(x: Entry, id: Id, e: State, exits: Exits, script: nat -> Answer, n: nat, k: nat): Option<bool> {
    var a := script(n + 1 + k);
    Judged(x, Inspection(e, ExitsAt(e, exits, script, n, k + 2), id, a), a)
  }

  class Worker {
    const host: Host<Journal>
    const order: seq<nat>
    ghost const plan: Plan
    var state: Journal
    /** The call with which failure handling began. */
    ghost var failing: Option<nat>

    constructor (host: Host<Journal>, order: seq<nat>, state: Journal, ghost plan: Plan)
      ensures this.host == host && this.order == order && this.state == state && this.plan == plan && failing.None?
    {
      this.host, this.order, this.state, this.plan, this.failing := host, order, state, plan, None;
    }

    /** Call `n` works, and one-shot candidates that were started before it have done their work. */
    ghost predicate FineAt(n: nat) {
      Fine(host.script(n), Brief(plan))
    }

    /** The call numbered `n` takes effect and is heard to. */
    ghost predicate Answered(n: nat) {
      host.script(n).done && host.script(n).heard
    }

    /** The call numbered `n` takes effect, but nothing comes back. */
    ghost predicate Unheard(n: nat) {
      host.script(n).done && !host.script(n).heard
    }

    /** A request to the store was the last thing that happened and was not heard to, or the job's outcome is on record. */
    ghost predicate Ended(n: nat)
      reads this, host
    {
      if host.status == Active then host.calls > n && host.refused == Some(host.calls - 1)
      else host.calls >= n + 2 && Answered(host.calls - 2) && host.script(host.calls - 1).done
    }

    /** A step that fails says truly whether time is up, and loses a candidate only with the response of its last call. */
    ghost predicate Traceable(expired: bool)
      reads this, host
    {
      && host.calls > 0 && (expired ==> host.script(host.calls - 1).expired)
      && (state.mutated ==> NoneLost(plan, host.engine, state.entries) || Unheard(host.calls - 1))
    }

    /**
     * How a run ends: without failure handling the first unanswered request to the store is the last, and only
     * a job without failure is recorded as such; and a failure that can be put right is.
     */
    ghost predicate Concluded(before: Option<nat>)
      reads this, host
    {
      match failing
      case None =>
        && (host.refused == before || host.refused == Some(host.calls - 1))
        && (host.status == Active || host.status.outcome in {Verified, Skipped, Outcome.Unchanged})
      case Some(n) =>
        && (host.status == Active || host.status.outcome in {NotNeeded, RolledBack, RecoveryRequired})
        && (state.mutated && Repairable(n) ==> host.status == Finished(RolledBack))
        && (!state.mutated && InTime(n) && Answered(n + 1) && host.script(n + 2).done ==> host.status == Finished(NotNeeded))
    }

    /** Time was not up when the failure handling began with call `n`. */
    ghost predicate InTime(n: nat) {
      n > 0 && !host.script(n - 1).expired && !host.script(n).expired
    }

    /** The failure handling that begins with call `n` can put everything right. */
    ghost predicate Repairable(n: nat) {
      InTime(n) && !Unheard(n - 1) && FineFrom(n + 2)
    }

    /** All calls from the `n`-th on work, and containers become ready within the deadlines, after however many polls. */
    ghost predicate FineFrom(n: nat) {
      && (forall k :: n <= k ==> Fine(host.script(k), Brief(plan)))
      && forall k {:trigger Patient(host.script, k)} :: n <= k ==> Patient(host.script, k)
    }

    ghost predicate FineFor(n: nat, m: nat) {
      forall k :: n <= k < n + m ==> Fine(host.script(k), Brief(plan))
    }

    /** What a call that works does to the exits. */
    lemma FineExits(n: nat, e: State, x: Exits)
      ensures FineAt(n) ==> Drift(e, x, host.script(n)) == Rest(e, x, Brief(plan))
      ensures AllUp(plan, x) ==> AllUp(plan, Rest(e, x, Brief(plan)))
      ensures StillUp(plan, x, Rest(e, x, Brief(plan)))
      ensures Rest(e, Rest(e, x, Brief(plan)), Brief(plan)) == Rest(e, x, Brief(plan))
      ensures forall c :: AllUp(plan, x) ==> AllUp(plan, Settled(Rest(e, x, Brief(plan)), c))
    {
      FineIsRest(e, x, Brief(plan));
      RestIsUp(plan, e, x);
    }

    ghost predicate Valid()
      reads this, host
    {
      && ValidPlan(plan) && plan.order == order
      && host.Valid() && Sound(plan, host.history)
      && SamePlan(plan, state.entries)
    }

    /** The saved journal is the worker's own, and it announces changes to the Engine. */
    ghost predicate Synced()
      reads this, host
    {
      host.saved == state && state.mutated
    }

    lemma NowIsSafe()
      requires Valid()
      ensures Safe(plan, host.Now()) && Consistent(host.engine) && ExitsFit(host.engine, host.exits)
    {
      hide Safe, StepOk, ValidPlan;
      assert Possible(host.history[|host.history| - 1]);
    }

    /** A call that lets time pass and then makes a justified step keeps the history sound. */
    lemma Extends(h: seq<World<Journal>>, a: Answer, now: World<Journal>)
      requires ValidPlan(plan) && |h| > 0 && Sound(plan, h)
      requires Safe(plan, now) && StepOk(plan, Aged(h[|h| - 1], a), now)
      ensures Sound(plan, h + [Aged(h[|h| - 1], a)] + [now]) && h <= h + [Aged(h[|h| - 1], a)] + [now]
    {
      hide Safe, StepOk, ValidPlan;
      Ages(h, a);
      SoundGrows(plan, h + [Aged(h[|h| - 1], a)], now);
    }

    lemma Ages(h: seq<World<Journal>>, a: Answer)
      requires |h| > 0 && Sound(plan, h)
      ensures Sound(plan, h + [Aged(h[|h| - 1], a)]) && Safe(plan, Aged(h[|h| - 1], a))
    {
      hide Safe, StepOk;
      assert Safe(plan, h[|h| - 1]);
      AgingIsSafe(plan, h[|h| - 1], a);
      SoundGrows(plan, h, Aged(h[|h| - 1], a));
    }

    /** A call on a touched original. */
    method Alter(ghost i: nat, c: Call) returns (r: Reply)
      requires Valid() && Synced() && i < |state.entries| && MayAlter(plan, host.engine, state.entries, i, c)
      modifies host`calls, host`engine, host`exits, host`history
      ensures Valid() && Synced() && host.calls == old(host.calls) + 1 && old(host.history) <= host.history
      ensures FineFrom(old(host.calls)) && AllUp(plan, old(host.exits)) ==> AllUp(plan, host.exits)
      ensures var a := host.script(old(host.calls)); var x := Drift(old(host.engine), old(host.exits), a);
              && host.engine == Effect(old(host.engine), x, c, a)
              && host.exits == (if a.done && Legal(old(host.engine), x, c) then Settled(x, c) else x)
              && r == Response(old(host.engine), x, c, a)
      ensures OnlyAt(old(host.engine), host.engine, c.id)
    {
      hide Safe, StepOk, ValidPlan, Sound, SamePlan, Rest, Brief, AllUp, StillUp, Drift, Settled, Legal, Apply, Response,
        OnlyAt;
      ghost var h, a := host.history, host.script(host.calls);
      Ages(h, a);
      FineExits(host.calls, host.engine, host.exits);
      ghost var w := Aged(host.Now(), a);
      AgedFits(a);
      EffectIsThere(w.engine, w.exits, c, a);
      r := host.Do(c);
      if a.done && Legal(w.engine, w.exits, c) {
        AlteringIsSafe(plan, w, i, c, a.exit);
      } else {
        StayingIsSafe(plan, w);
      }
      Extends(h, a, host.Now());
    }

    lemma AgedFits(a: Answer)
      requires Valid()
      ensures ExitsFit(host.engine, Drift(host.engine, host.exits, a))
    {
      hide Sound, ValidPlan;
      NowIsSafe();
    }

    method RemoveCandidate(id: Id) returns (r: Reply)
      requires Valid() && Synced() && id !in plan.base.containers
      modifies host`calls, host`engine, host`exits, host`history
      ensures Valid() && Synced() && host.calls == old(host.calls) + 1 && old(host.history) <= host.history
      ensures host.engine == old(host.engine) || host.engine == Drop(old(host.engine), id)
      ensures r.Done? || r.Missing? ==> id !in host.engine.containers
      ensures FineAt(old(host.calls)) ==> r.Done? || r.Missing?
    {
      hide Safe, StepOk, ValidPlan, Sound, SamePlan, Rest, Brief, AllUp, StillUp;
      ghost var h, a := host.history, host.script(host.calls);
      Ages(h, a);
      FineExits(host.calls, host.engine, host.exits);
      ghost var w := Aged(host.Now(), a);
      r := host.Do(Remove(id, true));
      if a.done && Legal(w.engine, w.exits, Remove(id, true)) {
        CandidateRemoved(plan, w, id, Settled(w.exits, Remove(id, true)));
      } else {
        StayingIsSafe(plan, w);
      }
      Extends(h, a, host.Now());
    }

    method CreateCandidate(i: nat, c: Container) returns (r: Reply)
      requires Valid() && Synced() && i < |state.entries| && state.entries[i].newId.None?
      requires c.name == state.entries[i].was.name && NoneLost(plan, host.engine, state.entries)
      modifies host`calls, host`engine, host`exits, host`history
      ensures Valid() && Synced() && host.calls == old(host.calls) + 1 && old(host.history) <= host.history
      ensures FineFrom(old(host.calls)) && AllUp(plan, old(host.exits)) ==> AllUp(plan, host.exits)
      ensures var a := host.script(old(host.calls)); var x := Drift(old(host.engine), old(host.exits), a);
              && host.engine == Effect(old(host.engine), x, Create(c), a) && host.exits == x
              && r == Response(old(host.engine), x, Create(c), a)
    {
      hide Safe, StepOk, ValidPlan, Sound, SamePlan, NoneLost, Rest, Brief, AllUp, StillUp;
      ghost var h, a := host.history, host.script(host.calls);
      Ages(h, a);
      FineExits(host.calls, host.engine, host.exits);
      ghost var w := Aged(host.Now(), a);
      r := host.Do(Create(c));
      if a.done && Legal(w.engine, w.exits, Create(c)) {
        CandidateCreated(plan, w, i, c);
      } else {
        StayingIsSafe(plan, w);
      }
      Extends(h, a, host.Now());
    }

    method StartCandidate(i: nat, id: Id) returns (r: Reply)
      requires Valid() && Synced() && i < |state.entries| && state.entries[i].newId == Some(id)
      requires id !in plan.base.containers && DependenciesReady(plan, host.seen, state.entries, i)
      modifies host`calls, host`engine, host`exits, host`history
      ensures Valid() && Synced() && host.calls == old(host.calls) + 1 && old(host.history) <= host.history
      ensures FineFrom(old(host.calls)) && AllUp(plan, old(host.exits)) ==> AllUp(plan, host.exits)
      ensures var a := host.script(old(host.calls)); var x := Drift(old(host.engine), old(host.exits), a);
              && host.engine == Effect(old(host.engine), x, Start(id), a)
              && host.exits == (if a.done && Legal(old(host.engine), x, Start(id)) then Settled(x, Start(id)) else x)
              && r == Response(old(host.engine), x, Start(id), a)
      ensures OnlyAt(old(host.engine), host.engine, id)
    {
      hide Safe, StepOk, ValidPlan, Sound, SamePlan, DependenciesReady, Drift, Settled, Legal, Response, OnlyAt, Rest,
        Brief, AllUp, StillUp;
      OwnersAreUnique();
      ghost var h, a := host.history, host.script(host.calls);
      Ages(h, a);
      FineExits(host.calls, host.engine, host.exits);
      ghost var w := Aged(host.Now(), a);
      EffectIsThere(w.engine, w.exits, Start(id), a);
      r := host.Do(Start(id));
      if a.done && Legal(w.engine, w.exits, Start(id)) {
        CandidateChanges(plan, w, id, Running, Settled(w.exits, Start(id)));
      } else {
        StayingIsSafe(plan, w);
      }
      Extends(h, a, host.Now());
    }

    lemma OwnersAreUnique()
      requires Valid() && Synced()
      ensures forall i, j :: 0 <= i < j < |state.entries| && state.entries[i].newId.Some? ==>
                               state.entries[i].newId != state.entries[j].newId
    {
      hide StepOk, Sound, OriginalsKept, WrittenAhead, BystandersKept, DependenciesRun, ValidPlan;
      NowIsSafe();
    }

    /** A look at a container. */
    method Look(id: Id) returns (s: Seen, moved: bool, a: Answer)
      requires Valid()
      modifies host`calls, host`exits, host`seen, host`history
      ensures Valid() && host.calls == old(host.calls) + 1 && old(host.history) <= host.history
      ensures FineAt(old(host.calls)) ==> host.exits == Rest(host.engine, old(host.exits), Brief(plan))
      ensures a == host.script(old(host.calls)) && host.exits == Drift(host.engine, old(host.exits), a)
      ensures Idle(host.history, |old(host.history)|, host.engine, host.saved)
      ensures s == Inspection(host.engine, host.exits, id, a) && (moved <==> s.Found? && id in host.exits)
      ensures host.seen == Noted(old(host.seen), id, s, a)
      ensures |host.history| > |old(host.history)| && host.history[|host.history| - 1].seen == host.seen
      ensures |host.history| == |old(host.history)| + 2
      ensures s.Found? ==> Answered(old(host.calls))
    {
      hide Safe, StepOk, ValidPlan, Sound, SamePlan, Rest, Brief, AllUp, StillUp;
      ghost var h := host.history;
      Ages(h, host.script(host.calls));
      FineExits(host.calls, host.engine, host.exits);
      s, moved, a := host.Inspect(id);
      LookingIsSafe(plan, Aged(h[|h| - 1], a), host.seen);
      Extends(h, a, host.Now());
    }

    /** A request to something else than the Engine. */
    method Ask() returns (ok: bool, a: Answer)
      requires Valid()
      modifies host`calls, host`exits, host`history
      ensures Valid() && host.calls == old(host.calls) + 1 && old(host.history) <= host.history
      ensures FineAt(old(host.calls)) ==> host.exits == Rest(host.engine, old(host.exits), Brief(plan))
      ensures a == host.script(old(host.calls)) && ok == (a.done && a.heard)
      ensures Idle(host.history, |old(host.history)|, host.engine, host.saved)
      ensures host.exits == Drift(host.engine, old(host.exits), a)
    {
      hide Safe, StepOk, ValidPlan, Sound, SamePlan, Rest, Brief, AllUp, StillUp;
      Ages(host.history, host.script(host.calls));
      FineExits(host.calls, host.engine, host.exits);
      ok, a := host.Ask();
    }

    /** A request to the store of jobs, such as for the ownership of a target. */
    method Reserve() returns (ok: bool, a: Answer)
      requires Valid()
      modifies host`calls, host`exits, host`history, host`refused
      ensures Valid() && host.calls == old(host.calls) + 1 && old(host.history) <= host.history
      ensures FineAt(old(host.calls)) ==> host.exits == Rest(host.engine, old(host.exits), Brief(plan))
      ensures a == host.script(old(host.calls)) && ok == Answered(old(host.calls))
      ensures host.refused == if ok then old(host.refused) else Some(old(host.calls))
      ensures Idle(host.history, |old(host.history)|, host.engine, host.saved)
      ensures host.exits == Drift(host.engine, old(host.exits), a)
    {
      hide Safe, StepOk, ValidPlan, Sound, SamePlan, Rest, Brief, AllUp, StillUp;
      Ages(host.history, host.script(host.calls));
      FineExits(host.calls, host.engine, host.exits);
      ok, a := host.Reserve();
    }

    /** One poll of the readiness loop. */
    method Poll(i: nat, id: Id) returns (verdict: Option<bool>)
      requires Valid() && i < |state.entries|
      modifies host`calls, host`exits, host`seen, host`history
      ensures Valid() && host.calls == old(host.calls) + 1 && old(host.history) <= host.history && |old(host.history)| < |host.history|
      ensures LookedAt(old(host.seen), host.seen, id) && forall x :: x in old(host.exits) ==> x in host.exits
      ensures verdict == Some(true) ==> SeesReady(i, id)
      ensures host.exits == Drift(host.engine, old(host.exits), host.script(old(host.calls)))
      ensures var a := host.script(old(host.calls)); verdict == Judged(state.entries[i], Inspection(host.engine, host.exits, id, a), a)
    {
      hide Safe, StepOk, ValidPlan, Sound, SamePlan, Drift, Consistent, ExitsFit, Judged, ReadyStatus, Rest, Brief,
        AllUp, StillUp;
      var seen, _, a := Look(id);
      verdict := Judged(state.entries[i], seen, a);
    }

    /** The container has just been seen ready. */
    ghost predicate SeesReady(i: nat, id: Id)
      reads this, host
    {
      && i < |state.entries| && id in host.engine.containers && id in host.seen && Accepted(state.entries[i], host.seen[id])
      && host.seen[id].status == Observed(host.engine, host.exits, id).status
      && |host.history| > 0 && host.history[|host.history| - 1].seen == host.seen
    }

    /**
     * `ready` of the source, with the number of polls before the deadline unknown. It succeeds if and only
     * if within the deadline a poll finds the container ready and those before it find nothing against it.
     */
    method Ready(i: nat, id: Id) returns (ok: bool)
      requires Valid() && i < |state.entries|
      modifies host`calls, host`exits, host`seen, host`history
      ensures Valid() && host.calls >= old(host.calls) && old(host.history) <= host.history
      ensures LookedAt(old(host.seen), host.seen, id)
      ensures ok ==> SeesReady(i, id) && |old(host.history)| < |host.history|
      ensures forall x :: x in old(host.exits) ==> x in host.exits
      ensures ok <==> Passes(PollsOf(state.entries[i], id, host.engine, old(host.exits), host.script, old(host.calls)),
                              host.script(old(host.calls)).patience)
      ensures FineFrom(old(host.calls)) ==>
                host.exits == Rest(host.engine, old(host.exits), Brief(plan))
                && (IsReady(host.engine, host.exits, state.entries[i], id) ==> ok)
    {
      hide Safe, StepOk, ValidPlan, Sound, SamePlan, Drift, Consistent, ExitsFit, IsReady, SeesReady, Rest, Brief, AllUp,
        StillUp, FineAt, FineFrom, Fine, Passes, Waited, PollsOf, ExitsAt, LookedAt;
      ghost var x, e, x0, n := state.entries[i], host.engine, host.exits, host.calls;
      WaitingIsFine(x, id, e, x0, n);
      PollFinds(x, id, e, x0, n, 0);
      LooksAdd(host.seen, host.seen, host.seen, id);
      var _, deadline := Ask();
      ok := PollUntil(i, id, deadline.patience, n, x0);
    }

    /** The loop of `ready`, with so many polls left after the first. */
    method PollUntil(i: nat, id: Id, polls: nat, ghost n: nat, ghost x0: Exits) returns (ok: bool)
      requires Valid() && i < |state.entries| && host.calls == n + 1 && polls == host.script(n).patience
      requires host.exits == ExitsAt(host.engine, x0, host.script, n, 1)
      modifies host`calls, host`exits, host`seen, host`history
      ensures Valid() && host.calls > n + 1 && old(host.history) <= host.history
      ensures LookedAt(old(host.seen), host.seen, id)
      ensures ok ==> SeesReady(i, id) && |old(host.history)| < |host.history|
      ensures forall x :: x in old(host.exits) ==> x in host.exits
      ensures ok <==> Passes(PollsOf(state.entries[i], id, host.engine, x0, host.script, n), polls)
      ensures host.exits == ExitsAt(host.engine, x0, host.script, n, host.calls - n)
    {
      hide Safe, StepOk, ValidPlan, Sound, SamePlan, Drift, Consistent, ExitsFit, SeesReady, Rest, Brief, AllUp, StillUp,
        Judged, Fine, Passes, Waited, PollAt, PollsOf, ExitsAt, LookedAt, Inspection;
      ghost var x, e := state.entries[i], host.engine;
      ghost var found := PollsOf(x, id, e, x0, host.script, n);
      LooksAdd(host.seen, host.seen, host.seen, id);
      PollFinds(x, id, e, x0, n, 0);
      var left := polls;
      ghost var p := 0;
      while true
        invariant Valid() && host.calls == n + 1 + p && old(host.history) <= host.history
        invariant left + p == polls && LookedAt(old(host.seen), host.seen, id)
        invariant forall y :: y in old(host.exits) ==> y in host.exits
        invariant host.exits == ExitsAt(e, x0, host.script, n, p + 1)
        invariant Waited(found, p)
        decreases left
      {
        WaitsOrEnds(found, polls, p);
        ghost var seen, exits := host.seen, host.exits;
        var verdict := NextPoll(i, id, n, x0, p);
        LooksAdd(old(host.seen), seen, host.seen, id);
        if verdict.Some? {
          return verdict.value;
        }
        if left == 0 {
          return false;
        }
        left, p := left - 1, p + 1;
      }
    }

    /** The poll after `p` others since call `n`. */
    method NextPoll(i: nat, id: Id, ghost n: nat, ghost x0: Exits, ghost p: nat) returns (verdict: Option<bool>)
      requires Valid() && i < |state.entries| && host.calls == n + 1 + p
      requires host.exits == ExitsAt(host.engine, x0, host.script, n, p + 1)
      modifies host`calls, host`exits, host`seen, host`history
      ensures Valid() && host.calls == old(host.calls) + 1 && old(host.history) <= host.history && |old(host.history)| < |host.history|
      ensures LookedAt(old(host.seen), host.seen, id) && forall y :: y in old(host.exits) ==> y in host.exits
      ensures verdict == Some(true) ==> SeesReady(i, id)
      ensures host.exits == ExitsAt(host.engine, x0, host.script, n, p + 2)
      ensures verdict == PollsOf(state.entries[i], id, host.engine, x0, host.script, n)(p)
    {
      hide Safe, StepOk, ValidPlan, Sound, SamePlan, Drift, Consistent, ExitsFit, SeesReady, Rest, Brief, AllUp, StillUp,
        Judged, PollAt, PollsOf, ExitsAt, LookedAt, Inspection;
      PollFinds(state.entries[i], id, host.engine, x0, n, p);
      verdict := Poll(i, id);
    }

    lemma PollFinds(x: Entry, id: Id, e: State, exits: Exits, n: nat, k: nat)
      ensures ExitsAt(e, exits, host.script, n, k + 2) == Drift(e, ExitsAt(e, exits, host.script, n, k + 1), host.script(n + 1 + k))
      ensures ExitsAt(e, exits, host.script, n, 1) == Drift(e, exits, host.script(n))
      ensures var a := host.script(n + 1 + k);
              PollAt(x, id, e, exits, host.script, n, k) ==
              Judged(x, Inspection(e, Drift(e, ExitsAt(e, exits, host.script, n, k + 1), a), id, a), a)
      ensures PollsOf(x, id, e, exits, host.script, n)(k) == PollAt(x, id, e, exits, host.script, n, k)
      ensures Waited(PollsOf(x, id, e, exits, host.script, n), 0)
    {
      hide Drift, Judged, Inspection;
    }

    /** When calls work, exits come to rest, and a container that is ready then passes. */
    lemma WaitingIsFine(x: Entry, id: Id, e: State, exits: Exits, n: nat)
      ensures FineFrom(n) ==> forall k :: k > 0 ==> ExitsAt(e, exits, host.script, n, k) == Rest(e, exits, Brief(plan))
      ensures FineFrom(n) && IsReady(e, Rest(e, exits, Brief(plan)), x, id) ==>
                Passes(PollsOf(x, id, e, exits, host.script, n), host.script(n).patience)
    {
      hide Drift, Rest, Brief, IsReady, Passes, ExitsAt, FineFrom;
      if FineFrom(n) {
        forall k: nat | k > 0 ensures ExitsAt(e, exits, host.script, n, k) == Rest(e, exits, Brief(plan)) {
          ComesToRest(e, exits, n, k);
        }
        if IsReady(e, Rest(e, exits, Brief(plan)), x, id) {
          var k := RipePoll(n);
          forall j: nat ensures PollAt(x, id, e, exits, host.script, n, j) != Some(false) {
            FinePoll(x, id, e, exits, n, j);
          }
          FinePoll(x, id, e, exits, n, k);
          PassesIfNoneFails(PollsOf(x, id, e, exits, host.script, n), host.script(n).patience, k);
        }
      }
    }

    lemma RipePoll(n: nat) returns (k: nat)
      requires FineFrom(n)
      ensures k <= host.script(n).patience && Ripe(host.script(n + 1 + k))
    {
      hide Fine, Brief;
      assert Patient(host.script, n);
      k :| RipeAt(host.script, n, k);
    }

    lemma {:induction false} ComesToRest(e: State, exits: Exits, n: nat, k: nat)
      requires FineFrom(n) && k > 0
      ensures ExitsAt(e, exits, host.script, n, k) == Rest(e, exits, Brief(plan))
    {
      hide Drift, Rest, Brief, Patient;
      FineExits(n + k - 1, e, ExitsAt(e, exits, host.script, n, k - 1));
      if k > 1 {
        ComesToRest(e, exits, n, k - 1);
        FineExits(n, e, exits);
      }
    }

    /** Then every poll passes or waits, and one of a ripe container passes. */
    lemma FinePoll(x: Entry, id: Id, e: State, exits: Exits, n: nat, k: nat)
      requires FineFrom(n) && IsReady(e, Rest(e, exits, Brief(plan)), x, id)
      ensures PollAt(x, id, e, exits, host.script, n, k) == None || PollAt(x, id, e, exits, host.script, n, k) == Some(true)
      ensures Ripe(host.script(n + 1 + k)) ==> PollAt(x, id, e, exits, host.script, n, k) == Some(true)
    {
      hide Drift, Rest, Brief, Judged, Patient;
      ComesToRest(e, exits, n, k + 2);
    }

    // ---- Rollback ------------------------------------------------------------

    lemma OriginalExits(i: nat, exits: Exits)
      requires Valid() && i < |state.entries|
      ensures AllUp(plan, exits) && Matches(plan) ==> state.entries[i].id !in exits
    {
      hide Sound, Brief;
      OriginalsAreNotBrief(plan);
    }

    /** Originals exit by themselves no sooner than everything that is to stay up. */
    lemma OriginalStillUp(i: nat, e: State, x0: Exits, x1: Exits)
      requires Valid() && i < |state.entries| && StillUp(plan, x0, x1) && state.entries[i].id in e.containers
      requires state.entries[i].id in plan.base.containers
      ensures Observed(e, x0, state.entries[i].id) == Observed(e, x1, state.entries[i].id)
    {
      hide Sound, Brief;
      OriginalsAreNotBrief(plan);
    }

    /** Brings one touched original back to what it was; it may exit by itself as soon as it has been seen ready. */
    method RestoreOriginal(i: nat) returns (ok: bool)
      requires Valid() && Synced() && i < |state.entries| && state.entries[i].touched
      requires state.entries[i].id in host.engine.containers
      requires NoDependantRuns(plan, host.engine, state.entries, i) && DependenciesOfRun(plan, host.engine, state.entries, i)
      modifies host`calls, host`engine, host`exits, host`seen, host`history
      ensures Valid() && Synced() && host.calls >= old(host.calls) && old(host.history) <= host.history
      ensures OnlyAt(old(host.engine), host.engine, state.entries[i].id)
      ensures ok ==> host.engine.containers[state.entries[i].id] == state.entries[i].was
      ensures ok ==> WasSeenReady(host.history, |old(host.history)|, state.entries[i])
      ensures FineFrom(old(host.calls)) && Restorable(old(host.engine), state.entries[i]) ==> ok
    {
      hide Passes, Patient, Safe, StepOk, ValidPlan, Sound, SamePlan, DependsOn, NoDependantRuns, DependenciesOfRun,
        Drift, WasSeenReady, Restorable, Consistent, ReadyStatus, ExitsFit, Kept, Shows, Rest, Brief, AllUp, StillUp;
      OriginalIsKept(i);
      var x := state.entries[i];
      ghost var e, h := host.engine, host.history;
      OnlyAtGrows(e, e, e, x.id);
      var seen, _, _ := Look(x.id);
      SeenAsLeft(host.engine, host.exits, x.id);
      if !seen.Found? {
        return false;
      }
      ghost var looked := host.history;
      ok := RestoreAs(i, seen.container);
      if ok {
        SeenEarlier(host.history, |h|, |looked|, x);
      }
    }

    /** The same for an original that was found as `before`. */
    method RestoreAs(i: nat, before: Container) returns (ok: bool)
      requires Valid() && Synced() && i < |state.entries| && state.entries[i].touched
      requires state.entries[i].id in host.engine.containers && before == Observed(host.engine, host.exits, state.entries[i].id)
      requires Shows(host.engine.containers[state.entries[i].id], before)
      requires NoDependantRuns(plan, host.engine, state.entries, i) && DependenciesOfRun(plan, host.engine, state.entries, i)
      modifies host`calls, host`engine, host`exits, host`seen, host`history
      ensures Valid() && Synced() && host.calls >= old(host.calls) && old(host.history) <= host.history
      ensures OnlyAt(old(host.engine), host.engine, state.entries[i].id)
      ensures ok ==> host.engine.containers[state.entries[i].id] == state.entries[i].was
      ensures ok ==> WasSeenReady(host.history, |old(host.history)|, state.entries[i])
      ensures FineFrom(old(host.calls)) && Restorable(old(host.engine), state.entries[i]) ==> ok
    {
      hide Passes, Patient, Safe, StepOk, ValidPlan, Sound, SamePlan, DependsOn, NoDependantRuns, DependenciesOfRun,
        Drift, WasSeenReady, Restorable, Consistent, ReadyStatus, ExitsFit, Rest, Brief, AllUp, StillUp;
      var x := state.entries[i];
      OriginalIsKept(i);
      ghost var exits := host.exits;
      var settled := RestoreSettings(i, before);
      if !settled {
        return false;
      }
      KeepsNeighbours(plan, old(host.engine), host.engine, state.entries, i);
      OriginalIsUnknown(i);
      if StillUp(plan, exits, host.exits) {
        OriginalStillUp(i, host.engine, exits, host.exits);
      }
      ghost var h := host.history;
      ok := RestoreState(i, before);
      if ok {
        SeenEarlier(host.history, |old(host.history)|, |h|, x);
      }
    }

    /** The original was seen ready, and then looked at once more. */
    ghost predicate CheckedReady(i: nat, from: nat)
      requires i < |state.entries|
      reads this, host
    {
      && host.calls > 0 && Answered(host.calls - 1) && |host.history| >= 2
      && WasSeenReady(host.history[..|host.history| - 2], from, state.entries[i])
    }

    lemma Replied(e: State, x: Exits, c: Call, a: Answer)
      ensures Response(e, x, c, a).Done? ==> a.done && a.heard
    {
    }

    /** The last comparison with the record. */
    method FinalCheck(i: nat, ghost from: nat) returns (ok: bool)
      requires Valid() && i < |state.entries| && WasSeenReady(host.history, from, state.entries[i])
      modifies host`calls, host`exits, host`seen, host`history
      ensures Valid() && host.calls >= old(host.calls) && old(host.history) <= host.history
      ensures WasSeenReady(host.history, from, state.entries[i])
      ensures FineFrom(old(host.calls)) && state.entries[i].id in host.engine.containers ==>
                host.engine.containers[state.entries[i].id] == state.entries[i].was ==> ok
      ensures ok ==> CheckedReady(i, from)
    {
      hide Safe, StepOk, ValidPlan, Sound, SamePlan, Drift, WasSeenReady, Consistent, ExitsFit, Rest, Brief, AllUp, StillUp;
      var x := state.entries[i];
      var final, _, _ := Look(x.id);
      SeenLater(old(host.history), host.history, from, x);
      assert host.history[..|host.history| - 2] == old(host.history);
      ok := final.Found? && final.container.image == x.was.image && final.container.config == x.was.config
            && final.container.endpoints == x.was.endpoints;
    }

    /** Name and endpoints. */
    method RestoreSettings(i: nat, before: Container) returns (ok: bool)
      requires Valid() && Synced() && i < |state.entries| && state.entries[i].touched
      requires state.entries[i].id in host.engine.containers && Shows(host.engine.containers[state.entries[i].id], before)
      requires Kept(state.entries[i], host.engine.containers[state.entries[i].id])
      modifies host`calls, host`engine, host`exits, host`history
      ensures Valid() && Synced() && host.calls >= old(host.calls) && old(host.history) <= host.history
      ensures OnlyAt(old(host.engine), host.engine, state.entries[i].id)
      ensures ok ==> host.engine.containers[state.entries[i].id] ==
                     old(host.engine).containers[state.entries[i].id].(
                       name := state.entries[i].was.name, endpoints := state.entries[i].was.endpoints)
      ensures FineFrom(old(host.calls)) ==> StillUp(plan, old(host.exits), host.exits)
      ensures FineFrom(old(host.calls)) && Restorable(old(host.engine), state.entries[i]) ==> ok
    {
      hide Valid, Safe, StepOk, ValidPlan, Sound, SamePlan, DependsOn, NoDependantRuns, DependenciesOfRun, Drift, Rest,
        Brief, AllUp, StillUp;
      var x := state.entries[i];
      StillUpIsTransitive(plan);
      if before.name != x.was.name {
        if before.name != x.backup {
          return false;
        }
        FineExits(host.calls, host.engine, host.exits);
        var renamed := Alter(i, Rename(x.id, x.was.name));
        if !renamed.Done? {
          return false;
        }
      }
      ok := Reconnect(i, before);
    }

    /** Running state and readiness, and the last comparison. */
    method RestoreState(i: nat, before: Container) returns (ok: bool)
      requires Valid() && Synced() && i < |state.entries| && state.entries[i].touched
      requires state.entries[i].id in host.engine.containers
      requires var c, x := host.engine.containers[state.entries[i].id], state.entries[i];
               && Kept(x, c) && c.name == x.was.name && c.endpoints == x.was.endpoints
               && (before.status == c.status || (c.status.Running? && before.status.Exited?))
      requires state.entries[i].oneShot ==> state.entries[i].was.status == Exited(0)
      requires NoDependantRuns(plan, host.engine, state.entries, i) && DependenciesOfRun(plan, host.engine, state.entries, i)
      modifies host`calls, host`engine, host`exits, host`seen, host`history
      ensures Valid() && Synced() && host.calls >= old(host.calls) && old(host.history) <= host.history
      ensures OnlyAt(old(host.engine), host.engine, state.entries[i].id)
      ensures ok ==> host.engine.containers[state.entries[i].id] == state.entries[i].was
      ensures ok ==> WasSeenReady(host.history, |old(host.history)|, state.entries[i])
      ensures FineFrom(old(host.calls)) && before.status == Observed(old(host.engine), old(host.exits), state.entries[i].id).status ==>
                ok
      ensures ok ==> CheckedReady(i, |old(host.history)|)
      ensures ok && state.entries[i].was.status.Running? && !before.status.Running? ==> Answered(old(host.calls))
    {
      hide CheckedReady, Answered, Passes, Patient, Safe, StepOk, ValidPlan, Sound, SamePlan, DependsOn, NoDependantRuns,
        DependenciesOfRun, Drift, WasSeenReady, Observed, Rest, Brief, AllUp, StillUp;
      ok := RestoreRunning(i, before);
      if ok {
        ok := FinalCheck(i, |old(host.history)|);
      }
    }

    /** Running state and readiness. */
    method RestoreRunning(i: nat, before: Container) returns (ok: bool)
      requires Valid() && Synced() && i < |state.entries| && state.entries[i].touched
      requires state.entries[i].id in host.engine.containers
      requires var c, x := host.engine.containers[state.entries[i].id], state.entries[i];
               && Kept(x, c) && c.name == x.was.name && c.endpoints == x.was.endpoints
               && (before.status == c.status || (c.status.Running? && before.status.Exited?))
      requires state.entries[i].oneShot ==> state.entries[i].was.status == Exited(0)
      requires NoDependantRuns(plan, host.engine, state.entries, i) && DependenciesOfRun(plan, host.engine, state.entries, i)
      modifies host`calls, host`engine, host`exits, host`seen, host`history
      ensures Valid() && Synced() && host.calls >= old(host.calls) && old(host.history) <= host.history
      ensures OnlyAt(old(host.engine), host.engine, state.entries[i].id)
      ensures ok ==> host.engine.containers[state.entries[i].id] == state.entries[i].was
      ensures ok ==> WasSeenReady(host.history, |old(host.history)|, state.entries[i])
      ensures FineFrom(old(host.calls)) && before.status == Observed(old(host.engine), old(host.exits), state.entries[i].id).status ==>
                ok
      ensures ok && state.entries[i].was.status.Running? && !before.status.Running? ==> Answered(old(host.calls))
    {
      hide Valid, Passes, Patient, Safe, StepOk, ValidPlan, Sound, SamePlan, DependsOn, NoDependantRuns,
        DependenciesOfRun, Drift, Rest, Brief, AllUp, StillUp;
      var x := state.entries[i];
      NowIsSafe();
      if x.was.status.Running? && !before.status.Running? {
        ghost var e, x0, a := host.engine, host.exits, host.script(host.calls);
        var started := Alter(i, Start(x.id));
        Replied(e, Drift(e, x0, a), Start(x.id), a);
        if !started.Done? {
          return false;
        }
      }
      if !x.was.status.Running? && before.status.Running? {
        return false;
      }
      ghost var h := host.history;
      OriginalIsUnknown(i);
      FineExits(host.calls, host.engine, host.exits);
      OriginalStillUp(i, host.engine, host.exits, Rest(host.engine, host.exits, Brief(plan)));
      ok := Ready(i, x.id);
      if ok {
        assert WasSeenReady(host.history, |h|, x);
        SeenEarlier(host.history, |old(host.history)|, |h|, x);
      }
    }

    /** Connects the renamed original to every network it is missing from. */
    method Reconnect(i: nat, before: Container) returns (ok: bool)
      requires Valid() && Synced() && i < |state.entries| && state.entries[i].touched
      requires state.entries[i].id in host.engine.containers
      requires host.engine.containers[state.entries[i].id].name == state.entries[i].was.name
      requires host.engine.containers[state.entries[i].id].endpoints == before.endpoints
      requires forall n :: n in before.endpoints ==>
                 n in state.entries[i].was.endpoints && before.endpoints[n] == state.entries[i].was.endpoints[n]
      modifies host`calls, host`engine, host`exits, host`history
      ensures Valid() && Synced() && host.calls >= old(host.calls) && old(host.history) <= host.history
      ensures OnlyAt(old(host.engine), host.engine, state.entries[i].id)
      ensures ok ==> host.engine.containers[state.entries[i].id] ==
                     old(host.engine).containers[state.entries[i].id].(endpoints := state.entries[i].was.endpoints)
      ensures FineFrom(old(host.calls)) ==> ok && StillUp(plan, old(host.exits), host.exits)
    {
      hide Safe, StepOk, ValidPlan, Sound, SamePlan, DependsOn, NoDependantRuns, DependenciesOfRun, Reconnecting, OnlyAt,
        Rest, Brief, AllUp, StillUp;
      var x := state.entries[i];
      ghost var e0 := host.engine;
      StillUpIsTransitive(plan);
      ReconnectingStarts(x, e0.containers[x.id]);
      assert OnlyAt(e0, e0, x.id) by {
        OnlyAtGrows(e0, e0, e0, x.id);
      }
      var todo := x.was.endpoints.Keys;
      while todo != {}
        invariant todo <= x.was.endpoints.Keys
        invariant Valid() && Synced() && host.calls >= old(host.calls) && old(host.history) <= host.history
        invariant OnlyAt(e0, host.engine, x.id) && x.id in host.engine.containers
        invariant Reconnecting(x, e0.containers[x.id], host.engine.containers[x.id], todo)
        invariant FineFrom(old(host.calls)) ==> StillUp(plan, old(host.exits), host.exits)
      {
        var network :| network in todo;
        ReconnectingContinues(x, e0.containers[x.id], host.engine.containers[x.id], todo, network);
        todo := todo - {network};
        if network !in before.endpoints {
          ghost var e := host.engine;
          var connected := ConnectTo(i, network);
          OnlyAtGrows(e0, e, host.engine, x.id);
          if !connected {
            return false;
          }
        }
      }
      ReconnectingEnds(x, e0.containers[x.id], host.engine.containers[x.id]);
      return true;
    }

    method ConnectTo(i: nat, network: string) returns (ok: bool)
      requires Valid() && Synced() && i < |state.entries| && state.entries[i].touched
      requires state.entries[i].id in host.engine.containers && network in state.entries[i].was.endpoints
      modifies host`calls, host`engine, host`exits, host`history
      ensures Valid() && Synced() && host.calls > old(host.calls) && old(host.history) <= host.history
      ensures var id, c := state.entries[i].id, old(host.engine).containers[state.entries[i].id];
              if ok then host.engine == Put(old(host.engine), id,
                                            c.(endpoints := c.endpoints[network := state.entries[i].was.endpoints[network]]))
              else OnlyAt(old(host.engine), host.engine, id)
      ensures FineAt(old(host.calls)) ==> StillUp(plan, old(host.exits), host.exits)
      ensures FineAt(old(host.calls)) && network !in old(host.engine).containers[state.entries[i].id].endpoints ==> ok
    {
      hide Safe, StepOk, ValidPlan, Sound, SamePlan, DependsOn, NoDependantRuns, DependenciesOfRun, Drift, Effect,
        Response, Legal, Settled, Rest, Brief, AllUp, StillUp;
      var x := state.entries[i];
      ghost var e, x0, a := host.engine, host.exits, host.script(host.calls);
      FineExits(host.calls, e, x0);
      var connected := Alter(i, Connect(x.id, network, x.was.endpoints[network]));
      ConnectionMade(e, Drift(e, x0, a), x.id, network, x.was.endpoints[network], a);
      ok := connected.Done?;
    }

    lemma OriginalIsKept(i: nat)
      requires Valid() && Synced() && i < |state.entries| && state.entries[i].id in host.engine.containers
      ensures Kept(state.entries[i], host.engine.containers[state.entries[i].id])
      ensures Consistent(host.engine) && (state.entries[i].oneShot ==> state.entries[i].was.status == Exited(0))
      ensures ExitsFit(host.engine, host.exits)
    {
      hide StepOk, Sound, WrittenAhead, BystandersKept, CandidatesAccounted, DependenciesRun, Kept;
      NowIsSafe();
    }

    method RemoveCandidates() returns (ok: bool)
      requires Valid() && Synced()
      modifies host`calls, host`engine, host`exits, host`history
      ensures Valid() && Synced() && host.calls >= old(host.calls) && old(host.history) <= host.history
      ensures SameBut(old(host.engine), host.engine, state.entries)
      ensures ok ==> forall id :: id in host.engine.containers ==> !Known(state.entries, id)
      ensures FineFrom(old(host.calls)) ==> ok
      ensures exists k :: RemovedFrom(old(host.engine), k)
    {
      hide Safe, StepOk, ValidPlan, Sound, SamePlan, Drift, SameBut, Known, Fine, Rest, Brief, AllUp, StillUp;
      ghost var e0 := host.engine;
      OnlyKnownRemoved(e0, e0, state.entries);
      for k := |order| downto 0
        invariant Valid() && Synced() && host.calls >= old(host.calls) && old(host.history) <= host.history
        invariant SameBut(e0, host.engine, state.entries) && RemovedFrom(e0, k)
      {
        OrderIndexes(plan, state.entries, k);
        ghost var e := host.engine;
        ok := RemoveCandidateAt(k);
        OnlyKnownRemoved(e0, e, state.entries);
        NextRemoved(e0, e, k);
        if !ok {
          return;
        }
      }
      AllKnownGone();
      return true;
    }

    /** The candidates from position `k` on are gone, and those before it are as they were. */
    ghost predicate RemovedFrom(e0: State, k: nat)
      reads this, host
    {
      GoneFrom(k) && KeptBelow(e0, k)
    }

    ghost predicate KeptBelow(e0: State, k: nat)
      reads this, host
    {
      forall j :: 0 <= j < k && j < |order| && order[j] < |state.entries| && state.entries[order[j]].newId.Some? ==>
                    (state.entries[order[j]].newId.value in e0.containers <==>
                       state.entries[order[j]].newId.value in host.engine.containers)
    }

    /** No candidate of position `k` or later is left. */
    ghost predicate GoneFrom(k: nat)
      reads this, host
    {
      forall j :: k <= j < |order| && order[j] < |state.entries| && state.entries[order[j]].newId.Some? ==>
                    state.entries[order[j]].newId.value !in host.engine.containers
    }

    method RemoveCandidateAt(k: nat) returns (ok: bool)
      requires Valid() && Synced() && k < |order| && order[k] < |state.entries| && GoneFrom(k + 1)
      modifies host`calls, host`engine, host`exits, host`history
      ensures Valid() && Synced() && host.calls >= old(host.calls) && old(host.history) <= host.history
      ensures host.engine == old(host.engine)
              || (state.entries[order[k]].newId.Some? && host.engine == Drop(old(host.engine), state.entries[order[k]].newId.value))
      ensures host.engine == old(host.engine) || exists id :: Known(state.entries, id) && host.engine == Drop(old(host.engine), id)
      ensures ok ==> GoneFrom(k)
      ensures FineFrom(old(host.calls)) ==> ok
    {
      hide Safe, StepOk, ValidPlan, Sound, SamePlan, Drift, Known, Rest, Brief, AllUp, StillUp;
      var target := state.entries[order[k]];
      if target.newId.Some? {
        IsKnown(order[k]);
        KnownIsNew(target.newId.value);
        var removed := RemoveCandidate(target.newId.value);
        return removed.Done? || removed.Missing?;
      }
      return true;
    }

    lemma NextRemoved(e0: State, e: State, k: nat)
      requires Valid() && Synced() && k < |order| && order[k] < |state.entries|
      requires forall j :: 0 <= j < k + 1 && j < |order| && order[j] < |state.entries| && state.entries[order[j]].newId.Some? ==>
                 (state.entries[order[j]].newId.value in e0.containers <==> state.entries[order[j]].newId.value in e.containers)
      requires forall j :: k + 1 <= j < |order| && order[j] < |state.entries| && state.entries[order[j]].newId.Some? ==>
                 state.entries[order[j]].newId.value !in e.containers
      requires host.engine == e
               || (state.entries[order[k]].newId.Some? && host.engine == Drop(e, state.entries[order[k]].newId.value))
      ensures KeptBelow(e0, k)
      ensures RemovedFrom(e0, k + 1) || RemovedFrom(e0, k)
    {
      hide Sound;
      OwnersAreUnique();
      OrderIsDistinct();
    }

    lemma OrderIsDistinct()
      requires Valid()
      ensures forall a, b :: 0 <= a < b < |order| ==> order[a] != order[b]
    {
      hide Sound;
    }

    lemma IsKnown(i: nat)
      requires i < |state.entries| && state.entries[i].newId.Some?
      ensures Known(state.entries, state.entries[i].newId.value)
    {
    }

    /** What is gone at every position of the order is gone. */
    lemma AllKnownGone()
      requires Valid()
      requires GoneFrom(0)
      ensures forall id :: id in host.engine.containers ==> !Known(state.entries, id)
    {
      hide Sound, ValidPlan, SamePlan;
      forall id | Known(state.entries, id) ensures id !in host.engine.containers {
        var i :| 0 <= i < |state.entries| && state.entries[i].newId == Some(id);
        var k := OrderCovers(plan, state.entries, i);
      }
    }

    lemma KnownIsNew(id: Id)
      requires Valid() && Synced() && Known(state.entries, id)
      ensures id !in plan.base.containers
    {
      hide StepOk, Sound, OriginalsKept, WrittenAhead, BystandersKept, DependenciesRun;
      NowIsSafe();
    }

    /**
     * `rollback` of the source. When it reports success the Engine holds exactly the containers it
     * held before the job, as they were left then, and every original that was brought back was seen
     * ready; when everything works from here on, it succeeds if and only if no candidate is missing
     * from the journal.
     */
    method Rollback() returns (ok: bool)
      requires Valid() && Synced() && host.status == Active && HaltedFrom(plan, host.engine, state.entries, 0)
      modifies host`calls, host`engine, host`exits, host`seen, host`history, host`refused
      ensures Valid() && Synced() && host.calls >= old(host.calls) && old(host.history) <= host.history
      ensures ok ==> host.engine.containers == plan.base.containers
      ensures ok ==> forall i :: 0 <= i < |state.entries| && state.entries[i].touched ==>
                                   WasSeenReady(host.history, |old(host.history)|, state.entries[i])
      ensures FineFrom(old(host.calls)) ==> (ok <==> NoneLost(plan, old(host.engine), state.entries))
    {
      hide Passes, Patient, Safe, StepOk, ValidPlan, Sound, SamePlan, HaltedFrom, NoneLost, SameBut, WasSeenReady, Drift,
        SeenIn, Rest, Brief, AllUp, StillUp;
      ghost var e0, h := host.engine, host.history;
      var removed := RemoveCandidates();
      if !removed {
        return false;
      }
      ghost var e1 := host.engine;
      StillHalted(e0, e1);
      LostSurvive(plan, e0, e1, state.entries);
      NothingSeenYet(|h|);
      for m := 0 to |order|
        invariant Valid() && Synced() && host.calls >= old(host.calls) && h <= host.history
        invariant HaltedFrom(plan, host.engine, state.entries, m)
        invariant RestoredUpTo(plan, host.engine, state.entries, m)
        invariant SeenUpTo(|h|, m)
        invariant host.engine.containers.Keys == e1.containers.Keys
      {
        var restored := RestoreAt(m, |h|);
        if !restored {
          return false;
        }
      }
      AllRestored();
      AllSeen(|h|);
      ghost var before := host.history;
      var retargeted, _ := Reserve();
      forall x ensures WasSeenReady(before, |h|, x) ==> WasSeenReady(host.history, |h|, x) {
        if WasSeenReady(before, |h|, x) {
          SeenLater(before, host.history, |h|, x);
        }
      }
      return retargeted;
    }

    /** The original at position `m`, if it has been touched. */
    method RestoreAt(m: nat, ghost from: nat) returns (ok: bool)
      requires Valid() && Synced() && host.status == Active && m < |order| && from <= |host.history|
      requires HaltedFrom(plan, host.engine, state.entries, m) && RestoredUpTo(plan, host.engine, state.entries, m)
      requires SeenUpTo(from, m)
      modifies host`calls, host`engine, host`exits, host`seen, host`history
      ensures Valid() && Synced() && host.calls >= old(host.calls) && old(host.history) <= host.history
      ensures host.engine.containers.Keys == old(host.engine).containers.Keys
      ensures ok ==> HaltedFrom(plan, host.engine, state.entries, m + 1) && RestoredUpTo(plan, host.engine, state.entries, m + 1)
      ensures ok ==> SeenUpTo(from, m + 1)
      ensures FineFrom(old(host.calls)) && (forall id :: id in old(host.engine).containers ==> id in plan.base.containers) ==> ok
    {
      hide Passes, Patient, Safe, StepOk, ValidPlan, Sound, SamePlan, HaltedFrom, WasSeenReady, Drift, RestoredUpTo,
        SeenIn, Rest, Brief, AllUp, StillUp;
      OrderIndexes(plan, state.entries, m);
      var i := order[m];
      OriginalExists(i);
      ghost var e, before := host.engine, host.history;
      if state.entries[i].touched {
        Restartable(m);
        if forall id :: id in host.engine.containers ==> id in plan.base.containers {
          NameIsFree(i);
        }
        ok := RestoreOriginal(i);
        if !ok {
          return;
        }
        SeenEarlier(host.history, from, |before|, state.entries[i]);
      } else {
        UntouchedIsOriginal(i);
        ok := true;
      }
      RestorationAdvances(plan, e, host.engine, state.entries, m);
      SeenAdvances(before, from, m);
    }

    /** The touched originals among the first `m` have been seen ready. */
    ghost predicate SeenUpTo(from: nat, m: nat)
      reads this, host
    {
      SeenIn(host.history, from, m)
    }

    ghost predicate SeenIn(h: seq<World<Journal>>, from: nat, m: nat)
      reads this
    {
      forall k :: 0 <= k < m && k < |order| && order[k] < |state.entries| && state.entries[order[k]].touched ==>
                    WasSeenReady(h, from, state.entries[order[k]])
    }

    lemma NothingSeenYet(from: nat)
      ensures SeenUpTo(from, 0)
    {
    }

    lemma SeenAdvances(h: seq<World<Journal>>, from: nat, m: nat)
      requires SeenIn(h, from, m) && h <= host.history && m < |order| && order[m] < |state.entries|
      requires state.entries[order[m]].touched ==> WasSeenReady(host.history, from, state.entries[order[m]])
      ensures SeenUpTo(from, m + 1)
    {
      hide WasSeenReady;
      forall k | 0 <= k < m && k < |order| && order[k] < |state.entries| && state.entries[order[k]].touched
        ensures WasSeenReady(host.history, from, state.entries[order[k]])
      {
        SeenLater(h, host.history, from, state.entries[order[k]]);
      }
    }

    lemma AllSeen(from: nat)
      requires Valid() && SeenUpTo(from, |order|)
      ensures forall i :: 0 <= i < |state.entries| && state.entries[i].touched ==> WasSeenReady(host.history, from, state.entries[i])
    {
      hide Safe, StepOk, Sound, WasSeenReady;
      forall i | 0 <= i < |state.entries| && state.entries[i].touched ensures WasSeenReady(host.history, from, state.entries[i]) {
        var k := OrderCovers(plan, state.entries, i);
      }
    }

    lemma StillHalted(e0: State, e1: State)
      requires Valid() && Synced() && HaltedFrom(plan, e0, state.entries, 0) && SameBut(e0, e1, state.entries)
      ensures HaltedFrom(plan, e1, state.entries, 0)
    {
      hide Safe, StepOk, Sound, SamePlan, Known;
      forall i | 0 <= i < |state.entries| ensures OriginalRuns(e1, state.entries[i]) ==> OriginalRuns(e0, state.entries[i]) {
        OriginalIsUnknown(i);
      }
    }

    lemma OriginalIsUnknown(i: nat)
      requires Valid() && Synced() && i < |state.entries|
      ensures !Known(state.entries, state.entries[i].id) && state.entries[i].id in plan.base.containers
      ensures state.entries[i].was == plan.base.containers[state.entries[i].id]
    {
      hide StepOk, Sound, OriginalsKept, WrittenAhead, BystandersKept, DependenciesRun;
      NowIsSafe();
      if Known(state.entries, state.entries[i].id) {
        CandidatesAreNew(plan, host.engine, state.entries, state.entries[i].id);
      }
    }

    lemma OriginalExists(i: nat)
      requires Valid() && Synced() && host.status == Active && i < |state.entries|
      ensures state.entries[i].id in host.engine.containers
    {
      hide StepOk, Sound, WrittenAhead, BystandersKept, DependenciesRun, CandidatesAccounted;
      NowIsSafe();
    }

    lemma UntouchedIsOriginal(i: nat)
      requires Valid() && Synced() && host.status == Active && i < |state.entries| && !state.entries[i].touched
      ensures state.entries[i].id in host.engine.containers && host.engine.containers[state.entries[i].id] == state.entries[i].was
    {
      hide StepOk, Sound, BystandersKept, DependenciesRun, CandidatesAccounted;
      NowIsSafe();
    }

    /** Everything member `order[m]` depends on is back, and nothing that depends on it runs. */
    lemma Restartable(m: nat)
      requires Valid() && m < |order| && order[m] < |state.entries| && state.entries[order[m]].touched
      requires HaltedFrom(plan, host.engine, state.entries, m) && RestoredUpTo(plan, host.engine, state.entries, m)
      ensures NoDependantRuns(plan, host.engine, state.entries, order[m])
      ensures DependenciesOfRun(plan, host.engine, state.entries, order[m])
    {
      hide Safe, StepOk, Sound, DependsOn;
      forall j | 0 <= j < |state.entries| && DependsOn(plan.labels, j, order[m])
        ensures !OriginalRuns(host.engine, state.entries[j])
      {
        var k := OrderCovers(plan, state.entries, j);
        assert order[m] !in order[..k] || m < k;
      }
      forall d | 0 <= d < |state.entries| && DependsOn(plan.labels, order[m], d) && state.entries[d].was.status.Running?
        ensures OriginalRuns(host.engine, state.entries[d])
      {
        var k := OrderCovers(plan, state.entries, d);
        if m <= k {
          GroupDependenciesAreEarlier(plan.labels, |plan.entries|, order, m, k);
        }
      }
    }

    /** With no candidate left, an original's old name is its own or free. */
    lemma NameIsFree(i: nat)
      requires Valid() && Synced() && host.status == Active && i < |state.entries|
      requires forall id :: id in host.engine.containers ==> id in plan.base.containers
      ensures Restorable(host.engine, state.entries[i])
    {
      hide Safe, StepOk, Sound;
      NamesAreUnique();
      OriginalExists(i);
      var e, s := host.engine, state.entries;
      forall x | x in e.containers && x != s[i].id ensures e.containers[x].name != s[i].was.name {
        OldNames(x);
        OriginalIsUnknown(i);
      }
    }

    lemma NamesAreUnique()
      requires Valid() && Synced()
      ensures Matches(plan) && Consistent(host.engine)
    {
      hide StepOk, Sound, WrittenAhead, OriginalsKept, BystandersKept, DependenciesRun, CandidatesAccounted;
      NowIsSafe();
    }

    /** A container that was there from the start has its old name, or its recovery name. */
    lemma OldNames(x: Id)
      requires Valid() && Synced() && x in host.engine.containers && x in plan.base.containers
      ensures || host.engine.containers[x].name == plan.base.containers[x].name
              || exists j :: 0 <= j < |state.entries| && state.entries[j].id == x
                             && host.engine.containers[x].name == state.entries[j].backup
    {
      hide StepOk, Sound, WrittenAhead, DependenciesRun, CandidatesAccounted;
      NowIsSafe();
      if IsOriginal(plan, x) {
        var j :| 0 <= j < |plan.entries| && plan.entries[j].id == x;
        assert Kept(state.entries[j], host.engine.containers[x]);
      }
    }

    /** Originals back means the whole Engine is back: a lost candidate would hold an original's name. */
    lemma AllRestored()
      requires Valid() && Synced() && RestoredUpTo(plan, host.engine, state.entries, |order|)
      ensures host.engine.containers == plan.base.containers
    {
      hide StepOk, Sound, WrittenAhead, DependenciesRun, OriginalsKept;
      NowIsSafe();
      var e, s := host.engine, state.entries;
      forall i | 0 <= i < |s| ensures s[i].id in e.containers && e.containers[s[i].id] == s[i].was {
        var k := OrderCovers(plan, s, i);
      }
      forall x | x in e.containers ensures x in plan.base.containers && e.containers[x] == plan.base.containers[x] {
        if x !in plan.base.containers {
          assert false;
        } else if IsOriginal(plan, x) {
          var i :| 0 <= i < |plan.entries| && plan.entries[i].id == x;
        }
      }
      forall x | x in plan.base.containers ensures x in e.containers {
        if IsOriginal(plan, x) {
          var i :| 0 <= i < |plan.entries| && plan.entries[i].id == x;
        }
      }
    }

    // ---- Saving --------------------------------------------------------------

    /** Writes the worker's journal. */
    method SaveState() returns (ok: bool)
      requires Valid() && state.mutated == host.saved.mutated
      requires if state.mutated then
                 && CandidatesAccounted(plan, host.engine, state.entries)
                 && forall i :: 0 <= i < |state.entries| && i < |host.saved.entries| && host.saved.entries[i].touched ==>
                                  state.entries[i].touched
               else forall x :: x in state.entries ==> x.newId.None?
      modifies host`calls, host`exits, host`saved, host`history, host`refused
      ensures Valid() && host.calls == old(host.calls) + 1 && old(host.history) <= host.history
      ensures FineAt(old(host.calls)) ==> host.exits == Rest(host.engine, old(host.exits), Brief(plan))
      ensures host.exits == Drift(host.engine, old(host.exits), host.script(old(host.calls)))
      ensures host.saved == state || host.saved == old(host.saved)
      ensures old(host.saved) == state ==> Idle(host.history, |old(host.history)|, host.engine, host.saved)
      ensures ok ==> host.saved == state
      ensures FineAt(old(host.calls)) && host.status == Active ==> ok
      ensures host.refused == if ok then old(host.refused) else Some(old(host.calls))
      ensures ok <==> Answered(old(host.calls)) && host.status == Active
    {
      hide StepOk, ValidPlan, Sound, CandidatesAccounted, Careful, Drift, Rest, Brief, AllUp, StillUp;
      ghost var h, a := host.history, host.script(host.calls);
      Ages(h, a);
      FineExits(host.calls, host.engine, host.exits);
      ghost var w := Aged(host.Now(), a);
      ok := host.Save(state);
      if host.saved == w.saved {
        StayingIsSafe(plan, w);
      } else if state.mutated {
        JournalSaved(plan, w, state.entries);
      } else {
        PreparationSaved(plan, w, state.entries);
      }
      Extends(h, a, host.Now());
    }

    /** Writes the same journal again, whatever stage it announces. */
    method SaveAgain() returns (ok: bool)
      requires Valid() && host.saved == state
      modifies host`calls, host`exits, host`saved, host`history, host`refused
      ensures Valid() && host.saved == state && host.calls == old(host.calls) + 1 && old(host.history) <= host.history
      ensures Idle(host.history, |old(host.history)|, host.engine, host.saved)
      ensures FineAt(old(host.calls)) ==> host.exits == Rest(host.engine, old(host.exits), Brief(plan))
      ensures host.exits == Drift(host.engine, old(host.exits), host.script(old(host.calls)))
      ensures FineAt(old(host.calls)) && host.status == Active ==> ok
      ensures host.refused == if ok then old(host.refused) else Some(old(host.calls))
      ensures ok <==> Answered(old(host.calls)) && host.status == Active
    {
      hide StepOk, ValidPlan, Sound, CandidatesAccounted, OriginalsKept, WrittenAhead, BystandersKept, DependenciesRun,
        Drift, Rest, Brief, AllUp, StillUp;
      NowIsSafe();
      ok := SaveState();
    }

    method FinishJob(outcome: Outcome) returns (ok: bool)
      requires Valid()
      requires Honest(plan, host.Now().(status := Finished(outcome)))
      modifies host`calls, host`exits, host`status, host`history, host`refused
      ensures Valid() && old(host.history) <= host.history && host.calls == old(host.calls) + 1
      ensures Idle(host.history, |old(host.history)|, host.engine, host.saved)
      ensures FineAt(old(host.calls)) ==> host.exits == Rest(host.engine, old(host.exits), Brief(plan))
      ensures host.exits == Drift(host.engine, old(host.exits), host.script(old(host.calls)))
      ensures host.status == old(host.status) || host.status == Finished(outcome)
      ensures ok ==> host.status == Finished(outcome)
      ensures FineAt(old(host.calls)) && old(host.status) == Active ==> ok
      ensures host.refused == if ok then old(host.refused) else Some(old(host.calls))
      ensures ok <==> Answered(old(host.calls)) && old(host.status) == Active
      ensures host.status == if host.script(old(host.calls)).done && old(host.status) == Active then Finished(outcome) else old(host.status)
    {
      hide StepOk, ValidPlan, Sound, Safe, Honest, Drift, Rest, Brief, AllUp, StillUp;
      ghost var h, a := host.history, host.script(host.calls);
      Ages(h, a);
      FineExits(host.calls, host.engine, host.exits);
      ghost var w := Aged(host.Now(), a);
      HonestAges(plan, host.Now().(status := Finished(outcome)), a);
      ok := host.Finish(outcome);
      if host.status == w.status {
        StayingIsSafe(plan, w);
      } else {
        OutcomeRecorded(plan, w, outcome);
      }
      Extends(h, a, host.Now());
    }

    // ---- Retiring the originals ----------------------------------------------

    /** Stops, renames and detaches the original at position `k`, once everything after it is retired. */
    method RetireOriginal(k: nat) returns (step: Step)
      requires Valid() && Synced() && host.status == Active && k < |order| && order[k] < |plan.entries|
      requires RetiredFrom(plan, host.engine, state.entries, k + 1) && NoCandidates(plan, host.engine, state.entries)
      modifies this`state, host`calls, host`engine, host`exits, host`saved, host`history, host`refused
      ensures Valid() && state.mutated && host.calls >= old(host.calls) && old(host.history) <= host.history
      ensures FineFrom(old(host.calls)) && AllUp(plan, old(host.exits)) ==> AllUp(plan, host.exits)
      ensures !step.Abandon? ==>
                && Synced() && NoCandidates(plan, host.engine, state.entries) && HaltedFrom(plan, host.engine, state.entries, 0)
      ensures step.Onward? ==> RetiredFrom(plan, host.engine, state.entries, k)
      ensures SameTargets(old(state.entries), state.entries)
      ensures FineFor(old(host.calls), RetireCalls(plan.entries[order[k]])) && BackupsFree(plan) ==>
                step.Onward? && host.calls == old(host.calls) + RetireCalls(plan.entries[order[k]])
      ensures step.Onward? ==> host.refused == old(host.refused)
      ensures step.Abandon? ==> host.refused == Some(host.calls - 1)
      ensures step.Broken? ==> Traceable(step.expired)
    {
      hide Traceable, Safe, StepOk, ValidPlan, Sound, SamePlan, CandidatesAccounted, HaltedFrom, RetiredFrom, Retiring,
        Drift, NoCandidates, BackupsFree, Fine, DisplaceCalls, Rest, Brief, AllUp, StillUp;
      OrderIndexes(plan, state.entries, k);
      var i := order[k];
      UntouchedBelow(plan, host.engine, state.entries, k);
      UntouchedIsOriginal(i);
      TouchKeepsAccounts(i);
      state := state.(entries := state.entries[i := state.entries[i].(touched := true)]);
      FineExits(host.calls, host.engine, host.exits);
      var saved := SaveState();
      if !saved {
        return Abandon;
      }
      TouchRetires(plan, host.engine, old(state.entries), k);
      step := Displace(k);
    }

    /** Stop, rename and detach, once the journal says so. */
    method Displace(k: nat) returns (step: Step)
      requires Valid() && Synced() && host.status == Active && k < |order| && order[k] < |state.entries|
      requires Retiring(plan, host.engine, state.entries, k) && NoCandidates(plan, host.engine, state.entries)
      requires state.entries[order[k]].touched && state.entries[order[k]].id in host.engine.containers
      requires host.engine.containers[state.entries[order[k]].id] == state.entries[order[k]].was
      requires order[k] < |plan.entries|
      modifies host`calls, host`engine, host`exits, host`history
      ensures Valid() && Synced() && host.calls >= old(host.calls) && !step.Abandon? && old(host.history) <= host.history
      ensures FineFrom(old(host.calls)) && AllUp(plan, old(host.exits)) ==> AllUp(plan, host.exits)
      ensures NoCandidates(plan, host.engine, state.entries) && HaltedFrom(plan, host.engine, state.entries, 0)
      ensures step.Onward? ==> RetiredFrom(plan, host.engine, state.entries, k)
      ensures FineFor(old(host.calls), DisplaceCalls(plan.entries[order[k]])) && BackupsFree(plan) ==>
                step.Onward? && host.calls == old(host.calls) + DisplaceCalls(plan.entries[order[k]])
      ensures step.Broken? ==> Traceable(step.expired)
    {
      hide Valid, Traceable, Safe, StepOk, ValidPlan, Sound, SamePlan, CandidatesAccounted, HaltedFrom, RetiredFrom,
        Retiring, NoCandidates, NoDependantRuns, DependsOn, BackupsFree, Drift, Consistent, Retired, Kept, OnlyAt, Rest,
        Brief, AllUp, StillUp, FineFrom, FineFor, FineAt, DisplaceCalls, Networks;
      var i := order[k];
      var x := state.entries[i];
      SameWas(i);
      FineWithin(host.calls, DisplaceCalls(plan.entries[i]));
      CallsOf(x, plan.entries[i]);
      ghost var n := host.calls;
      step := StopOriginal(k);
      FineLater(n, host.calls);
      NothingIsLost(step);
      if !step.Onward? {
        return;
      }
      step := MoveAway(k);
      FineLater(n, host.calls);
      NothingIsLost(step);
      if !step.Onward? {
        return;
      }
      step := DetachAt(k);
    }

    lemma FineWithin(n: nat, m: nat)
      ensures forall k {:trigger FineAt(k)} :: FineFor(n, m) && n <= k < n + m ==> FineAt(k)
    {
    }

    lemma CallsOf(x: Entry, y: Entry)
      requires x.was == y.was
      ensures DisplaceCalls(y) == (if x.was.status.Running? then 1 else 0) + 1 + Networks(x)
    {
    }

    /** The last of the three, for the original at position `k`. */
    method DetachAt(k: nat) returns (step: Step)
      requires Valid() && Synced() && k < |order| && order[k] < |state.entries|
      requires Retiring(plan, host.engine, state.entries, k) && NoCandidates(plan, host.engine, state.entries)
      requires state.entries[order[k]].touched && state.entries[order[k]].id in host.engine.containers
      requires var x := state.entries[order[k]]; var c := host.engine.containers[x.id];
               c == x.was.(name := x.backup, status := c.status) && !c.status.Running?
      modifies host`calls, host`engine, host`exits, host`history
      ensures Valid() && Synced() && host.calls >= old(host.calls) && !step.Abandon? && old(host.history) <= host.history
      ensures FineFrom(old(host.calls)) && AllUp(plan, old(host.exits)) ==> AllUp(plan, host.exits)
      ensures NoCandidates(plan, host.engine, state.entries) && HaltedFrom(plan, host.engine, state.entries, 0)
      ensures step.Onward? ==> RetiredFrom(plan, host.engine, state.entries, k)
      ensures if step.Onward? then host.calls == old(host.calls) + Networks(state.entries[order[k]])
              else old(host.calls) < host.calls <= old(host.calls) + Networks(state.entries[order[k]]) && !FineAt(host.calls - 1)
      ensures step.Broken? ==> Traceable(step.expired)
    {
      hide Valid, Traceable, Safe, StepOk, ValidPlan, Sound, SamePlan, CandidatesAccounted, HaltedFrom, RetiredFrom,
        Retiring, NoCandidates, NoDependantRuns, DependsOn, BackupsFree, Drift, Consistent, Retired, Kept, OnlyAt, Rest,
        Brief, AllUp, StillUp, FineFrom, Fine;
      var i := order[k];
      var x := state.entries[i];
      ghost var e := host.engine;
      step := Detach(i);
      NothingIsLost(step);
      OnlyAtGrows(e, e, host.engine, x.id);
      StillRetiring(e, k);
      if step.Onward? {
        assert Retired(host.engine, x) by {
          NowRetired(host.engine, x);
        }
      }
    }

    lemma StillRetiring(e: State, k: nat)
      requires Valid() && Synced() && k < |order| && order[k] < |state.entries|
      requires Retiring(plan, e, state.entries, k) && NoCandidates(plan, e, state.entries)
      requires OnlyAt(e, host.engine, state.entries[order[k]].id)
      ensures Retiring(plan, host.engine, state.entries, k) && NoCandidates(plan, host.engine, state.entries)
      ensures HaltedFrom(plan, host.engine, state.entries, 0)
      ensures state.entries[order[k]].id in host.engine.containers && Retired(host.engine, state.entries[order[k]]) ==>
                RetiredFrom(plan, host.engine, state.entries, k)
    {
      hide Sound;
      RetiringHalts(plan, e, host.engine, state.entries, k);
    }

    method StopOriginal(k: nat) returns (step: Step)
      requires Valid() && Synced() && host.status == Active && k < |order| && order[k] < |state.entries|
      requires Retiring(plan, host.engine, state.entries, k) && NoCandidates(plan, host.engine, state.entries)
      requires state.entries[order[k]].touched && state.entries[order[k]].id in host.engine.containers
      requires host.engine.containers[state.entries[order[k]].id] == state.entries[order[k]].was
      modifies host`calls, host`engine, host`exits, host`history
      ensures Valid() && Synced() && !step.Abandon? && old(host.history) <= host.history
      ensures FineFrom(old(host.calls)) && AllUp(plan, old(host.exits)) ==> AllUp(plan, host.exits)
      ensures host.calls == old(host.calls) + if state.entries[order[k]].was.status.Running? then 1 else 0
      ensures NoCandidates(plan, host.engine, state.entries) && HaltedFrom(plan, host.engine, state.entries, 0)
      ensures Retiring(plan, host.engine, state.entries, k)
      ensures state.entries[order[k]].id in host.engine.containers
      ensures step.Onward? ==>
                var x := state.entries[order[k]];
                var c := host.engine.containers[x.id];
                c == x.was.(status := c.status) && !c.status.Running?
      ensures state.entries[order[k]].was.status.Running? ==> (FineAt(old(host.calls)) ==> step.Onward?)
      ensures !state.entries[order[k]].was.status.Running? ==> step.Onward?
      ensures step.Broken? && step.expired ==> host.calls > 0 && host.script(host.calls - 1).expired
      ensures step.Broken? && host.calls > 0 && !Answered(host.calls - 1) ==> step.expired == host.script(host.calls - 1).expired
    {
      hide Safe, StepOk, ValidPlan, Sound, SamePlan, CandidatesAccounted, HaltedFrom, RetiredFrom, Retiring,
        NoCandidates, NoDependantRuns, DependsOn, BackupsFree, Drift, Consistent, Retired, Kept, Rest, Brief, AllUp,
        StillUp;
      var i := order[k];
      var x := state.entries[i];
      NothingRunsAbove(k);
      OnlyAtGrows(host.engine, host.engine, host.engine, x.id);
      RetiringHalts(plan, host.engine, host.engine, state.entries, k);
      step := Onward;
      if x.was.status.Running? {
        ghost var e := host.engine;
        var stopped := Alter(i, Stop(x.id));
        RetiringHalts(plan, e, host.engine, state.entries, k);
        if !stopped.Done? {
          step := Broken(stopped.Failed? && stopped.expired);
        }
      }
    }

    method MoveAway(k: nat) returns (step: Step)
      requires Valid() && Synced() && host.status == Active && k < |order| && order[k] < |state.entries|
      requires Retiring(plan, host.engine, state.entries, k) && NoCandidates(plan, host.engine, state.entries)
      requires state.entries[order[k]].touched && state.entries[order[k]].id in host.engine.containers
      requires host.engine.containers[state.entries[order[k]].id].name == state.entries[order[k]].was.name
      modifies host`calls, host`engine, host`exits, host`history
      ensures Valid() && Synced() && !step.Abandon? && old(host.history) <= host.history && host.calls == old(host.calls) + 1
      ensures FineFrom(old(host.calls)) && AllUp(plan, old(host.exits)) ==> AllUp(plan, host.exits)
      ensures NoCandidates(plan, host.engine, state.entries) && HaltedFrom(plan, host.engine, state.entries, 0)
      ensures Retiring(plan, host.engine, state.entries, k)
      ensures state.entries[order[k]].id in host.engine.containers
      ensures step.Onward? ==>
                var x := state.entries[order[k]];
                host.engine.containers[x.id] == old(host.engine).containers[x.id].(name := x.backup)
      ensures FineAt(old(host.calls)) && BackupsFree(plan) ==> step.Onward?
      ensures step.Broken? && step.expired ==> host.calls > 0 && host.script(host.calls - 1).expired
      ensures step.Broken? && host.calls > 0 && !Answered(host.calls - 1) ==> step.expired == host.script(host.calls - 1).expired
    {
      hide Safe, StepOk, ValidPlan, Sound, SamePlan, CandidatesAccounted, HaltedFrom, RetiredFrom, Retiring,
        NoCandidates, NoDependantRuns, DependsOn, BackupsFree, Drift, Consistent, Retired, Kept, Rest, Brief, AllUp,
        StillUp;
      var i := order[k];
      var x := state.entries[i];
      if BackupsFree(plan) {
        BackupIsFree(i);
      }
      ghost var e := host.engine;
      var renamed := Alter(i, Rename(x.id, x.backup));
      RetiringHalts(plan, e, host.engine, state.entries, k);
      step := if renamed.Done? then Onward else Broken(renamed.Failed? && renamed.expired);
    }

    lemma SameWas(i: nat)
      requires Valid() && i < |state.entries|
      ensures i < |plan.entries| && state.entries[i].was == plan.entries[i].was
    {
      hide Safe, StepOk, Sound, ValidPlan;
    }

    /** Disconnects the retired original from every network; "none" is not one. */
    method Detach(i: nat) returns (step: Step)
      requires Valid() && Synced() && i < |state.entries| && state.entries[i].touched
      requires state.entries[i].id in host.engine.containers
      modifies host`calls, host`engine, host`exits, host`history
      ensures Valid() && Synced() && host.calls >= old(host.calls) && old(host.history) <= host.history
      ensures FineFrom(old(host.calls)) && AllUp(plan, old(host.exits)) ==> AllUp(plan, host.exits)
      ensures OnlyDetached(state.entries[i], old(host.engine), host.engine) && !step.Abandon?
      ensures step.Onward? ==> Detached(state.entries[i], host.engine.containers[state.entries[i].id])
      ensures old(host.calls) <= host.calls <= old(host.calls) + Networks(state.entries[i])
      ensures if step.Onward? then host.calls == old(host.calls) + Networks(state.entries[i])
              else && old(host.calls) < host.calls
                   && (old(host.engine).containers[state.entries[i].id].endpoints == state.entries[i].was.endpoints ==>
                         !FineAt(host.calls - 1))
      ensures step.Broken? && step.expired ==> host.calls > 0 && host.script(host.calls - 1).expired
    {
      hide Safe, StepOk, ValidPlan, Sound, SamePlan, OnlyAt, Detaching, Detached, Fine, MidDetach, Connections,
        OnlyDetached, Rest, Brief, AllUp, StillUp;
      var x := state.entries[i];
      ghost var e0 := host.engine;
      MidDetachStarts(x, e0);
      var todo := x.was.endpoints.Keys;
      while todo != {}
        invariant todo <= x.was.endpoints.Keys
        invariant Valid() && Synced() && old(host.history) <= host.history
        invariant old(host.calls) <= host.calls == old(host.calls) + Networks(x) - Connections(todo)
        invariant MidDetach(x, e0, host.engine, todo)
        invariant FineFrom(old(host.calls)) && AllUp(plan, old(host.exits)) ==> AllUp(plan, host.exits)
      {
        var network :| network in todo;
        step := DetachFrom(i, network, e0, todo);
        todo := todo - {network};
        if !step.Onward? {
          return;
        }
      }
      MidDetachEnds(x, e0, host.engine);
      NoConnections();
      return Onward;
    }

    method DetachFrom(i: nat, network: string, ghost e0: State, ghost todo: set<string>) returns (step: Step)
      requires Valid() && Synced() && i < |state.entries| && state.entries[i].touched
      requires MidDetach(state.entries[i], e0, host.engine, todo) && network in todo
      modifies host`calls, host`engine, host`exits, host`history
      ensures Valid() && Synced() && old(host.history) <= host.history && !step.Abandon?
      ensures FineFrom(old(host.calls)) && AllUp(plan, old(host.exits)) ==> AllUp(plan, host.exits)
      ensures if step.Onward? then MidDetach(state.entries[i], e0, host.engine, todo - {network})
              else && OnlyDetached(state.entries[i], e0, host.engine) && host.calls > old(host.calls)
                   && (network in e0.containers[state.entries[i].id].endpoints ==> !FineAt(host.calls - 1))
      ensures host.calls >= old(host.calls)
      ensures Connections(todo) == host.calls - old(host.calls) + Connections(todo - {network})
      ensures step.Broken? && step.expired ==> host.calls > 0 && host.script(host.calls - 1).expired
    {
      hide Safe, StepOk, ValidPlan, Sound, SamePlan, Fine, Detaching, OnlyAt, Rest, Brief, AllUp, StillUp;
      var x := state.entries[i];
      ghost var e := host.engine;
      DetachingContinues(x, e0.containers[x.id], e.containers[x.id], todo, network);
      if network == "none" {
        return Onward;
      }
      step := DisconnectFrom(i, network);
      OnlyAtGrows(e0, e, host.engine, x.id);
      if !step.Onward? {
        DetachingOnlyDetaches(x, e0.containers[x.id], host.engine.containers[x.id], e.containers[x.id], todo, network);
      }
    }

    method DisconnectFrom(i: nat, network: string) returns (step: Step)
      requires Valid() && Synced() && i < |state.entries| && state.entries[i].touched
      requires state.entries[i].id in host.engine.containers
      modifies host`calls, host`engine, host`exits, host`history
      ensures Valid() && Synced() && host.calls == old(host.calls) + 1 && old(host.history) <= host.history && !step.Abandon?
      ensures FineFrom(old(host.calls)) && AllUp(plan, old(host.exits)) ==> AllUp(plan, host.exits)
      ensures OnlyAt(old(host.engine), host.engine, state.entries[i].id)
      ensures var id, c := state.entries[i].id, old(host.engine).containers[state.entries[i].id];
              && id in host.engine.containers
              && (host.engine.containers[id] == c || host.engine.containers[id] == c.(endpoints := c.endpoints - {network}))
              && (step.Onward? ==> host.engine.containers[id] == c.(endpoints := c.endpoints - {network}))
      ensures FineAt(old(host.calls)) && network in old(host.engine).containers[state.entries[i].id].endpoints ==> step.Onward?
      ensures step.Broken? && step.expired ==> host.calls > 0 && host.script(host.calls - 1).expired
      ensures step.Broken? && host.calls > 0 && !Answered(host.calls - 1) ==> step.expired == host.script(host.calls - 1).expired
    {
      hide Safe, StepOk, ValidPlan, Sound, SamePlan, DependsOn, Rest, Brief, AllUp, StillUp;
      var gone := Alter(i, Disconnect(state.entries[i].id, network));
      step := if gone.Done? then Onward else Broken(gone.Failed? && gone.expired);
    }

    lemma TouchKeepsAccounts(i: nat)
      requires Valid() && Synced() && i < |state.entries|
      ensures var s1 := state.entries[i := state.entries[i].(touched := true)];
              SamePlan(plan, s1) && CandidatesAccounted(plan, host.engine, s1)
    {
      hide StepOk, Sound, OriginalsKept, WrittenAhead, BystandersKept, DependenciesRun, ValidPlan;
      NowIsSafe();
      var s, s1 := state.entries, state.entries[i := state.entries[i].(touched := true)];
      var e := host.engine;
      forall id: Id ensures Known(s1, id) <==> Known(s, id) {
        if Known(s, id) {
          var k :| 0 <= k < |s| && s[k].newId == Some(id);
          assert s1[k].newId == Some(id);
        }
      }
      forall id | id in e.containers && id !in plan.base.containers
        ensures exists k :: CandidateOf(s1, k, id, e.containers[id])
      {
        var k :| CandidateOf(s, k, id, e.containers[id]);
        assert CandidateOf(s1, k, id, e.containers[id]);
      }
      forall id ensures Unsaved(plan, e, s1, id) <==> Unsaved(plan, e, s, id) {
      }
    }

    lemma NothingRunsAbove(k: nat)
      requires Valid() && k < |order| && order[k] < |state.entries| && Retiring(plan, host.engine, state.entries, k)
      ensures NoDependantRuns(plan, host.engine, state.entries, order[k])
    {
      hide Safe, StepOk, Sound, DependsOn;
      forall j | 0 <= j < |state.entries| && DependsOn(plan.labels, j, order[k])
        ensures !OriginalRuns(host.engine, state.entries[j])
      {
        var n := OrderCovers(plan, state.entries, j);
        assert order[k] !in order[..n] || k < n;
      }
    }

    /** With no candidate in the Engine, a free recovery name stays free until its own original takes it. */
    lemma BackupIsFree(i: nat)
      requires Valid() && Synced() && host.status == Active && i < |state.entries| && BackupsFree(plan)
      requires NoCandidates(plan, host.engine, state.entries)
      requires state.entries[i].id in host.engine.containers
      requires host.engine.containers[state.entries[i].id].name == state.entries[i].was.name
      ensures !Taken(host.engine, state.entries[i].backup)
    {
      hide Safe, StepOk, Sound;
      NamesAreUnique();
      forall x | x in host.engine.containers ensures host.engine.containers[x].name != state.entries[i].backup {
        assert x in plan.base.containers && plan.base.containers[x].name != plan.entries[i].backup;
        OldNames(x);
      }
    }

    /** The first loop of the replacement: dependants before dependencies. */
    method RetireOriginals() returns (step: Step)
      requires Valid() && Synced() && host.status == Active && NoCandidates(plan, host.engine, state.entries)
      requires forall x :: x in state.entries ==> !x.touched
      modifies this`state, host`calls, host`engine, host`exits, host`saved, host`history, host`refused
      ensures Valid() && state.mutated && host.calls >= old(host.calls) && old(host.history) <= host.history
      ensures FineFrom(old(host.calls)) && AllUp(plan, old(host.exits)) ==> AllUp(plan, host.exits)
      ensures !step.Abandon? ==>
                && Synced() && NoCandidates(plan, host.engine, state.entries) && HaltedFrom(plan, host.engine, state.entries, 0)
      ensures step.Onward? ==> RetiredFrom(plan, host.engine, state.entries, 0)
      ensures SameTargets(old(state.entries), state.entries)
      ensures FineFor(old(host.calls), TotalCalls(plan, 0)) && BackupsFree(plan) ==>
                step.Onward? && host.calls == old(host.calls) + TotalCalls(plan, 0)
      ensures step.Onward? ==> host.refused == old(host.refused)
      ensures step.Abandon? ==> host.refused == Some(host.calls - 1)
      ensures step.Broken? ==> Traceable(step.expired)
    {
      hide Traceable, Safe, StepOk, ValidPlan, Sound, SamePlan, Retired, BackupsFree, RetireCalls, Rest, Brief, AllUp,
        StillUp, FineFor, FineFrom, TotalCalls, Fine, Passes, Patient;
      ghost var n := host.calls;
      NothingToRetire();
      for k := |order| downto 0
        invariant Valid() && Synced() && host.status == Active && host.calls >= old(host.calls) && old(host.history) <= host.history
        invariant NoCandidates(plan, host.engine, state.entries) && HaltedFrom(plan, host.engine, state.entries, 0)
        invariant RetiredFrom(plan, host.engine, state.entries, k)
        invariant SameTargets(old(state.entries), state.entries)
        invariant FineFrom(old(host.calls)) && AllUp(plan, old(host.exits)) ==> AllUp(plan, host.exits)
        invariant FineFor(old(host.calls), TotalCalls(plan, 0)) && BackupsFree(plan) ==>
                    host.calls == old(host.calls) + TotalCalls(plan, k)
        invariant host.refused == old(host.refused)
      {
        OrderIndexes(plan, plan.entries, k);
        FineLater(n, host.calls);
        RetireSlice(n, k);
        step := RetireOriginal(k);
        if !step.Onward? {
          return;
        }
      }
      return Onward;
    }

    lemma FineLater(n: nat, m: nat)
      ensures FineFrom(n) && n <= m ==> FineFrom(m)
    {
      hide Fine, Patient, Brief;
    }

    lemma NothingToRetire()
      ensures TotalCalls(plan, |plan.order|) == 0
    {
    }

    /** The calls for the original at position `k` are among those for all. */
    lemma RetireSlice(n: nat, k: nat)
      requires k < |plan.order| && plan.order[k] < |plan.entries|
      ensures TotalCalls(plan, k) == TotalCalls(plan, k + 1) + RetireCalls(plan.entries[plan.order[k]])
      ensures FineFor(n, TotalCalls(plan, 0)) ==> FineFor(n + TotalCalls(plan, k + 1), RetireCalls(plan.entries[plan.order[k]]))
    {
      hide Fine, Brief, RetireCalls;
      TotalFalls(plan, 0, k);
    }

    // ---- Creating the candidates ---------------------------------------------

    /** The response of the next call is lost: it takes effect and nothing comes back. */
    ghost predicate LosesNext()
      reads this, host
    {
      var a := host.script(host.calls);
      a.done && !a.heard && !a.expired
    }

    method ReplaceOriginal(m: nat) returns (step: Step)
      requires Valid() && Synced() && host.status == Active && m < |order|
      requires CreatedUpTo(plan, host.engine, host.seen, state.entries, m)
      modifies this`state, host`calls, host`engine, host`exits, host`seen, host`saved, host`history, host`refused
      ensures Valid() && state.mutated && host.calls >= old(host.calls) && old(host.history) <= host.history
      ensures FineFrom(old(host.calls)) && AllUp(plan, old(host.exits)) ==> AllUp(plan, host.exits)
      ensures !step.Abandon? ==> Synced() && HaltedFrom(plan, host.engine, state.entries, 0)
      ensures step.Onward? ==> CreatedUpTo(plan, host.engine, host.seen, state.entries, m + 1)
      ensures SameTargets(old(state.entries), state.entries)
      ensures FineFrom(old(host.calls)) ==> step.Onward?
      ensures old(LosesNext()) ==>
                step == Broken(false) && !NoneLost(plan, host.engine, state.entries) && host.calls == old(host.calls) + 1
      ensures step.Onward? ==> host.refused == old(host.refused)
      ensures step.Abandon? ==> host.refused == Some(host.calls - 1)
      ensures step.Broken? ==> Traceable(step.expired)
    {
      hide Traceable, Passes, Patient, Safe, StepOk, ValidPlan, Sound, SamePlan, CreatedUpTo, HaltedFrom,
        CandidatesAccounted, NoneLost, Drift, CreatingAt, Fine, SameTargets, Rest, Brief, AllUp, StillUp;
      OrderIndexes(plan, state.entries, m);
      var i := order[m];
      ghost var e := host.engine;
      NowIsAccounted();
      var created := CreateWanted(m);
      IdentityKeepsTargets(state.entries, i, if created.Done? then Some(created.id) else None);
      if !created.Done? {
        NowTraceable(created.Failed? && created.expired);
        return Broken(created.Failed? && created.expired);
      }
      CreationAdvances(plan, e, host.seen, state.entries, m);
      state := state.(entries := state.entries[i := state.entries[i].(newId := Some(created.id))]);
      FineExits(host.calls, host.engine, host.exits);
      var saved := SaveState();
      if !saved {
        return Abandon;
      }
      step := BringUp(m);
    }

    method CreateWanted(m: nat) returns (r: Reply)
      requires Valid() && Synced() && host.status == Active && m < |order| && order[m] < |state.entries|
      requires CreatedUpTo(plan, host.engine, host.seen, state.entries, m)
      modifies host`calls, host`engine, host`exits, host`history
      ensures Valid() && Synced() && host.calls == old(host.calls) + 1 && old(host.history) <= host.history
      ensures FineFrom(old(host.calls)) && AllUp(plan, old(host.exits)) ==> AllUp(plan, host.exits)
      ensures HaltedFrom(plan, host.engine, state.entries, 0)
      ensures r.Done? ==>
                var x := state.entries[order[m]];
                && r.id == old(host.engine).next
                && host.engine == State(old(host.engine).containers[r.id :=
                     Container(x.was.name, x.targetImage, x.wanted, x.was.endpoints, Status.Created)], r.id + 1)
      ensures FineAt(old(host.calls)) ==> r.Done?
      ensures old(LosesNext()) ==> r == Failed(false) && !NoneLost(plan, host.engine, state.entries)
      ensures !r.Done? ==> NoneLost(plan, host.engine, state.entries) || Unheard(host.calls - 1)
      ensures r.Failed? && r.expired ==> host.script(host.calls - 1).expired
    {
      hide Safe, StepOk, ValidPlan, Sound, SamePlan, CreatedUpTo, HaltedFrom, CandidatesAccounted, NoneLost, Drift,
        Consistent, Rest, Brief, AllUp, StillUp;
      var x := state.entries[order[m]];
      ReadyToCreate(m);
      NowIsAccounted();
      ghost var e := host.engine;
      r := CreateCandidate(order[m], Container(x.was.name, x.targetImage, x.wanted, x.was.endpoints, Status.Created));
      NextIsNew(e);
      CreatedIsHalted(plan, e, host.engine, host.seen, state.entries, m);
      if host.engine != e {
        CreatedIsLost(plan, e, host.engine, state.entries);
      }
    }

    lemma NextIsNew(e: State)
      requires Consistent(e)
      ensures e.next !in e.containers
    {
    }

    /** Everything creation at position `m` needs: an empty slot and a free name. */
    lemma ReadyToCreate(m: nat)
      requires Valid() && Synced() && host.status == Active && m < |order| && order[m] < |state.entries|
      requires CreatedUpTo(plan, host.engine, host.seen, state.entries, m)
      ensures state.entries[order[m]].newId.None? && NoneLost(plan, host.engine, state.entries)
      ensures !Taken(host.engine, state.entries[order[m]].was.name)
    {
      hide Safe, StepOk, Sound;
      NamesAreUnique();
      var e, s, i := host.engine, state.entries, order[m];
      forall x | x in e.containers ensures e.containers[x].name != s[i].was.name {
        OriginalIsUnknown(i);
        if x in plan.base.containers {
          OldNames(x);
          var n := OrderCovers(plan, s, i);
          assert Retired(e, s[i]);
        } else {
          assert !Unsaved(plan, e, s, x);
          var j :| 0 <= j < |s| && s[j].newId == Some(x);
          var n := OrderCovers(plan, s, j);
          assert BroughtUp(e, host.seen, s[j]);
          OriginalIsUnknown(j);
        }
      }
    }

    lemma NowIsAccounted()
      requires Valid() && Synced()
      ensures CandidatesAccounted(plan, host.engine, state.entries)
      ensures Consistent(host.engine) && plan.base.next <= host.engine.next && Matches(plan)
    {
      hide StepOk, Sound, WrittenAhead, OriginalsKept, BystandersKept, DependenciesRun, CandidatesAccounted;
      NowIsSafe();
    }

    lemma NowTraceable(expired: bool)
      requires expired ==> host.calls > 0 && host.script(host.calls - 1).expired
      requires host.calls > 0 && (state.mutated ==> NoneLost(plan, host.engine, state.entries) || Unheard(host.calls - 1))
      ensures Traceable(expired)
    {
    }

    lemma NothingIsLost(step: Step)
      requires (step.Broken? && step.expired) ==> host.calls > 0 && host.script(host.calls - 1).expired
      ensures step.Broken? && host.calls > 0 && NoneLost(plan, host.engine, state.entries) ==> Traceable(step.expired)
      ensures forall m :: CreatingAt(plan, host.engine, host.seen, state.entries, m) ==> NoneLost(plan, host.engine, state.entries)
      ensures forall m :: CreatedUpTo(plan, host.engine, host.seen, state.entries, m) ==> NoneLost(plan, host.engine, state.entries)
      ensures NoCandidates(plan, host.engine, state.entries) ==> NoneLost(plan, host.engine, state.entries)
    {
    }

    /** Reserves, starts and awaits the candidate at position `m`. */
    method BringUp(m: nat) returns (step: Step)
      requires Valid() && Synced() && CreatingAt(plan, host.engine, host.seen, state.entries, m) && plan.order == order
      requires host.engine.containers[state.entries[order[m]].newId.value].status.Created?
      modifies host`calls, host`engine, host`exits, host`seen, host`history, host`refused
      ensures Valid() && Synced() && host.calls >= old(host.calls) && !step.Abandon? && old(host.history) <= host.history
      ensures FineFrom(old(host.calls)) && AllUp(plan, old(host.exits)) ==> AllUp(plan, host.exits)
      ensures HaltedFrom(plan, host.engine, state.entries, 0)
      ensures step.Onward? ==> CreatedUpTo(plan, host.engine, host.seen, state.entries, m + 1)
      ensures FineFrom(old(host.calls)) ==> step.Onward?
      ensures step.Onward? ==> host.refused == old(host.refused)
      ensures step.Broken? ==> Traceable(step.expired)
    {
      hide Traceable, Passes, Patient, Safe, StepOk, ValidPlan, Sound, SamePlan, HaltedFrom, CandidatesAccounted,
        CreatingAt, CreatedUpTo, Drift, LookedAt, Observed, WillBeReady, IsReady, BroughtUp, SeesReady, Rest, Brief,
        AllUp, StillUp;
      CreatingHalts(plan, host.engine, host.seen, state.entries, m);
      var i := order[m];
      var x := state.entries[i];
      var id := x.newId.value;
      assert Known(state.entries, id);
      KnownIsNew(id);
      FineExits(host.calls, host.engine, host.exits);
      var reserved, answer := Reserve();
      if !reserved {
        NothingIsLost(Broken(answer.expired));
        return Broken(answer.expired);
      }
      step := StartIfRunning(m);
      NothingIsLost(step);
      if !step.Onward? {
        return;
      }
      step := AwaitCandidate(m);
      NothingIsLost(step);
    }

    /** The candidate at position `m` was started or is to stay stopped, and now it is polled. */
    method AwaitCandidate(m: nat) returns (step: Step)
      requires Valid() && Synced() && CreatingAt(plan, host.engine, host.seen, state.entries, m) && plan.order == order
      requires StartedAsWanted(host.engine, state.entries[order[m]])
      modifies host`calls, host`exits, host`seen, host`history
      ensures Valid() && Synced() && host.calls >= old(host.calls) && !step.Abandon? && old(host.history) <= host.history
      ensures FineFrom(old(host.calls)) && AllUp(plan, old(host.exits)) ==> AllUp(plan, host.exits)
      ensures HaltedFrom(plan, host.engine, state.entries, 0)
      ensures step.Onward? ==> CreatedUpTo(plan, host.engine, host.seen, state.entries, m + 1)
      ensures var x := state.entries[order[m]];
              FineFrom(old(host.calls)) && WillBeReady(host.engine, old(host.exits), x, x.newId.value) ==> step.Onward?
      ensures step.Broken? && step.expired ==> host.calls > 0 && host.script(host.calls - 1).expired
      ensures !(step.Broken? && step.expired)
      ensures NoneLost(plan, host.engine, state.entries)
    {
      hide Passes, Patient, Safe, StepOk, ValidPlan, Sound, SamePlan, HaltedFrom, CandidatesAccounted, CreatingAt,
        CreatedUpTo, Drift, LookedAt, Observed, WillBeReady, IsReady, BroughtUp, SeesReady, Rest, Brief, AllUp, StillUp,
        StartedAsWanted, Fine;
      CreatingHalts(plan, host.engine, host.seen, state.entries, m);
      NowIsAccounted();
      ghost var seen := host.seen;
      var i := order[m];
      var x := state.entries[i];
      FineExits(host.calls, host.engine, host.exits);
      if WillBeReady(host.engine, host.exits, x, x.newId.value) {
        WaitingEnds(plan, host.engine, host.exits, seen, state.entries, m);
      }
      var ok := Ready(i, x.newId.value);
      LookingContinues(plan, host.engine, seen, host.seen, state.entries, m);
      CreatingHalts(plan, host.engine, host.seen, state.entries, m);
      NothingIsLost(Onward);
      if !ok {
        return Broken(false);
      }
      NowBroughtUp(m);
      NothingIsLost(Onward);
      CreatingEnds(plan, host.engine, host.seen, state.entries, m);
      return Onward;
    }

    ghost predicate StartedAsWanted(e: State, x: Entry) {
      x.newId.Some?
      && if x.oneShot then LeftRunning(e, x.newId.value)
         else !x.was.status.Running? ==> !LeftRunning(e, x.newId.value)
    }

    /** The candidate at position `m` has been started if it should be, and was seen ready just now. */
    lemma NowBroughtUp(m: nat)
      requires Valid() && CreatingAt(plan, host.engine, host.seen, state.entries, m)
      requires SeesReady(order[m], state.entries[order[m]].newId.value)
      requires StartedAsWanted(host.engine, state.entries[order[m]])
      ensures BroughtUp(host.engine, host.seen, state.entries[order[m]])
    {
      hide Sound, StepOk, Safe;
      NowIsSafe();
      LeftAsSeen(host.engine, host.exits, state.entries[order[m]].newId.value);
    }

    method StartIfRunning(m: nat) returns (step: Step)
      requires Valid() && Synced() && CreatingAt(plan, host.engine, host.seen, state.entries, m) && plan.order == order
      requires state.entries[order[m]].newId.value !in plan.base.containers
      requires host.engine.containers[state.entries[order[m]].newId.value].status.Created?
      modifies host`calls, host`engine, host`exits, host`history
      ensures Valid() && Synced() && host.calls >= old(host.calls) && !step.Abandon? && old(host.history) <= host.history
      ensures FineFrom(old(host.calls)) && AllUp(plan, old(host.exits)) ==> AllUp(plan, host.exits)
      ensures CreatingAt(plan, host.engine, host.seen, state.entries, m) && HaltedFrom(plan, host.engine, state.entries, 0)
      ensures step.Onward? ==> StartedAsWanted(host.engine, state.entries[order[m]])
      ensures FineFrom(old(host.calls)) ==>
                step.Onward? && WillBeReady(host.engine, host.exits, state.entries[order[m]], state.entries[order[m]].newId.value)
      ensures step.Broken? && step.expired ==> host.calls > 0 && host.script(host.calls - 1).expired
      ensures step.Broken? && host.calls > 0 && !Answered(host.calls - 1) ==> step.expired == host.script(host.calls - 1).expired
      ensures NoneLost(plan, host.engine, state.entries)
    {
      hide Safe, StepOk, ValidPlan, Sound, SamePlan, HaltedFrom, CandidatesAccounted, CreatingAt, CreatedUpTo, Drift,
        Rest, Brief, AllUp, StillUp;
      CreatingHalts(plan, host.engine, host.seen, state.entries, m);
      var i := order[m];
      var x := state.entries[i];
      var id := x.newId.value;
      NothingIsLost(Onward);
      step := Onward;
      NowIsSafe();
      if x.was.status.Running? || x.oneShot {
        NowIsAccounted();
        DependenciesAreUp(plan, host.engine, host.seen, state.entries, m);
        ghost var e := host.engine;
        var started := StartCandidate(i, id);
        CreatingContinues(plan, e, host.engine, host.seen, state.entries, m);
        CreatingHalts(plan, host.engine, host.seen, state.entries, m);
        NothingIsLost(Onward);
        if !started.Done? {
          step := Broken(started.Failed? && started.expired);
        }
      }
    }

    method CreateCandidates() returns (step: Step)
      requires Valid() && Synced() && host.status == Active && CreatedUpTo(plan, host.engine, host.seen, state.entries, 0)
      modifies this`state, host`calls, host`engine, host`exits, host`seen, host`saved, host`history, host`refused
      ensures Valid() && state.mutated && host.calls >= old(host.calls) && old(host.history) <= host.history
      ensures FineFrom(old(host.calls)) && AllUp(plan, old(host.exits)) ==> AllUp(plan, host.exits)
      ensures !step.Abandon? ==> Synced() && HaltedFrom(plan, host.engine, state.entries, 0)
      ensures step.Onward? ==> CreatedUpTo(plan, host.engine, host.seen, state.entries, |order|)
      ensures SameTargets(old(state.entries), state.entries)
      ensures FineFrom(old(host.calls)) ==> step.Onward?
      ensures old(LosesNext()) ==>
                step == Broken(false) && !NoneLost(plan, host.engine, state.entries) && host.calls == old(host.calls) + 1
      ensures step.Onward? ==> host.refused == old(host.refused)
      ensures step.Abandon? ==> host.refused == Some(host.calls - 1)
      ensures step.Broken? ==> Traceable(step.expired)
    {
      hide Traceable, Passes, Patient, Safe, StepOk, ValidPlan, Sound, SamePlan, HaltedFrom, CreatedUpTo, EntryReplaced,
        NoneLost, Rest, Brief, AllUp, StillUp;
      SomeOrder();
      for m := 0 to |order|
        invariant Valid() && Synced() && host.status == Active && host.calls >= old(host.calls) && old(host.history) <= host.history
        invariant CreatedUpTo(plan, host.engine, host.seen, state.entries, m)
        invariant HaltedFrom(plan, host.engine, state.entries, 0)
        invariant SameTargets(old(state.entries), state.entries)
        invariant FineFrom(old(host.calls)) && AllUp(plan, old(host.exits)) ==> AllUp(plan, host.exits)
        invariant m == 0 ==> host.calls == old(host.calls)
        invariant m > 0 ==> !old(LosesNext())
        invariant host.refused == old(host.refused)
      {
        step := ReplaceOriginal(m);
        if !step.Onward? {
          return;
        }
      }
      return Onward;
    }

    lemma SomeOrder()
      requires Valid()
      ensures |order| > 0
      ensures CreatedUpTo(plan, host.engine, host.seen, state.entries, 0) ==> HaltedFrom(plan, host.engine, state.entries, 0)
    {
      hide Safe, StepOk, Sound;
      var k := OrderCovers(plan, plan.entries, 0);
      if CreatedUpTo(plan, host.engine, host.seen, state.entries, 0) {
        CreatedIsHalted(plan, host.engine, host.engine, host.seen, state.entries, 0);
      }
    }

    // ---- Verification -----------------------------------------------------------

    /** One member: the retained original, the candidate, and the candidate's readiness. */
    method VerifyEntry(i: nat) returns (ok: bool)
      requires Valid() && i < |state.entries| && state.entries[i].newId.Some?
      modifies host`calls, host`exits, host`seen, host`history
      ensures Valid() && host.calls >= old(host.calls) && old(host.history) <= host.history
      ensures forall x :: x != state.entries[i].id && x != state.entries[i].newId.value ==>
                (x in old(host.seen) <==> x in host.seen) && (x in old(host.seen) ==> host.seen[x] == old(host.seen)[x])
      ensures ok ==> EntryReplaced(host.engine, host.exits, host.seen, state.entries[i])
      ensures forall id :: id in old(host.exits) ==> id in host.exits
      ensures FineFrom(old(host.calls)) ==>
                host.exits == Rest(host.engine, old(host.exits), Brief(plan))
                && (ok <==> EntryLooksReplaced(host.engine, host.exits, state.entries[i]))
    {
      hide Passes, Patient, Safe, StepOk, ValidPlan, Sound, SamePlan, Drift, LookedAt, Consistent, ExitsFit, Rest, Brief,
        AllUp, StillUp;
      var x := state.entries[i];
      FineExits(host.calls, host.engine, host.exits);
      var looks := VerifyMade(i);
      if !looks {
        return false;
      }
      ghost var seen, exits := host.seen, host.exits;
      ok := Ready(i, x.newId.value);
      InPlaceAges(host.engine, exits, host.exits, x);
      assert forall y :: y != x.newId.value ==> (y in seen <==> y in host.seen) && (y in seen ==> host.seen[y] == seen[y]) by {
        LookedElsewhere(seen, host.seen, x.newId.value);
      }
    }

    /** The comparisons: the retained original, and what the candidate is made of. */
    method VerifyMade(i: nat) returns (ok: bool)
      requires Valid() && i < |state.entries| && state.entries[i].newId.Some?
      modifies host`calls, host`exits, host`seen, host`history
      ensures Valid() && host.calls >= old(host.calls) && old(host.history) <= host.history
      ensures forall x :: x != state.entries[i].id && x != state.entries[i].newId.value ==>
                (x in old(host.seen) <==> x in host.seen) && (x in old(host.seen) ==> host.seen[x] == old(host.seen)[x])
      ensures ok ==> InPlace(host.engine, host.exits, state.entries[i])
      ensures forall id :: id in old(host.exits) ==> id in host.exits
      ensures FineFrom(old(host.calls)) ==>
                host.exits == Rest(host.engine, old(host.exits), Brief(plan))
                && (ok <==> InPlace(host.engine, host.exits, state.entries[i]))
    {
      hide Safe, StepOk, ValidPlan, Sound, SamePlan, Drift, Consistent, ExitsFit, Rest, Brief, AllUp, StillUp;
      var x := state.entries[i];
      FineExits(host.calls, host.engine, host.exits);
      var original, _, _ := Look(x.id);
      if !original.Found? {
        return false;
      }
      var was := original.container;
      if was.name != x.backup || was.status.Running? || was.image != x.was.image || was.config != x.was.config {
        return false;
      }
      var inspected, _, _ := Look(x.newId.value);
      if !inspected.Found? {
        return false;
      }
      var actual := inspected.container;
      if actual.image != x.targetImage || actual.name != x.was.name || actual.config != x.wanted {
        return false;
      }
      ok := actual.endpoints == x.was.endpoints;
    }

    /** `verify` of the source: success means that every member is replaced. */
    method Verify() returns (ok: bool)
      requires Valid() && Synced()
      modifies host`calls, host`exits, host`seen, host`history
      ensures Valid() && host.calls >= old(host.calls) && old(host.history) <= host.history
      ensures ok ==> Replaced(host.engine, host.exits, host.seen, state.entries)
      ensures FineFrom(old(host.calls)) ==>
                (ok <==> LooksReplaced(host.engine, Rest(host.engine, old(host.exits), Brief(plan)), state.entries))
    {
      hide Passes, Patient, Safe, StepOk, ValidPlan, Sound, SamePlan, EntryReplaced, EntryLooksReplaced, Drift, Rest,
        Brief, AllUp, StillUp;
      FineExits(host.calls, host.engine, host.exits);
      for i := 0 to |state.entries|
        invariant Valid() && host.calls >= old(host.calls) && old(host.history) <= host.history
        invariant forall k :: 0 <= k < i ==> EntryReplaced(host.engine, host.exits, host.seen, state.entries[k])
        invariant FineFrom(old(host.calls)) ==>
                    && host.exits == (if i == 0 then old(host.exits) else Rest(host.engine, old(host.exits), Brief(plan)))
                    && forall k :: 0 <= k < i ==> EntryLooksReplaced(host.engine, host.exits, state.entries[k])
      {
        if state.entries[i].newId.None? {
          NotReplaced(host.engine, Rest(host.engine, old(host.exits), Brief(plan)), state.entries[i]);
          return false;
        }
        ghost var exits, seen := host.exits, host.seen;
        ok := VerifyEntry(i);
        EarlierStayReplaced(i, exits, seen);
        if !ok {
          return;
        }
      }
      return true;
    }

    /** Looking at one member leaves the members before it replaced. */
    lemma EarlierStayReplaced(i: nat, exits: Exits, seen: map<Id, Observation>)
      requires Valid() && Synced() && i < |state.entries| && state.entries[i].newId.Some?
      requires forall id :: id in exits ==> id in host.exits
      requires forall x :: x != state.entries[i].id && x != state.entries[i].newId.value ==>
                 (x in seen <==> x in host.seen) && (x in seen ==> host.seen[x] == seen[x])
      ensures forall k :: 0 <= k < i && EntryReplaced(host.engine, exits, seen, state.entries[k]) ==>
                            EntryReplaced(host.engine, host.exits, host.seen, state.entries[k])
    {
      hide Safe, StepOk, Sound;
      OwnersAreUnique();
      NowIsAccounted();
      forall k | 0 <= k < i && EntryReplaced(host.engine, exits, seen, state.entries[k])
        ensures EntryReplaced(host.engine, host.exits, host.seen, state.entries[k])
      {
        OriginalIsNotCandidate(plan, host.engine, state.entries, i, k);
      }
    }

    /** Success is recorded for a group that is replaced at that moment. */
    method Complete(outcome: Outcome) returns (ok: bool)
      requires Valid() && Synced() && Replaced(host.engine, host.exits, host.seen, state.entries) && Succeeded(Finished(outcome))
      modifies host`calls, host`exits, host`saved, host`status, host`history, host`refused
      ensures Valid() && Synced() && old(host.history) <= host.history
      ensures ok ==> host.status == Finished(outcome)
      ensures host.status == old(host.status) || host.status == Finished(outcome)
      ensures Replaced(host.engine, host.exits, host.seen, state.entries)
      ensures var n := old(host.calls); ok <==> old(host.status) == Active && Answered(n) && Answered(n + 1) && Answered(n + 2)
      ensures host.refused == if ok then old(host.refused) else Some(host.calls - 1)
      ensures old(host.status) == Active ==> Ended(old(host.calls))
      ensures FineFrom(old(host.calls)) && old(host.status) == Active ==> ok
    {
      hide Safe, StepOk, ValidPlan, Sound, Replaced, Drift, Rest, Brief, AllUp, StillUp;
      ReplacedAges(host.engine, host.exits, host.seen, state.entries);
      var retargeted, _ := Reserve();
      if !retargeted {
        return false;
      }
      ReplacedAges(host.engine, host.exits, host.seen, state.entries);
      var saved := SaveAgain();
      if !saved {
        return false;
      }
      ReplacedAges(host.engine, host.exits, host.seen, state.entries);
      ok := FinishJob(outcome);
    }

    // ---- Failure ---------------------------------------------------------------

    /**
     * The `fail` closure of the source. Once the context has expired it leaves the Engine alone and can
     * only record that recovery is required. When everything works from here on, a job that changed
     * nothing fails cleanly, and a job that did ends rolled back exactly when no candidate is
     * missing from the journal.
     */
    method Fail(expired: bool)
      requires Valid() && host.saved == state && host.status == Active
      requires state.mutated ==> HaltedFrom(plan, host.engine, state.entries, 0)
      modifies this`failing, host`calls, host`engine, host`exits, host`seen, host`saved, host`status, host`history, host`refused
      ensures Valid() && host.saved == old(host.saved) && old(host.history) <= host.history
      ensures !state.mutated ==> host.engine == old(host.engine) && Idle(host.history, |old(host.history)|, host.engine, host.saved)
      ensures failing == Some(old(host.calls)) && Ended(old(host.calls))
      ensures FailedAs(old(host.calls), expired, NoneLost(plan, old(host.engine), state.entries))
      ensures expired || host.script(old(host.calls)).expired ==> host.engine == old(host.engine)
      ensures FineFrom(old(host.calls)) ==>
                host.status == Finished(
                         if !expired && !state.mutated then NotNeeded
                         else if !expired && NoneLost(plan, old(host.engine), state.entries) then RolledBack else RecoveryRequired)
      ensures host.status == Finished(RolledBack) ==> host.engine.containers == plan.base.containers
      ensures old(Traceable(expired)) ==> forall before :: Concluded(before)
    {
      failing := Some(host.calls);
      HandleFailure(expired);
    }

    /** From the decision what to do to the record of the failure. */
    method HandleFailure(expired: bool)
      requires Valid() && host.saved == state && host.status == Active
      requires state.mutated ==> HaltedFrom(plan, host.engine, state.entries, 0)
      modifies host`calls, host`engine, host`exits, host`seen, host`saved, host`status, host`history, host`refused
      ensures Valid() && host.saved == old(host.saved) && old(host.history) <= host.history
      ensures !state.mutated ==> host.engine == old(host.engine) && Idle(host.history, |old(host.history)|, host.engine, host.saved)
      ensures Ended(old(host.calls))
      ensures FailedAs(old(host.calls), expired, NoneLost(plan, old(host.engine), state.entries))
      ensures expired || host.script(old(host.calls)).expired ==> host.engine == old(host.engine)
      ensures FineFrom(old(host.calls)) ==>
                host.status == Finished(
                         if !expired && !state.mutated then NotNeeded
                         else if !expired && NoneLost(plan, old(host.engine), state.entries) then RolledBack else RecoveryRequired)
      ensures host.status == Finished(RolledBack) ==> host.engine.containers == plan.base.containers
    {
      hide RecoveredAs, Valid, Idle, FailedAs, FineFrom, Answered, Ended, Passes, Patient, StepOk, ValidPlan, Sound,
        Safe, Honest, HaltedFrom, NoneLost, Drift, Rest, Brief, AllUp, StillUp;
      ghost var n, e := host.calls, host.engine;
      var outcome := Recover(expired);
      ghost var m, h := host.calls, host.history;
      RecordFailure(outcome);
      HasFailedAs(n, expired, NoneLost(plan, e, state.entries), outcome, m);
      EndedSince(n, m);
      if !state.mutated {
        IdleAdds(h, host.history, |old(host.history)|, host.engine, host.saved);
      }
    }

    /** What failure handling from call `n` on comes to. */
    ghost predicate FailedAs(n: nat, expired: bool, noneLost: bool)
      reads this, host
    {
      var late := expired || host.script(n).expired;
      && (host.status == Active || host.status.outcome in {NotNeeded, RolledBack, RecoveryRequired})
      && (late ==> host.status == Active || host.status == Finished(RecoveryRequired))
      && ((late || !state.mutated) && Answered(n + 1) && host.script(n + 2).done ==>
            host.status == Finished(if late then RecoveryRequired else NotNeeded))
      && (!late && state.mutated && FineFrom(n + 2) ==>
            host.status == Finished(if noneLost then RolledBack else RecoveryRequired))
    }

    /** What recovery from call `n` to call `m` decides on. */
    ghost predicate RecoveredAs(n: nat, expired: bool, noneLost: bool, outcome: Outcome, m: nat)
      reads this
    {
      var late := expired || host.script(n).expired;
      && (late ==> outcome == RecoveryRequired)
      && (if late || !state.mutated then m == n + 1 else m >= n + 2)
      && (!late && !state.mutated ==> outcome == NotNeeded)
      && (!late && state.mutated && FineFrom(n + 2) ==> outcome == if noneLost then RolledBack else RecoveryRequired)
    }

    lemma HasFailedAs(n: nat, expired: bool, noneLost: bool, outcome: Outcome, m: nat)
      requires outcome in {NotNeeded, RolledBack, RecoveryRequired} && RecoveredAs(n, expired, noneLost, outcome, m)
      requires host.status == if Answered(m) && host.script(m + 1).done then Finished(outcome) else Active
      ensures FailedAs(n, expired, noneLost)
      ensures FineFrom(n) ==>
                host.status == Finished(if !expired && !state.mutated then NotNeeded
                                        else if !expired && noneLost then RolledBack else RecoveryRequired)
    {
      FineSoon(n);
      FineSoon(n + 2);
      hide FineFrom;
    }

    /** A run without failure handling that a refused request has ended. */
    lemma Stopped(n: nat)
      requires failing.None? && host.status == Active && host.calls > n && host.refused == Some(host.calls - 1)
      ensures Ended(n) && forall before :: Concluded(before)
    {
    }

    lemma NothingFailed(before: Option<nat>)
      requires failing.None? && (host.refused == before || host.refused == Some(host.calls - 1))
      requires host.status == Active || host.status.outcome in {Verified, Skipped, Outcome.Unchanged}
      ensures Concluded(before)
    {
    }

    lemma EndedSince(n: nat, m: nat)
      requires n <= m && Ended(m)
      ensures Ended(n)
    {
    }

    /** When everything works from call `n` on, time is not up, and later calls work too. */
    lemma FineSoon(n: nat)
      ensures FineFrom(n) ==> FineFrom(n + 2) && !host.script(n).expired
      ensures forall m {:trigger Answered(m)} :: n <= m && FineFrom(n) ==> Answered(m)
    {
      hide Patient, Brief;
    }

    /** The last save and the record of a failure. */
    method RecordFailure(outcome: Outcome)
      requires Valid() && host.saved == state && host.status == Active
      requires Honest(plan, host.Now().(status := Finished(outcome))) && outcome in {NotNeeded, RolledBack, RecoveryRequired}
      modifies host`calls, host`exits, host`saved, host`status, host`history, host`refused
      ensures Valid() && host.saved == old(host.saved) && old(host.history) <= host.history && host.calls > old(host.calls)
      ensures Idle(host.history, |old(host.history)|, host.engine, host.saved)
      ensures host.status == if Answered(old(host.calls)) && host.script(old(host.calls) + 1).done then Finished(outcome) else Active
      ensures Ended(old(host.calls))
    {
      hide StepOk, ValidPlan, Sound, Safe, Honest, Drift, Rest, Brief, AllUp, StillUp;
      HonestWhenSaved(host.Now(), outcome);
      var saved := SaveAgain();
      if !saved {
        return;
      }
      var _ := FinishJob(outcome);
    }

    /** What there is to do after a failure, and what it amounts to. */
    method Recover(expired: bool) returns (outcome: Outcome)
      requires Valid() && host.saved == state && host.status == Active
      requires state.mutated ==> HaltedFrom(plan, host.engine, state.entries, 0)
      modifies host`calls, host`engine, host`exits, host`seen, host`saved, host`history, host`refused
      ensures Valid() && host.saved == old(host.saved) && host.calls >= old(host.calls) && old(host.history) <= host.history
      ensures !state.mutated ==> host.engine == old(host.engine) && Idle(host.history, |old(host.history)|, host.engine, host.saved)
      ensures expired || host.script(old(host.calls)).expired ==> host.engine == old(host.engine)
      ensures RecoveredAs(old(host.calls), expired, NoneLost(plan, old(host.engine), state.entries), outcome, host.calls)
      ensures Honest(plan, host.Now().(status := Finished(outcome)))
      ensures outcome == RolledBack ==> host.engine.containers == plan.base.containers
      ensures outcome == NotNeeded || outcome == RolledBack || outcome == RecoveryRequired
    {
      hide Passes, Patient, StepOk, ValidPlan, Sound, Careful, HaltedFrom, NoneLost, Drift, Rest, Brief, AllUp, StillUp,
        WasSeenReady;
      NowIsSafe();
      var _, answer := Ask();
      if answer.expired || expired {
        return RecoveryRequired;
      }
      if !state.mutated {
        return NotNeeded;
      }
      var announced := SaveAgain();
      var restored := Rollback();
      outcome := if restored then RolledBack else RecoveryRequired;
    }

    /** A failure that was told truly is so after the containers have aged. */
    lemma HonestWhenSaved(w: World<Journal>, outcome: Outcome)
      requires Honest(plan, w.(status := Finished(outcome)))
      requires outcome == NotNeeded || outcome == RolledBack || outcome == RecoveryRequired
      ensures forall x: World<Journal> :: x.engine == w.engine ==> Honest(plan, x.(status := Finished(outcome)))
    {
    }

    // ---- The whole run -----------------------------------------------------------

    /** The fingerprint check: every original is still what the confirmed snapshot recorded, not restarted since. */
    method StillMatches() returns (ok: bool, expired: bool)
      requires Valid()
      modifies host`calls, host`exits, host`seen, host`history
      ensures Valid() && host.calls >= old(host.calls) && old(host.history) <= host.history
      ensures Idle(host.history, |old(host.history)|, host.engine, host.saved)
      ensures ok ==> AsRecorded(host.engine, state.entries) && host.calls == old(host.calls) + |state.entries|
      ensures FineFor(old(host.calls), |state.entries|) && AsRecorded(host.engine, state.entries) && Matches(plan) && AllUp(plan, old(host.exits)) ==>
                ok && AllUp(plan, host.exits)
      ensures ok ==> !expired
      ensures !ok ==> host.calls > old(host.calls) && (expired ==> host.script(host.calls - 1).expired)
    {
      hide Passes, Patient, Safe, StepOk, ValidPlan, Sound, SamePlan, Drift, RecordedAt, Matches, Rest, Brief, AllUp,
        StillUp;
      for i := 0 to |state.entries|
        invariant Valid() && host.calls == old(host.calls) + i && old(host.history) <= host.history
        invariant Idle(host.history, |old(host.history)|, host.engine, host.saved)
        invariant forall k :: 0 <= k < i ==> RecordedAt(host.engine, state.entries[k])
        invariant FineFor(old(host.calls), |state.entries|) && AllUp(plan, old(host.exits)) ==> AllUp(plan, host.exits)
      {
        ghost var h := host.history;
        var matches, expired := StillMatchesAt(i);
        IdleAdds(h, host.history, |old(host.history)|, host.engine, host.saved);
        if !matches {
          return false, expired;
        }
      }
      return true, false;
    }

    method StillMatchesAt(i: nat) returns (ok: bool, expired: bool)
      requires Valid() && i < |state.entries|
      modifies host`calls, host`exits, host`seen, host`history
      ensures Valid() && host.calls == old(host.calls) + 1 && old(host.history) <= host.history
      ensures Idle(host.history, |old(host.history)|, host.engine, host.saved)
      ensures ok ==> RecordedAt(host.engine, state.entries[i])
      ensures FineAt(old(host.calls)) && AllUp(plan, old(host.exits)) ==>
                AllUp(plan, host.exits) && (RecordedAt(host.engine, state.entries[i]) && Matches(plan) ==> ok)
      ensures expired ==> host.script(host.calls - 1).expired
    {
      hide Safe, StepOk, ValidPlan, Sound, SamePlan, Drift, Rest, Brief, AllUp, StillUp;
      FineExits(host.calls, host.engine, host.exits);
      OriginalExits(i, host.exits);
      OriginalExits(i, Rest(host.engine, host.exits, Brief(plan)));
      var seen, moved, _ := Look(state.entries[i].id);
      ok := seen == Found(state.entries[i].was) && !moved;
      expired := seen.Unavailable? && seen.expired;
    }

    /** The call with which a run that works up to there asks for the first candidate. */
    ghost predicate LosesFirstCreate(n: nat)
      reads this, host
    {
      var lost := n + 2 + |state.entries| + TotalCalls(plan, 0);
      && (forall k :: n <= k && k != lost ==> Fine(host.script(k), Brief(plan)))
      && (forall k {:trigger Patient(host.script, k)} :: n <= k ==> Patient(host.script, k))
      && host.script(lost).done && !host.script(lost).heard && !host.script(lost).expired
    }

    /**
     * `execute` of the source. Whatever the Engine and the store answer, every world this
     * leaves behind is safe and every step justified (`Valid` contains `Sound`), and no world is
     * forgotten. When everything works on an unchanged group, the job ends verified with every member
     * replaced; when everything works but the response to the first create call, it ends
     * recovery_required.
     */
    method Execute(verdict: Verdict, images: seq<Resolution>)
      requires Valid() && host.status == Active && host.saved == state && !state.mutated
      requires host.engine == plan.base && |images| == |state.entries|
      requires forall x :: x in state.entries ==> !x.touched && x.newId.None?
      requires failing.None?
      modifies this`state, this`failing, host
      ensures Valid() && old(host.history) <= host.history
      ensures FineFrom(old(host.calls)) && verdict.Replace? && Smooth(plan) && AllUp(plan, old(host.exits)) ==>
                host.status == Finished(Verified) && Replaced(host.engine, host.exits, host.seen, host.saved.entries)
      ensures verdict.Replace? && Smooth(plan) && AllUp(plan, old(host.exits)) && old(LosesFirstCreate(host.calls)) ==>
                host.status == Finished(RecoveryRequired)
      ensures host.status == Finished(RolledBack) ==> host.engine.containers == plan.base.containers
      ensures state.mutated ==> HasTargets(state.entries, images)
      ensures !verdict.Replace? || !AsRecorded(plan.base, old(state.entries)) ==>
                Idle(host.history, |old(host.history)|, plan.base, old(state)) && state == old(state)
      ensures FineFrom(old(host.calls)) && !verdict.Replace? && AsRecorded(plan.base, old(state.entries)) && AllUp(plan, old(host.exits)) ==>
                host.status == Finished(OutcomeWithout(verdict))
      ensures Ended(old(host.calls))
      ensures verdict != Refuse(true) ==> Concluded(old(host.refused))
      ensures !Answered(old(host.calls)) ==> host.calls == old(host.calls) + 1
    {
      hide Valid, Traceable, Ended, Concluded, Safe, StepOk, ValidPlan, Sound, Replaced, HaltedFrom, BackupsFree,
        NoneLost, Honest, CandidatesAccounted, TotalCalls, Drift, Fine, AsRecorded, HasTargets, Rest, Brief, AllUp,
        StillUp, Passes, Patient, Idle, LosesCreateAfter;
      SmoothIsRecorded();
      FineExits(host.calls, host.engine, host.exits);
      LosesLater(host.calls);
      ghost var h := host.history;
      IdleAlready(h, host.engine, host.saved);
      var saved := SaveAgain();
      if !saved {
        Stopped(old(host.calls));
        return;
      }
      if AsRecorded(plan.base, state.entries) {
        RecordedMatches();
      }
      ghost var h1 := host.history;
      var same, cancelled := StillMatches();
      IdleAdds(h1, host.history, |h|, host.engine, host.saved);
      ghost var h2 := host.history;
      ghost var m := host.calls;
      if same {
        RecordedMatches();
        Decide(verdict, images);
      } else {
        NowTraceable(cancelled);
        Fail(cancelled);
      }
      EndedSince(old(host.calls), m);
      if host.engine == plan.base && host.saved == old(state) && Idle(host.history, |h2|, plan.base, old(state)) {
        IdleAdds(h2, host.history, |h|, host.engine, host.saved);
      }
    }

    lemma IdleAlready(h: seq<World<Journal>>, e: State, j: Journal)
      ensures Idle(h, |h|, e, j)
    {
    }

    lemma LosesLater(n: nat)
      ensures LosesFirstCreate(n) ==>
                && FineAt(n) && FineFor(n + 1, |state.entries|)
                && LosesCreateAfter(n + 1 + |state.entries|, 1 + TotalCalls(plan, 0))
    {
      hide Fine, Brief, TotalCalls;
    }

    /** What the verdict asks for, for a group that is as recorded. */
    method Decide(verdict: Verdict, images: seq<Resolution>)
      requires Valid() && host.status == Active && host.saved == state && !state.mutated
      requires host.engine == plan.base && |images| == |state.entries| && Matches(plan)
      requires forall x :: x in state.entries ==> !x.touched && x.newId.None?
      requires failing.None? && host.calls > 0
      modifies this`state, this`failing, host
      ensures Valid() && old(host.history) <= host.history
      ensures FineFrom(old(host.calls)) && verdict.Replace? && BackupsFree(plan) && AllUp(plan, old(host.exits)) ==>
                host.status == Finished(Verified) && Replaced(host.engine, host.exits, host.seen, host.saved.entries)
      ensures verdict.Replace? && BackupsFree(plan) && LosesCreateAfter(old(host.calls), 1 + TotalCalls(plan, 0)) ==>
                host.status == Finished(RecoveryRequired)
      ensures host.status == Finished(RolledBack) ==> host.engine.containers == plan.base.containers
      ensures state.mutated ==> HasTargets(state.entries, images)
      ensures !verdict.Replace? ==>
                && Idle(host.history, |old(host.history)|, plan.base, old(state)) && state == old(state)
                && host.engine == plan.base && host.saved == state
      ensures FineFrom(old(host.calls)) && !verdict.Replace? ==> host.status == Finished(OutcomeWithout(verdict))
      ensures Ended(old(host.calls))
      ensures verdict != Refuse(true) ==> Concluded(old(host.refused))
    {
      hide Traceable, Ended, Concluded, Safe, StepOk, ValidPlan, Sound, Replaced, HaltedFrom, BackupsFree, NoneLost,
        Honest, CandidatesAccounted, TotalCalls, Drift, Fine, HasTargets, Rest, Brief, AllUp, StillUp, Passes, Patient,
        Idle, LosesCreateAfter, FineFrom;
      match verdict {
        case Refuse(expired) =>
          if !expired {
            NowTraceable(false);
          }
          Fail(expired);
        case Skip =>
          FinishUntouched(Skipped);
          NothingFailed(old(host.refused));
        case NothingNew =>
          FinishUntouched(Outcome.Unchanged);
          NothingFailed(old(host.refused));
        case Replace =>
          ReplaceGroup(images);
      }
    }

    lemma SmoothIsRecorded()
      requires Valid() && host.engine == plan.base
      ensures Smooth(plan) ==> AsRecorded(host.engine, state.entries)
      ensures |state.entries| == |plan.entries|
    {
      hide Safe, StepOk, Sound, ValidPlan;
    }

    lemma RecordedMatches()
      requires Valid() && host.engine == plan.base && AsRecorded(host.engine, state.entries)
      ensures Matches(plan)
    {
      hide Safe, StepOk, Sound, ValidPlan;
      forall i | 0 <= i < |plan.entries|
        ensures plan.entries[i].id in plan.base.containers && plan.base.containers[plan.entries[i].id] == plan.entries[i].was
      {
        assert state.entries[i].id == plan.entries[i].id;
      }
    }

    method FinishUntouched(outcome: Outcome)
      requires Valid() && host.saved == state && !state.mutated && (outcome == Skipped || outcome == Outcome.Unchanged)
      requires host.status == Active
      modifies host`calls, host`exits, host`saved, host`status, host`history, host`refused
      ensures Valid() && host.saved == state && old(host.history) <= host.history
      ensures host.status == Active || host.status == Finished(outcome)
      ensures Idle(host.history, |old(host.history)|, host.engine, host.saved)
      ensures FineFrom(old(host.calls)) ==> host.status == Finished(outcome)
      ensures Ended(old(host.calls)) && (host.refused == old(host.refused) || host.refused == Some(host.calls - 1))
    {
      hide StepOk, ValidPlan, Sound, Careful, Drift, Rest, Brief, AllUp, StillUp;
      var saved := SaveAgain();
      if !saved {
        return;
      }
      NowIsSafe();
      var _ := FinishJob(outcome);
    }

    method ReplaceGroup(images: seq<Resolution>)
      requires Valid() && host.status == Active && host.saved == state && !state.mutated
      requires host.engine == plan.base && |images| == |state.entries| && Matches(plan)
      requires forall x :: x in state.entries ==> !x.touched && x.newId.None?
      requires failing.None?
      modifies this`state, this`failing, host
      ensures Valid() && old(host.history) <= host.history
      ensures FineFrom(old(host.calls)) && BackupsFree(plan) && AllUp(plan, old(host.exits)) ==>
                host.status == Finished(Verified) && Replaced(host.engine, host.exits, host.seen, host.saved.entries)
      ensures BackupsFree(plan) && LosesCreateAfter(old(host.calls), 1 + TotalCalls(plan, 0)) ==>
                host.status == Finished(RecoveryRequired)
      ensures host.status == Finished(RolledBack) ==> host.engine.containers == plan.base.containers
      ensures HasTargets(state.entries, images)
      ensures Ended(old(host.calls))
      ensures Concluded(old(host.refused))
    {
      hide Valid, Traceable, Ended, Concluded, Passes, Patient, Safe, StepOk, ValidPlan, Sound, Replaced, HaltedFrom,
        CreatedUpTo, BackupsFree, NoneLost, Honest, TotalCalls, Drift, Fine, HasTargets, SamePlan, Rest, Brief, AllUp,
        StillUp;
      var step := AnnounceAndRetire(images);
      match step {
        case Abandon => Stopped(old(host.calls)); return;
        case Broken(expired) =>
          FineSoon(host.calls);
          ghost var m := host.calls;
          Fail(expired);
          EndedSince(old(host.calls), m);
          return;
        case Onward =>
      }
      ghost var s := state.entries;
      step := CreateCandidates();
      SameTargetsKept(s, state.entries, images);
      match step {
        case Abandon => Stopped(old(host.calls)); return;
        case Broken(expired) =>
          FineSoon(host.calls);
          ghost var m := host.calls;
          Fail(expired);
          EndedSince(old(host.calls), m);
          return;
        case Onward =>
      }
      ghost var m := host.calls;
      Conclude();
      EndedSince(old(host.calls), m);
    }

    /** Up to the point where every original is out of the way. */
    method AnnounceAndRetire(images: seq<Resolution>) returns (step: Step)
      requires Valid() && host.status == Active && host.saved == state && !state.mutated
      requires host.engine == plan.base && |images| == |state.entries| && Matches(plan)
      requires forall x :: x in state.entries ==> !x.touched && x.newId.None?
      modifies this`state, host`calls, host`engine, host`exits, host`saved, host`history, host`refused
      ensures Valid() && state.mutated && host.calls >= old(host.calls) && old(host.history) <= host.history
      ensures !step.Abandon? ==> Synced() && HaltedFrom(plan, host.engine, state.entries, 0)
      ensures step.Onward? ==> CreatedUpTo(plan, host.engine, host.seen, state.entries, 0)
      ensures HasTargets(state.entries, images)
      ensures FineFor(old(host.calls), 1 + TotalCalls(plan, 0)) && BackupsFree(plan) ==>
                step.Onward? && host.calls == old(host.calls) + 1 + TotalCalls(plan, 0)
      ensures FineFrom(old(host.calls)) && AllUp(plan, old(host.exits)) ==> AllUp(plan, host.exits)
      ensures step.Onward? ==> host.refused == old(host.refused)
      ensures step.Abandon? ==> host.refused == Some(host.calls - 1)
      ensures step.Broken? ==> Traceable(step.expired)
      ensures host.calls > old(host.calls)
    {
      hide Traceable, Passes, Patient, Safe, StepOk, ValidPlan, Sound, HaltedFrom, RetiredFrom, CreatedUpTo, BackupsFree,
        NoneLost, CandidatesAccounted, TotalCalls, Drift, Rest, Brief, AllUp, StillUp;
      FineExits(host.calls, host.engine, host.exits);
      var announced := Announce(images);
      if !announced {
        return Abandon;
      }
      ghost var s := state.entries;
      step := RetireOriginals();
      if step.Onward? {
        AllAreRetired(plan, host.engine, host.seen, state.entries);
      }
      SameTargetsKept(s, state.entries, images);
    }

    /** With every candidate brought up: save, verify, and complete or fail. */
    method Conclude()
      requires Valid() && Synced() && host.status == Active && CreatedUpTo(plan, host.engine, host.seen, state.entries, |order|)
      requires HaltedFrom(plan, host.engine, state.entries, 0)
      requires failing.None?
      modifies this`failing, host
      ensures Valid() && old(host.history) <= host.history
      ensures FineFrom(old(host.calls)) && AllUp(plan, old(host.exits)) ==>
                host.status == Finished(Verified) && Replaced(host.engine, host.exits, host.seen, host.saved.entries)
      ensures host.status == Finished(RolledBack) ==> host.engine.containers == plan.base.containers
      ensures Ended(old(host.calls))
      ensures Concluded(old(host.refused))
    {
      hide Valid, Traceable, Ended, Concluded, Passes, Patient, Safe, StepOk, ValidPlan, Sound, Replaced, LooksReplaced,
        EntryReplaced, HaltedFrom, CreatedUpTo, Honest, CandidatesAccounted, Drift, Fine, NoneLost, Rest, Brief, AllUp,
        StillUp;
      FineExits(host.calls, host.engine, host.exits);
      var saved := SaveAgain();
      if !saved {
        Stopped(old(host.calls));
        return;
      }
      NothingIsLost(Onward);
      FitsNow();
      NowAllCreated();
      var verified := Verify();
      if !verified {
        NowTraceable(false);
        ghost var m := host.calls;
        Fail(false);
        EndedSince(old(host.calls), m);
        return;
      }
      ghost var m := host.calls;
      var _ := Complete(Verified);
      EndedSince(old(host.calls), m);
      NothingFailed(old(host.refused));
    }

    lemma NowAllCreated()
      requires Valid() && Synced() && CreatedUpTo(plan, host.engine, host.seen, state.entries, |order|)
      ensures ExitsFit(host.engine, host.exits)
      ensures AllUp(plan, host.exits) ==> LooksReplaced(host.engine, Rest(host.engine, host.exits, Brief(plan)), state.entries)
    {
      hide CreatedUpTo, Sound;
      FitsNow();
      AllCreated(plan, host.engine, host.exits, host.seen, state.entries);
    }

    lemma FitsNow()
      requires Valid()
      ensures ExitsFit(host.engine, host.exits)
    {
      hide Sound, ValidPlan;
      NowIsSafe();
    }

    /** All calls from `n` on work, but the `m`-th takes effect unheard. */
    ghost predicate LosesCreateAfter(n: nat, m: nat) {
      && (forall k :: n <= k && k != n + m ==> Fine(host.script(k), Brief(plan)))
      && (forall k {:trigger Patient(host.script, k)} :: n <= k ==> Patient(host.script, k))
      && host.script(n + m).done && !host.script(n + m).heard && !host.script(n + m).expired
    }

    /** Records the resolved images and that the Engine is about to change. */
    method Announce(images: seq<Resolution>) returns (ok: bool)
      requires Valid() && host.status == Active && host.saved == state && !state.mutated
      requires host.engine == plan.base && |images| == |state.entries| && Matches(plan)
      requires forall x :: x in state.entries ==> !x.touched && x.newId.None?
      modifies this`state, host`calls, host`exits, host`saved, host`history, host`refused
      ensures Valid() && state.mutated && host.calls == old(host.calls) + 1 && old(host.history) <= host.history
      ensures FineAt(old(host.calls)) ==> host.exits == Rest(host.engine, old(host.exits), Brief(plan))
      ensures ok ==> Synced() && NoCandidates(plan, host.engine, state.entries)
      ensures host.exits == Drift(host.engine, old(host.exits), host.script(old(host.calls)))
      ensures FineAt(old(host.calls)) ==> ok
      ensures forall x :: x in state.entries ==> !x.touched
      ensures HasTargets(state.entries, images)
      ensures host.refused == if ok then old(host.refused) else Some(old(host.calls))
    {
      hide StepOk, ValidPlan, Sound, Matches, Careful, Drift, Rest, Brief, AllUp, StillUp;
      ghost var h, a := host.history, host.script(host.calls);
      Ages(h, a);
      FineExits(host.calls, host.engine, host.exits);
      ghost var w := Aged(host.Now(), a);
      var entries := state.entries;
      var resolved := seq(|images|, i requires 0 <= i < |images| && i < |entries| =>
        entries[i].(targetImage := images[i].image, wanted := images[i].config));
      state := Journal(resolved, true);
      ok := host.Save(state);
      if host.saved == state {
        MutationAnnounced(plan, w, resolved);
      } else {
        StayingIsSafe(plan, w);
      }
      Extends(h, a, host.Now());
    }

    // ---- After the worker is gone ----------------------------------------------

    /** `Reconcile` of the source, run on the saved journal of a lost worker. */
    method Reconcile() returns (ok: bool)
      requires Valid() && host.saved == state
      modifies host`calls, host`exits, host`seen, host`saved, host`status, host`history, host`refused
      ensures Valid() && host.saved == state && old(host.history) <= host.history
      ensures ok ==> Replaced(host.engine, host.exits, host.seen, state.entries) && host.status == Finished(Reconciled)
      ensures FineFrom(old(host.calls)) && old(host.status) == Active ==>
                (ok <==> state.mutated && LooksReplaced(host.engine, Rest(host.engine, old(host.exits), Brief(plan)), state.entries))
    {
      hide Safe, StepOk, ValidPlan, Sound, Replaced, LooksReplaced, Drift, Rest, Brief, AllUp, StillUp;
      if !state.mutated {
        return false;
      }
      ok := Verify();
      if ok {
        ok := Complete(Reconciled);
      }
    }

    /** `Cleanup` of the source: retained originals go only after verified success. */
    method Cleanup() returns (ok: bool)
      requires Valid() && host.saved == state
      modifies host`calls, host`engine, host`exits, host`seen, host`history
      ensures Valid() && old(host.history) <= host.history
      ensures OnlyOriginalsLeft(plan, old(host.engine), host.engine)
      ensures host.engine != old(host.engine) ==> Succeeded(host.status)
      ensures ok && Succeeded(host.status) ==>
                forall i :: 0 <= i < |state.entries| ==> state.entries[i].id !in host.engine.containers
      ensures FineFrom(old(host.calls)) && (forall i :: 0 <= i < |state.entries| ==> InPlace(old(host.engine), old(host.exits), state.entries[i])) ==> ok
    {
      hide InPlace, Fine, Patient, Consistent, Safe, StepOk, ValidPlan, Sound, SamePlan, Drift, OnlyOriginalsLeft, Rest, Brief, AllUp, StillUp;
      OriginalsLeave(host.engine, host.engine, host.engine, 0);
      if !Succeeded(host.status) {
        return true;
      }
      SuccessWasAnnounced();
      ghost var e0 := host.engine;
      for i := 0 to |state.entries|
        invariant Valid() && Synced() && host.calls >= old(host.calls) && Succeeded(host.status) && old(host.history) <= host.history
        invariant OnlyOriginalsLeft(plan, e0, host.engine)
        invariant forall k :: 0 <= k < i ==> state.entries[k].id !in host.engine.containers
        invariant FineFrom(old(host.calls)) ==>
                    StillUpIn(plan, host.engine, old(host.exits), host.exits)
      {
        ghost var e := host.engine;
        StillRetained(i, e0, old(host.exits));
        var gone := CleanupOne(i);
        OriginalsLeave(e0, e, host.engine, i);
        if !gone {
          return false;
        }
      }
      return true;
    }

    lemma StillRetained(i: nat, e0: State, x0: Exits)
      requires Valid() && Synced() && i < |state.entries| && OnlyOriginalsLeft(plan, e0, host.engine)
      ensures StillUpIn(plan, host.engine, x0, host.exits) && InPlace(e0, x0, state.entries[i]) ==>
                state.entries[i].id !in host.engine.containers || Retained(host.engine, host.exits, state.entries[i])
    {
      hide Sound, Brief, ValidPlan;
      OriginalIsUnknown(i);
      NowIsAccounted();
      BaseIsConsistent();
      OriginalsAreNotBrief(plan);
    }

    lemma BaseIsConsistent()
      requires Valid()
      ensures Consistent(plan.base)
    {
      hide Sound;
    }

    /** One retained original: gone already, or rechecked and removed. */
    method CleanupOne(i: nat) returns (ok: bool)
      requires Valid() && Synced() && Succeeded(host.status) && i < |state.entries|
      modifies host`calls, host`engine, host`exits, host`seen, host`history
      ensures Valid() && Synced() && host.calls >= old(host.calls) && old(host.history) <= host.history
      ensures host.engine == old(host.engine)
              || (state.entries[i].id in old(host.engine).containers && host.engine == Drop(old(host.engine), state.entries[i].id))
      ensures ok ==> state.entries[i].id !in host.engine.containers
      ensures FineFrom(old(host.calls)) ==>
                && StillUpIn(plan, host.engine, old(host.exits), host.exits)
                && (Retained(old(host.engine), old(host.exits), state.entries[i]) ==> ok)
                && (state.entries[i].id !in old(host.engine).containers ==> ok)
    {
      hide Safe, StepOk, ValidPlan, Sound, SamePlan, Drift, Consistent, ExitsFit, Rest, Brief, AllUp, StillUp;
      var target := state.entries[i];
      FineExits(host.calls, host.engine, host.exits);
      OriginalIsUnknown(i);
      if target.id in host.engine.containers {
        OriginalStillUp(i, host.engine, host.exits, Rest(host.engine, host.exits, Brief(plan)));
      }
      var inspected, _, _ := Look(target.id);
      if inspected.NotFound? {
        return true;
      }
      if inspected.Unavailable? {
        return false;
      }
      var actual := inspected.container;
      if actual.name != target.backup || actual.status.Running? || actual.image != target.was.image {
        return false;
      }
      var removed := RemoveOriginal(i);
      ok := removed.Done?;
    }

    /** `OnlyOriginalsLeft` grows with each removal. */
    lemma OriginalsLeave(e0: State, e1: State, e2: State, i: nat)
      requires Valid()
      ensures OnlyOriginalsLeft(plan, e0, e0)
      ensures OnlyOriginalsLeft(plan, e0, e1) && i < |state.entries| && (e2 == e1 || e2 == Drop(e1, state.entries[i].id)) ==>
                OnlyOriginalsLeft(plan, e0, e2)
    {
      hide Safe, StepOk, ValidPlan, Sound;
      if i < |state.entries| {
        IsOneOfThem(i);
      }
    }

    lemma SuccessWasAnnounced()
      requires Valid() && host.saved == state && Succeeded(host.status)
      ensures state.mutated
    {
      hide Careful, StepOk, Sound;
      NowIsSafe();
    }

    lemma IsOneOfThem(i: nat)
      requires Valid() && i < |state.entries|
      ensures IsOriginal(plan, state.entries[i].id)
    {
      hide Safe, StepOk, ValidPlan, Sound;
      assert plan.entries[i].id == state.entries[i].id;
    }

    method RemoveOriginal(i: nat) returns (r: Reply)
      requires Valid() && Synced() && Succeeded(host.status) && i < |state.entries|
      requires Retained(host.engine, host.exits, state.entries[i])
      modifies host`calls, host`engine, host`exits, host`history
      ensures Valid() && Synced() && host.calls == old(host.calls) + 1 && old(host.history) <= host.history
      ensures host.engine == old(host.engine) || host.engine == Drop(old(host.engine), state.entries[i].id)
      ensures r.Done? ==> host.engine == Drop(old(host.engine), state.entries[i].id)
      ensures FineAt(old(host.calls)) ==>
                && r.Done? && StillUpIn(plan, host.engine, old(host.exits), host.exits)
    {
      hide Safe, StepOk, ValidPlan, Sound, SamePlan, Drift, Honest, Rest, Brief, AllUp, StillUp;
      ghost var h, a := host.history, host.script(host.calls);
      Ages(h, a);
      FineExits(host.calls, host.engine, host.exits);
      ghost var w := Aged(host.Now(), a);
      r := host.Do(Remove(state.entries[i].id, false));
      if a.done {
        OriginalRemoved(plan, w, i, Settled(w.exits, Remove(state.entries[i].id, false)));
      } else {
        StayingIsSafe(plan, w);
      }
      StillUpWithout(plan, old(host.engine), old(host.exits), w.exits, state.entries[i].id);
      Extends(h, a, host.Now());
    }
  }

  /** What a look at the container shows: all of it, and the status it was left in or an exit since. */
  ghost predicate Shows(c: Container, seen: Container) {
    seen == c.(status := seen.status) && (seen.status == c.status || (c.status.Running? && seen.status.Exited?))
  }

  lemma SeenAsLeft(e: State, exits: Exits, id: Id)
    requires id in e.containers && ExitsFit(e, exits)
    ensures Shows(e.containers[id], Observed(e, exits, id))
  {
  }

  /** What a connection to a network does, and when it works. */
  lemma ConnectionMade(e: State, x: Exits, id: Id, network: string, endpoint: Endpoint, a: Answer)
    requires id in e.containers
    ensures var c, call := e.containers[id], Connect(id, network, endpoint);
            && (Effect(e, x, call, a) == e
                || Effect(e, x, call, a) == Put(e, id, c.(endpoints := c.endpoints[network := endpoint])))
            && (Response(e, x, call, a).Done? ==> Effect(e, x, call, a) == Put(e, id, c.(endpoints := c.endpoints[network := endpoint])))
            && (a.done && a.heard && network !in c.endpoints ==> Response(e, x, call, a).Done?)
            && Settled(x, call) == x
  {
  }

  lemma SeenLater(h0: seq<World<Journal>>, h1: seq<World<Journal>>, from: nat, x: Entry)
    requires h0 <= h1 && WasSeenReady(h0, from, x)
    ensures WasSeenReady(h1, from, x)
  {
    var k :| from <= k < |h0| && x.id in h0[k].seen && Accepted(x, h0[k].seen[x.id]);
    assert h1[k] == h0[k];
  }

  lemma SeenEarlier(h: seq<World<Journal>>, from: nat, later: nat, x: Entry)
    requires from <= later && WasSeenReady(h, later, x)
    ensures WasSeenReady(h, from, x)
  {
  }

  /** The old name is the container's own or free. */
  ghost predicate Restorable(e: State, x: Entry) {
    x.id in e.containers && (e.containers[x.id].name == x.was.name || !Taken(e, x.was.name))
  }

  /** While endpoints are being put back: renamed, nothing else changed, and all but `todo` are connected. */
  ghost predicate Reconnecting(x: Entry, before: Container, c: Container, todo: set<string>) {
    && c == before.(name := x.was.name, endpoints := c.endpoints)
    && (forall n :: n in c.endpoints <==> n in x.was.endpoints && (n in before.endpoints || n !in todo))
    && forall n :: n in c.endpoints ==> c.endpoints[n] == x.was.endpoints[n]
  }

  lemma ReconnectingStarts(x: Entry, c: Container)
    requires c.name == x.was.name
    requires forall n :: n in c.endpoints ==> n in x.was.endpoints && c.endpoints[n] == x.was.endpoints[n]
    ensures Reconnecting(x, c, c, x.was.endpoints.Keys)
  {
  }

  lemma ReconnectingContinues(x: Entry, before: Container, c: Container, todo: set<string>, network: string)
    requires Reconnecting(x, before, c, todo) && network in todo && network in x.was.endpoints
    ensures if network in before.endpoints then Reconnecting(x, before, c, todo - {network})
            else network !in c.endpoints
                 && Reconnecting(x, before, c.(endpoints := c.endpoints[network := x.was.endpoints[network]]), todo - {network})
  {
  }

  lemma ReconnectingEnds(x: Entry, before: Container, c: Container)
    requires Reconnecting(x, before, c, {}) && before.name == x.was.name
    ensures c == before.(endpoints := x.was.endpoints)
  {
  }

  lemma OnlyAtGrows(e0: State, e1: State, e2: State, id: Id)
    ensures OnlyAt(e0, e0, id)
    ensures OnlyAt(e0, e1, id) && (OnlyAt(e1, e2, id) || (id in e1.containers && exists c :: e2 == Put(e1, id, c))) ==> OnlyAt(e0, e2, id)
    ensures OnlyAt(e0, e2, id) ==> e2.containers.Keys == e0.containers.Keys
  {
  }

  /** Whether other members run does not depend on member `i`. */
  lemma KeepsNeighbours(p: Plan, e0: State, e1: State, s: seq<Entry>, i: nat)
    requires ValidPlan(p) && SamePlan(p, s) && i < |s| && OnlyAt(e0, e1, s[i].id)
    ensures NoDependantRuns(p, e0, s, i) ==> NoDependantRuns(p, e1, s, i)
    ensures DependenciesOfRun(p, e0, s, i) ==> DependenciesOfRun(p, e1, s, i)
  {
    NotOwnDependency(p, i);
    assert forall j :: 0 <= j < |s| && j != i ==> s[j].id != s[i].id;
  }

  /** Only known candidates may differ. */
  ghost predicate SameBut(e0: State, e1: State, s: seq<Entry>) {
    forall id :: !Known(s, id) ==>
                   (id in e0.containers <==> id in e1.containers) && (id in e0.containers ==> e1.containers[id] == e0.containers[id])
  }

  lemma OnlyKnownRemoved(e0: State, e: State, s: seq<Entry>)
    ensures SameBut(e0, e0, s)
    ensures forall id :: SameBut(e0, e, s) && Known(s, id) ==> SameBut(e0, Drop(e, id), s)
  {
  }

  ghost predicate RestoredUpTo(p: Plan, e: State, s: seq<Entry>, m: nat) {
    forall k :: 0 <= k < m && k < |p.order| && p.order[k] < |s| ==>
                  s[p.order[k]].id in e.containers && e.containers[s[p.order[k]].id] == s[p.order[k]].was
  }

  lemma OrderIndexes(p: Plan, s: seq<Entry>, k: nat)
    requires ValidPlan(p) && SamePlan(p, s) && k < |p.order|
    ensures p.order[k] < |s|
  {
    assert p.order[k] in p.order;
  }

  lemma OrderCovers(p: Plan, s: seq<Entry>, i: nat) returns (k: nat)
    requires ValidPlan(p) && SamePlan(p, s) && i < |s|
    ensures k < |p.order| && p.order[k] == i
  {
    assert i in p.order;
    k :| 0 <= k < |p.order| && p.order[k] == i;
  }

  /** Removing the known candidates leaves exactly the lost ones. */
  lemma LostSurvive(p: Plan, e0: State, e1: State, s: seq<Entry>)
    requires SameBut(e0, e1, s) && forall id :: id in e1.containers ==> !Known(s, id)
    ensures NoneLost(p, e0, s) <==> forall id :: id in e1.containers ==> id in p.base.containers
  {
    forall id ensures Unsaved(p, e0, s, id) <==> id in e1.containers && id !in p.base.containers {
    }
    if forall id :: id in e1.containers ==> id in p.base.containers {
      forall id ensures !Unsaved(p, e0, s, id) {
      }
    } else {
      var id :| id in e1.containers && id !in p.base.containers;
      assert Unsaved(p, e0, s, id);
    }
  }

  lemma RestorationAdvances(p: Plan, e0: State, e1: State, s: seq<Entry>, m: nat)
    requires ValidPlan(p) && SamePlan(p, s) && m < |p.order| && p.order[m] < |s|
    requires HaltedFrom(p, e0, s, m) && RestoredUpTo(p, e0, s, m)
    requires OnlyAt(e0, e1, s[p.order[m]].id)
    requires s[p.order[m]].id in e1.containers && e1.containers[s[p.order[m]].id] == s[p.order[m]].was
    ensures HaltedFrom(p, e1, s, m + 1) && RestoredUpTo(p, e1, s, m + 1)
  {
    assert forall k :: 0 <= k < |p.order| && k != m && p.order[k] < |s| ==> s[p.order[k]].id != s[p.order[m]].id;
  }

  ghost predicate SameTargets(s0: seq<Entry>, s1: seq<Entry>) {
    |s0| == |s1| && forall i :: 0 <= i < |s0| ==> s1[i] == s0[i].(touched := s1[i].touched, newId := s1[i].newId)
  }

  ghost predicate NoCandidates(p: Plan, e: State, s: seq<Entry>) {
    && e.containers.Keys == p.base.containers.Keys && e.next == p.base.next
    && forall i :: 0 <= i < |s| ==> s[i].newId.None?
  }

  /** No endpoint is left but the one that stands for none. */
  ghost predicate Detached(x: Entry, c: Container) {
    forall n :: n in x.was.endpoints && n != "none" ==> n !in c.endpoints
  }

  ghost predicate Retired(e: State, x: Entry) {
    x.touched && x.id in e.containers && e.containers[x.id].name == x.backup && !e.containers[x.id].status.Running?
    && e.containers[x.id].image == x.was.image && e.containers[x.id].config == x.was.config
    && Detached(x, e.containers[x.id])
  }

  lemma NowRetired(e: State, x: Entry)
    requires x.touched && x.id in e.containers && Detached(x, e.containers[x.id])
    requires var c := e.containers[x.id];
             c == x.was.(name := x.backup, status := c.status, endpoints := c.endpoints) && !c.status.Running?
    ensures Retired(e, x)
  {
  }

  /** While endpoints are taken away: nothing else changed, and what is not in `todo` is gone. */
  ghost predicate Detaching(x: Entry, before: Container, c: Container, todo: set<string>) {
    && c == before.(endpoints := c.endpoints)
    && (forall n :: n in x.was.endpoints && n !in todo && n != "none" ==> n !in c.endpoints)
    && forall n :: n in todo && n in before.endpoints ==> n in c.endpoints
  }

  lemma DetachingContinues(x: Entry, before: Container, c: Container, todo: set<string>, network: string)
    requires Detaching(x, before, c, todo) && network in todo
    ensures if network == "none" then
              Detaching(x, before, c, todo - {network}) && Connections(todo - {network}) == Connections(todo)
            else
              && Detaching(x, before, c.(endpoints := c.endpoints - {network}), todo - {network})
              && Connections(todo - {network}) == Connections(todo) - 1
              && (network in before.endpoints ==> network in c.endpoints)
  {
    if network == "none" {
      assert todo - {network} - {"none"} == todo - {"none"};
    } else {
      assert todo - {"none"} == (todo - {network} - {"none"}) + {network};
    }
  }

  lemma DetachingOnlyDetaches(x: Entry, before: Container, now: Container, c: Container, todo: set<string>, network: string)
    requires Detaching(x, before, c, todo) && (now == c || now == c.(endpoints := c.endpoints - {network}))
    ensures now == before.(endpoints := now.endpoints)
  {
  }

  ghost predicate OnlyDetached(x: Entry, e0: State, e: State) {
    && x.id in e0.containers && x.id in e.containers && OnlyAt(e0, e, x.id)
    && e.containers[x.id] == e0.containers[x.id].(endpoints := e.containers[x.id].endpoints)
  }

  ghost predicate MidDetach(x: Entry, e0: State, e: State, todo: set<string>) {
    && x.id in e0.containers && x.id in e.containers && OnlyAt(e0, e, x.id)
    && Detaching(x, e0.containers[x.id], e.containers[x.id], todo)
  }

  lemma MidDetachStarts(x: Entry, e: State)
    requires x.id in e.containers
    ensures MidDetach(x, e, e, x.was.endpoints.Keys)
  {
  }

  lemma MidDetachEnds(x: Entry, e0: State, e: State)
    requires MidDetach(x, e0, e, {})
    ensures OnlyDetached(x, e0, e) && Detached(x, e.containers[x.id])
  {
  }

  // The calls that retiring takes, when all of them work.

  /** How many of these are networks to disconnect from. */
  function Connections(names: set<string>): nat { |names - {"none"}| }

  lemma NoConnections()
    ensures Connections({}) == 0
  {
  }

  function Networks(x: Entry): nat { Connections(x.was.endpoints.Keys) }

  function DisplaceCalls(x: Entry): nat { (if x.was.status.Running? then 1 else 0) + 1 + Networks(x) }

  function RetireCalls(x: Entry): nat { 1 + DisplaceCalls(x) }

  function TotalCalls(p: Plan, k: nat): nat
    decreases |p.order| - k
  {
    if k >= |p.order| then 0
    else TotalCalls(p, k + 1) + if p.order[k] < |p.entries| then RetireCalls(p.entries[p.order[k]]) else 0
  }

  lemma {:induction false} TotalFalls(p: Plan, j: nat, k: nat)
    requires j <= k
    ensures TotalCalls(p, k) <= TotalCalls(p, j)
    decreases k - j
  {
    hide RetireCalls;
    if j < k {
      TotalFalls(p, j + 1, k);
    }
  }

  ghost predicate RetiredFrom(p: Plan, e: State, s: seq<Entry>, k: nat) {
    && (forall j :: k <= j < |p.order| && p.order[j] < |s| ==> Retired(e, s[p.order[j]]))
    && (forall j :: 0 <= j < k && j < |p.order| && p.order[j] < |s| ==> !s[p.order[j]].touched)
  }

  /** The recovery names are new and differ from each other. */
  ghost predicate BackupsFree(p: Plan) {
    && (forall i :: 0 <= i < |p.entries| ==> !Taken(p.base, p.entries[i].backup))
    && forall i, j :: 0 <= i < j < |p.entries| ==> p.entries[i].backup != p.entries[j].backup
  }

  ghost predicate Retiring(p: Plan, e: State, s: seq<Entry>, k: nat) {
    && (forall j :: k < j < |p.order| && p.order[j] < |s| ==> Retired(e, s[p.order[j]]))
    && (forall j :: 0 <= j < k && j < |p.order| && p.order[j] < |s| ==> !s[p.order[j]].touched)
  }

  lemma UntouchedBelow(p: Plan, e: State, s: seq<Entry>, k: nat)
    requires RetiredFrom(p, e, s, k + 1) && k < |p.order| && p.order[k] < |s|
    ensures !s[p.order[k]].touched
  {
  }

  lemma TouchRetires(p: Plan, e: State, s: seq<Entry>, k: nat)
    requires ValidPlan(p) && SamePlan(p, s) && k < |p.order| && p.order[k] < |s| && RetiredFrom(p, e, s, k + 1)
    ensures Retiring(p, e, s[p.order[k] := s[p.order[k]].(touched := true)], k)
    ensures NoCandidates(p, e, s) ==> NoCandidates(p, e, s[p.order[k] := s[p.order[k]].(touched := true)])
  {
  }

  lemma RetiringHalts(p: Plan, e0: State, e1: State, s: seq<Entry>, k: nat)
    requires ValidPlan(p) && SamePlan(p, s) && k < |p.order| && p.order[k] < |s|
    requires Retiring(p, e0, s, k) && NoCandidates(p, e0, s) && OnlyAt(e0, e1, s[p.order[k]].id)
    ensures Retiring(p, e1, s, k) && NoCandidates(p, e1, s) && HaltedFrom(p, e1, s, 0)
    ensures s[p.order[k]].id in e1.containers && Retired(e1, s[p.order[k]]) ==> RetiredFrom(p, e1, s, k)
  {
    assert forall j :: 0 <= j < |p.order| && j != k && p.order[j] < |s| ==> s[p.order[j]].id != s[p.order[k]].id;
  }

  lemma LooksAdd(seen0: map<Id, Observation>, seen1: map<Id, Observation>, seen2: map<Id, Observation>, id: Id)
    ensures LookedAt(seen0, seen0, id)
    ensures LookedAt(seen0, seen1, id) && LookedAt(seen1, seen2, id) ==> LookedAt(seen0, seen2, id)
  {
  }

  lemma LookedElsewhere(seen0: map<Id, Observation>, seen1: map<Id, Observation>, id: Id)
    requires LookedAt(seen0, seen1, id)
    ensures forall y :: y != id ==> (y in seen0 <==> y in seen1) && (y in seen0 ==> seen1[y] == seen0[y])
  {
  }

  ghost predicate RecordedAt(e: State, x: Entry) {
    x.id in e.containers && e.containers[x.id] == x.was
  }

  /** The originals are as the snapshot recorded them. */
  ghost predicate AsRecorded(e: State, s: seq<Entry>) {
    forall i :: 0 <= i < |s| ==> RecordedAt(e, s[i])
  }

  /** No call has stopped the container since it was started. */
  ghost predicate LeftRunning(e: State, id: Id) {
    id in e.containers && e.containers[id].status.Running?
  }

  ghost predicate AllRetired(e: State, s: seq<Entry>) {
    forall i :: 0 <= i < |s| ==> Retired(e, s[i])
  }

  /** The candidate is there as wanted, was left running or stopped as wanted, and has been seen ready. */
  ghost predicate BroughtUp(e: State, seen: map<Id, Observation>, x: Entry) {
    && CandidateExists(e, x) && SeenReady(seen, x)
    && if x.oneShot then LeftRunning(e, x.newId.value) else ReadyStatus(x, e.containers[x.newId.value].status)
  }

  /** The first `m` candidates got their identities in order. */
  ghost predicate InOrder(p: Plan, e: State, s: seq<Entry>, m: nat) {
    && e.next == p.base.next + m
    && forall k :: 0 <= k < m && k < |p.order| && p.order[k] < |s| ==> s[p.order[k]].newId == Some(p.base.next + k)
  }

  /** Positions below `m` are brought up, the others have no candidate yet. */
  ghost predicate CreatedUpTo(p: Plan, e: State, seen: map<Id, Observation>, s: seq<Entry>, m: nat) {
    && AllRetired(e, s) && NoneLost(p, e, s) && InOrder(p, e, s, m)
    && (forall k :: 0 <= k < m && k < |p.order| && p.order[k] < |s| ==> BroughtUp(e, seen, s[p.order[k]]))
    && (forall k :: m <= k < |p.order| && p.order[k] < |s| ==> s[p.order[k]].newId.None?)
  }

  /** Position `m` has a candidate that is not known to be ready. */
  ghost predicate CreatingAt(p: Plan, e: State, seen: map<Id, Observation>, s: seq<Entry>, m: nat) {
    && AllRetired(e, s) && NoneLost(p, e, s) && InOrder(p, e, s, m + 1)
    && m < |p.order| && p.order[m] < |s|
    && (forall k :: 0 <= k < m && p.order[k] < |s| ==> BroughtUp(e, seen, s[p.order[k]]))
    && (forall k :: m < k < |p.order| && p.order[k] < |s| ==> s[p.order[k]].newId.None?)
    && CandidateExists(e, s[p.order[m]])
  }

  ghost predicate CandidateExists(e: State, x: Entry) {
    && x.newId.Some? && x.newId.value in e.containers
    && e.containers[x.newId.value] ==
       Container(x.was.name, x.targetImage, x.wanted, x.was.endpoints, e.containers[x.newId.value].status)
  }

  lemma CreatedIsHalted(p: Plan, e0: State, e1: State, seen: map<Id, Observation>, s: seq<Entry>, m: nat)
    requires CreatedUpTo(p, e0, seen, s, m)
    requires forall x :: x in e0.containers ==> x in e1.containers && e1.containers[x] == e0.containers[x]
    ensures HaltedFrom(p, e1, s, 0)
  {
    assert forall i :: 0 <= i < |s| ==> Retired(e0, s[i]);
  }

  lemma CreatingHalts(p: Plan, e: State, seen: map<Id, Observation>, s: seq<Entry>, m: nat)
    requires CreatingAt(p, e, seen, s, m)
    ensures HaltedFrom(p, e, s, 0)
    ensures m < |p.order| && p.order[m] < |s| && CandidateExists(e, s[p.order[m]])
  {
  }

  /** A created container whose identity nobody learnt. */
  lemma CreatedIsLost(p: Plan, e0: State, e1: State, s: seq<Entry>)
    requires Consistent(e0) && p.base.next <= e0.next && ValidPlan(p) && NoneLost(p, e0, s)
    requires CandidatesAccounted(p, e0, s)
    requires e0.next in e1.containers
    ensures !NoneLost(p, e1, s)
  {
    assert Unsaved(p, e1, s, e0.next);
  }

  /** The journal learns the identity of the candidate just created. */
  lemma CreationAdvances(p: Plan, e0: State, seen: map<Id, Observation>, s: seq<Entry>, m: nat)
    requires ValidPlan(p) && SamePlan(p, s) && m < |p.order| && p.order[m] < |s|
    requires CreatedUpTo(p, e0, seen, s, m) && CandidatesAccounted(p, e0, s)
    requires Consistent(e0) && p.base.next <= e0.next
    ensures var i := p.order[m];
            var c := Container(s[i].was.name, s[i].targetImage, s[i].wanted, s[i].was.endpoints, Status.Created);
            var s1 := s[i := s[i].(newId := Some(e0.next))];
            var e1 := State(e0.containers[e0.next := c], e0.next + 1);
            SamePlan(p, s1) && CandidatesAccounted(p, e1, s1) && CreatingAt(p, e1, seen, s1, m)
  {
    hide Consistent, AllRetired, NoneLost, CandidatesAccounted, SamePlan, ValidPlan, CreatingAt, BroughtUp;
    var i := p.order[m];
    var c := Container(s[i].was.name, s[i].targetImage, s[i].wanted, s[i].was.endpoints, Status.Created);
    var s1 := s[i := s[i].(newId := Some(e0.next))];
    var e1 := State(e0.containers[e0.next := c], e0.next + 1);
    NewIdentityKnown(p, e0, s, i, c);
    OwnIdentityIsNew(e0);
    CreationExtends(p, e0, e1, seen, s, s1, m);
  }

  /** Everything but the accounts: retired originals, earlier candidates and the new one. */
  lemma CreationExtends(p: Plan, e0: State, e1: State, seen: map<Id, Observation>, s: seq<Entry>, s1: seq<Entry>, m: nat)
    requires ValidPlan(p) && SamePlan(p, s) && m < |p.order| && p.order[m] < |s|
    requires CreatedUpTo(p, e0, seen, s, m) && NoneLost(p, e1, s1)
    requires |s1| == |s| && s1 == s[p.order[m] := s[p.order[m]].(newId := s1[p.order[m]].newId)]
    requires CandidateExists(e1, s1[p.order[m]]) && s1[p.order[m]].newId == Some(e0.next) && e1.next == e0.next + 1
    requires forall x :: x in e0.containers ==> x in e1.containers && e1.containers[x] == e0.containers[x]
    ensures SamePlan(p, s1) && CreatingAt(p, e1, seen, s1, m)
  {
    hide Consistent, NoneLost, DependsOn;
    forall j | 0 <= j < |s| ensures Retired(e1, s1[j]) {
      assert Retired(e0, s[j]);
    }
    forall k | 0 <= k < |p.order| && k != m && p.order[k] < |s| ensures s1[p.order[k]] == s[p.order[k]] {
      assert p.order[k] != p.order[m];
    }
    forall k | 0 <= k < m && p.order[k] < |s| ensures BroughtUp(e1, seen, s1[p.order[k]]) {
      assert BroughtUp(e0, seen, s[p.order[k]]);
    }
  }

  lemma OwnIdentityIsNew(e: State)
    requires Consistent(e)
    ensures e.next !in e.containers
  {
  }

  lemma NewIdentityKnown(p: Plan, e0: State, s: seq<Entry>, i: nat, c: Container)
    requires i < |s| && s[i].newId.None? && c.name == s[i].was.name
    requires NoneLost(p, e0, s) && CandidatesAccounted(p, e0, s) && p.base.next <= e0.next
    ensures var s1 := s[i := s[i].(newId := Some(e0.next))];
            var e1 := State(e0.containers[e0.next := c], e0.next + 1);
            NoneLost(p, e1, s1) && CandidatesAccounted(p, e1, s1)
  {
    var s1 := s[i := s[i].(newId := Some(e0.next))];
    var e1 := State(e0.containers[e0.next := c], e0.next + 1);
    assert s1[i].newId == Some(e0.next);
    forall x: Id | Known(s, x) ensures Known(s1, x) {
      var k :| 0 <= k < |s| && s[k].newId == Some(x);
      assert s1[k].newId == Some(x);
    }
    forall x ensures !Unsaved(p, e1, s1, x) {
      assert !Unsaved(p, e0, s, x);
    }
    forall x | x in e1.containers && x !in p.base.containers
      ensures x >= p.base.next && exists k :: CandidateOf(s1, k, x, e1.containers[x])
    {
      if x == e0.next {
        assert CandidateOf(s1, i, x, e1.containers[x]);
      } else {
        assert !Unsaved(p, e0, s, x);
        var j :| 0 <= j < |s| && s[j].newId == Some(x);
        assert CandidateOf(s1, j, x, e1.containers[x]);
      }
    }
  }

  lemma DependenciesAreUp(p: Plan, e: State, seen: map<Id, Observation>, s: seq<Entry>, m: nat)
    requires ValidPlan(p) && SamePlan(p, s) && CreatingAt(p, e, seen, s, m)
    ensures DependenciesReady(p, seen, s, p.order[m])
  {
    hide DependsOn;
    forall d | 0 <= d < |s| && DependsOn(p.labels, p.order[m], d) ensures SeenReady(seen, s[d]) {
      var k := OrderCovers(p, s, d);
      if m <= k {
        GroupDependenciesAreEarlier(p.labels, |p.entries|, p.order, m, k);
      } else {
        assert BroughtUp(e, seen, s[p.order[k]]);
      }
    }
  }

  /** Only the status of the candidate at position `m` changes while it is brought up. */
  lemma CreatingContinues(p: Plan, e0: State, e1: State, seen: map<Id, Observation>, s: seq<Entry>, m: nat)
    requires ValidPlan(p) && SamePlan(p, s) && Matches(p) && CreatingAt(p, e0, seen, s, m) && CandidatesAccounted(p, e0, s)
    requires OnlyAt(e0, e1, s[p.order[m]].newId.value)
    requires e1.containers[s[p.order[m]].newId.value] ==
             e0.containers[s[p.order[m]].newId.value].(status := e1.containers[s[p.order[m]].newId.value].status)
    ensures CreatingAt(p, e1, seen, s, m)
  {
    var id := s[p.order[m]].newId.value;
    forall i | 0 <= i < |s| ensures s[i].id != id && Retired(e1, s[i]) {
      OriginalIsNotCandidate(p, e0, s, i, p.order[m]);
      assert Retired(e0, s[i]);
    }
    forall k | 0 <= k < m && p.order[k] < |s| ensures BroughtUp(e1, seen, s[p.order[k]]) {
      assert BroughtUp(e0, seen, s[p.order[k]]);
      assert p.order[k] != p.order[m] && s[p.order[k]].newId != s[p.order[m]].newId;
    }
    forall x ensures !Unsaved(p, e1, s, x) {
      assert !Unsaved(p, e0, s, x);
    }
  }

  /** Looking at the candidate at position `m` is no look at the earlier ones. */
  lemma LookingContinues(p: Plan, e: State, seen0: map<Id, Observation>, seen1: map<Id, Observation>, s: seq<Entry>, m: nat)
    requires ValidPlan(p) && SamePlan(p, s) && CreatingAt(p, e, seen0, s, m) && CandidatesAccounted(p, e, s)
    requires LookedAt(seen0, seen1, s[p.order[m]].newId.value)
    ensures CreatingAt(p, e, seen1, s, m)
  {
    forall k | 0 <= k < m && p.order[k] < |s| ensures BroughtUp(e, seen1, s[p.order[k]]) {
      assert BroughtUp(e, seen0, s[p.order[k]]);
      assert p.order[k] != p.order[m] && s[p.order[k]].newId != s[p.order[m]].newId;
    }
  }

  lemma OriginalIsNotCandidate(p: Plan, e: State, s: seq<Entry>, i: nat, j: nat)
    requires ValidPlan(p) && SamePlan(p, s) && Matches(p) && CandidatesAccounted(p, e, s)
    requires i < |s| && j < |s| && s[j].newId.Some?
    ensures s[i].id != s[j].newId.value
  {
    assert p.entries[i].id in p.base.containers;
  }

  lemma CreatingEnds(p: Plan, e: State, seen: map<Id, Observation>, s: seq<Entry>, m: nat)
    requires ValidPlan(p) && SamePlan(p, s) && CreatingAt(p, e, seen, s, m) && BroughtUp(e, seen, s[p.order[m]])
    ensures CreatedUpTo(p, e, seen, s, m + 1)
  {
  }

  /** With all candidates brought up the group is in place, and nothing but unexpected exits stands between it and success. */
  lemma AllCreated(p: Plan, e: State, exits: Exits, seen: map<Id, Observation>, s: seq<Entry>)
    requires ValidPlan(p) && SamePlan(p, s) && CreatedUpTo(p, e, seen, s, |p.order|) && ExitsFit(e, exits)
    ensures forall i :: 0 <= i < |s| ==> EntryReplaced(e, exits, seen, s[i])
    ensures AllUp(p, exits) ==> LooksReplaced(e, Rest(e, exits, Brief(p)), s)
  {
    hide ValidPlan, AllUp, Rest, Brief, BroughtUp, Retired, EntryReplaced, EntryLooksReplaced, ExitsFit;
    forall i | 0 <= i < |s|
      ensures EntryReplaced(e, exits, seen, s[i])
      ensures AllUp(p, exits) ==> EntryLooksReplaced(e, Rest(e, exits, Brief(p)), s[i])
    {
      var k := OrderCovers(p, s, i);
      EntryCreated(p, e, exits, seen, s, k);
    }
  }

  lemma EntryCreated(p: Plan, e: State, exits: Exits, seen: map<Id, Observation>, s: seq<Entry>, k: nat)
    requires SamePlan(p, s) && k < |p.order| && p.order[k] < |s| && s[p.order[k]].newId == Some(p.base.next + k)
    requires Retired(e, s[p.order[k]]) && BroughtUp(e, seen, s[p.order[k]]) && ExitsFit(e, exits)
    ensures EntryReplaced(e, exits, seen, s[p.order[k]])
    ensures AllUp(p, exits) ==> EntryLooksReplaced(e, Rest(e, exits, Brief(p)), s[p.order[k]])
  {
    hide Brief;
    BriefAtPosition(p, k);
  }

  /** What is started becomes ready: one-shots by ending, the others by staying up. */
  lemma WaitingEnds(p: Plan, e: State, exits: Exits, seen: map<Id, Observation>, s: seq<Entry>, m: nat)
    requires SamePlan(p, s) && CreatingAt(p, e, seen, s, m)
    requires WillBeReady(e, exits, s[p.order[m]], s[p.order[m]].newId.value)
    ensures IsReady(e, Rest(e, exits, Brief(p)), s[p.order[m]], s[p.order[m]].newId.value)
  {
    BriefAtPosition(p, m);
  }

  lemma BriefAtPosition(p: Plan, k: nat)
    requires k < |p.order| && p.order[k] < |p.entries|
    ensures p.base.next + k in Brief(p) <==> p.entries[p.order[k]].oneShot
  {
  }

  /** What looks as it was left, was left so; what looks running, was left running. */
  lemma LeftAsSeen(e: State, exits: Exits, id: Id)
    requires id in e.containers
    ensures Observed(e, exits, id).status.Running? ==> e.containers[id].status.Running?
  {
  }

  lemma NotReplaced(e: State, exits: Exits, x: Entry)
    requires x.newId.None?
    ensures !EntryLooksReplaced(e, exits, x)
  {
  }

  lemma InPlaceAges(e: State, exits0: Exits, exits1: Exits, x: Entry)
    requires forall id :: id in exits0 ==> id in exits1
    ensures InPlace(e, exits0, x) ==> InPlace(e, exits1, x)
  {
  }

  /** Exits leave a replaced group replaced. */
  lemma ReplacedAges(e: State, exits: Exits, seen: map<Id, Observation>, s: seq<Entry>)
    ensures forall a :: Replaced(e, exits, seen, s) ==> Replaced(e, Drift(e, exits, a), seen, s)
  {
  }

  lemma AllAreRetired(p: Plan, e: State, seen: map<Id, Observation>, s: seq<Entry>)
    requires ValidPlan(p) && SamePlan(p, s) && RetiredFrom(p, e, s, 0) && NoCandidates(p, e, s)
    ensures CreatedUpTo(p, e, seen, s, 0)
  {
    forall i | 0 <= i < |s| ensures Retired(e, s[i]) {
      var k := OrderCovers(p, s, i);
    }
    forall x ensures !Unsaved(p, e, s, x) {
      assert x in e.containers <==> x in p.base.containers;
    }
  }

  /** An unchanged group with free recovery names. */
  ghost predicate Smooth(p: Plan) {
    Matches(p) && BackupsFree(p)
  }

  ghost predicate HasTargets(s: seq<Entry>, images: seq<Resolution>) {
    |s| == |images| && forall i :: 0 <= i < |s| ==> s[i].targetImage == images[i].image && s[i].wanted == images[i].config
  }

  /** Containers are unchanged or gone, and only originals are gone. */
  ghost predicate OnlyOriginalsLeft(p: Plan, e0: State, e1: State) {
    && (forall id :: id in e1.containers ==> id in e0.containers && e1.containers[id] == e0.containers[id])
    && forall id :: id in e0.containers && id !in e1.containers ==> IsOriginal(p, id)
  }

  lemma IdentityKeepsTargets(s: seq<Entry>, i: nat, newId: Option<Id>)
    requires i < |s|
    ensures SameTargets(s, s) && SameTargets(s, s[i := s[i].(newId := newId)])
  {
  }

  lemma SameTargetsKept(s0: seq<Entry>, s1: seq<Entry>, images: seq<Resolution>)
    requires SameTargets(s0, s1)
    ensures HasTargets(s0, images) ==> HasTargets(s1, images)
  {
  }

  /** The original is stopped under its recovery name, and is the one that was kept. */
  ghost predicate Retained(e: State, exits: Exits, x: Entry) {
    x.id in e.containers && e.containers[x.id].name == x.backup && !Runs(e, exits, x.id) && e.containers[x.id].image == x.was.image
  }

  // ---- A job from submission to cleanup --------------------------------------------------

  /** When a process is lost: never, or after so many steps. */
  datatype Loss = Never | After(steps: nat)

  /** A process that serves the job for a while: what it is answered, and when it is lost. */
  datatype Service = Service(script: nat -> Answer, loss: Loss)

  /** The process is never lost, all its calls work, and containers become ready in time. */
  ghost predicate Works(service: Service, plan: Plan) {
    && service.loss.Never?
    && (forall k :: Fine(service.script(k), Brief(plan)))
    && forall k {:trigger Patient(service.script, k)} :: Patient(service.script, k)
  }

  function LengthLeft(before: nat, h: nat, loss: Loss): nat {
    if loss.After? && before + loss.steps < h then before + loss.steps else h
  }

  /** What is left when a process that began at `before` is lost. */
  method Lose(before: seq<World<Journal>>, h: seq<World<Journal>>, loss: Loss, ghost plan: Plan) returns (past: seq<World<Journal>>)
    requires 0 < |before| && before <= h && Sound(plan, h)
    ensures before <= past <= h && Sound(plan, past)
    ensures past == h[..LengthLeft(|before|, |h|, loss)]
  {
    var k := LengthLeft(|before|, |h|, loss);
    SoundPrefix(plan, h, k);
    past := h[..k];
  }

  /**
   * A whole job: a worker that is lost at any step, any number of processes that reconcile and are lost
   * at any step, and any number that clean up. All worlds there ever were are safe, all steps justified;
   * no original that existed is ever gone unless its whole group had been replaced before, and a recorded
   * success was true.
   */
  method WholeJob(plan: Plan, entries: seq<Entry>, verdict: Verdict, images: seq<Resolution>,
                  first: Service, reconcilers: seq<Service>, cleaners: seq<Service>)
    returns (h: seq<World<Journal>>)
    requires ValidPlan(plan) && SamePlan(plan, entries) && |images| == |entries|
    requires forall x :: x in entries ==> !x.touched && x.newId.None?
    ensures Sound(plan, h) && |h| > 0 && h[0] == World(plan.base, map[], Journal(entries, false), Active, map[])
    ensures forall k, i :: 0 <= k < |h| && 0 <= i < |plan.entries| && Gone(plan, h[k], plan.entries[i].id) ==> WasReplaced(h, k)
    ensures forall k :: 0 <= k < |h| && Succeeded(h[k].status) ==> WasReplaced(h, k)
    ensures Works(first, plan) && verdict.Replace? && Smooth(plan) ==> WasVerified(h)
  {
    hide Smooth, WasVerified, AllUp, Fine, Patient, Sound, Safe, StepOk, ValidPlan, SamePlan, Consistent;
    var host := new Host(first.script, plan.base, Journal(entries, false), Active) by {
      PlanIsConsistent(plan);
    }
    StartIsSound(plan, entries);
    var start := host.Now();
    var worker := new Worker(host, plan.order, host.saved, plan);
    WorkingIsFine(worker, first);
    worker.Execute(verdict, images);
    h := Lose([start], host.history, first.loss, plan);
    PossiblePrefix(host, h);
    if Works(first, plan) && verdict.Replace? && Smooth(plan) {
      NowVerified(host, h, first);
    }
    for n := 0 to |reconcilers| + |cleaners|
      invariant 0 < |h| && Sound(plan, h) && h[0] == start
      invariant forall k :: 0 <= k < |h| ==> Possible(h[k])
      invariant Works(first, plan) && verdict.Replace? && Smooth(plan) ==> WasVerified(h)
    {
      ghost var past := h;
      h := Serve(plan, if n < |reconcilers| then reconcilers[n] else cleaners[n - |reconcilers|], n < |reconcilers|, h);
      VerifiedLater(past, h);
    }
    NothingWasLost(plan, h);
  }

  /** One process that reconciles or cleans up what is left of the job. */
  method Serve(plan: Plan, service: Service, reconciles: bool, past: seq<World<Journal>>) returns (h: seq<World<Journal>>)
    requires ValidPlan(plan) && 0 < |past| && Sound(plan, past) && forall k :: 0 <= k < |past| ==> Possible(past[k])
    ensures past <= h && Sound(plan, h) && forall k :: 0 <= k < |h| ==> Possible(h[k])
    ensures var w := past[|past| - 1];
            Works(service, plan) && reconciles && w.status == Active && w.saved.mutated
            && LooksReplaced(w.engine, Rest(w.engine, w.exits, Brief(plan)), w.saved.entries) ==>
              h[|h| - 1].status == Finished(Reconciled)
    ensures var w := past[|past| - 1];
            Works(service, plan) && !reconciles && Succeeded(w.status)
            && (forall i :: 0 <= i < |w.saved.entries| ==> InPlace(w.engine, w.exits, w.saved.entries[i])) ==>
              forall i :: 0 <= i < |w.saved.entries| ==> w.saved.entries[i].id !in h[|h| - 1].engine.containers
  {
    hide Fine, Patient, Brief, Rest, LooksReplaced, Replaced, InPlace, Sound, Safe, StepOk, ValidPlan, SamePlan, Consistent;
    var host := new Host.After(service.script, past);
    var worker := new Worker(host, plan.order, host.saved, plan);
    SavedIsPlan(plan, past);
    WorkingIsFine(worker, service);
    if reconciles {
      var _ := worker.Reconcile();
    } else {
      var _ := worker.Cleanup();
    }
    h := Lose(past, host.history, service.loss, plan);
    PossiblePrefix(host, h);
  }

  ghost predicate Gone(plan: Plan, w: World<Journal>, id: Id) {
    id in plan.base.containers && id !in w.engine.containers
  }

  ghost predicate WasVerified(h: seq<World<Journal>>) {
    exists k :: 0 <= k < |h| && h[k].status == Finished(Verified)
  }

  lemma WorkingIsFine(worker: Worker, service: Service)
    requires worker.host.script == service.script
    ensures Works(service, worker.plan) ==> worker.FineFrom(0)
    ensures AllUp(worker.plan, map[])
  {
    hide Fine, Patient, Brief;
  }

  lemma NowVerified(host: Host<Journal>, h: seq<World<Journal>>, service: Service)
    requires host.Valid() && host.status == Finished(Verified) && service.loss.Never? && h == host.history
    ensures WasVerified(h)
  {
    assert h[|h| - 1] == host.Now();
  }

  lemma VerifiedLater(past: seq<World<Journal>>, h: seq<World<Journal>>)
    requires past <= h
    ensures WasVerified(past) ==> WasVerified(h)
  {
    if WasVerified(past) {
      var k :| 0 <= k < |past| && past[k].status == Finished(Verified);
      assert h[k] == past[k];
    }
  }

  ghost predicate WasReplaced(h: seq<World<Journal>>, k: int) {
    exists j :: 0 <= j <= k && j < |h| && Replaced(h[j].engine, h[j].exits, h[j].seen, h[j].saved.entries)
  }

  lemma PlanIsConsistent(plan: Plan)
    requires ValidPlan(plan)
    ensures Consistent(plan.base)
  {
  }

  lemma StartIsSound(plan: Plan, entries: seq<Entry>)
    requires SamePlan(plan, entries) && forall x :: x in entries ==> x.newId.None?
    ensures Sound(plan, [World(plan.base, map[], Journal(entries, false), Active, map[])])
  {
  }

  lemma PossiblePrefix(host: Host<Journal>, h: seq<World<Journal>>)
    requires host.Valid() && h <= host.history
    ensures forall k :: 0 <= k < |h| ==> Possible(h[k])
  {
    assert forall k :: 0 <= k < |h| ==> h[k] == host.history[k];
  }

  lemma SavedIsPlan(plan: Plan, h: seq<World<Journal>>)
    requires |h| > 0 && Sound(plan, h)
    ensures SamePlan(plan, h[|h| - 1].saved.entries)
  {
    hide StepOk, Careful;
    assert Safe(plan, h[|h| - 1]);
  }

  lemma NothingWasLost(plan: Plan, h: seq<World<Journal>>)
    requires Sound(plan, h) && |h| > 0 && h[0].status == Active
    ensures forall k, i :: 0 <= k < |h| && 0 <= i < |plan.entries| && Gone(plan, h[k], plan.entries[i].id) ==> WasReplaced(h, k)
    ensures forall k :: 0 <= k < |h| && Succeeded(h[k].status) ==> WasReplaced(h, k)
  {
    hide StepOk, Replaced, Careful;
    forall k, i | 0 <= k < |h| && 0 <= i < |plan.entries| && Gone(plan, h[k], plan.entries[i].id)
      ensures WasReplaced(h, k)
    {
      assert Safe(plan, h[k]) && h[k].saved.entries[i].id == plan.entries[i].id;
      NothingLostBeforeSuccess(plan, h, k, i);
    }
    forall k | 0 <= k < |h| && Succeeded(h[k].status) ensures WasReplaced(h, k) {
      SuccessWasVerified(plan, h, k);
    }
  }

  // ---- A lost create response ------------------------------------------------------------

  const WORKS := Answer(map[], true, true, false, 0, true, NoHealth, true, 1)

  /** A group of one stopped container without networks. */
  function Single(): Plan {
    var was := Container("app", "image", "config", map[], Exited(0));
    Plan([map[]], [Entry(0, was, "app-backup", false, "", "", None, false)], [0], State(map[0 := was], 1))
  }

  lemma SingleCalls()
    ensures TotalCalls(Single(), 0) == 2
  {
    var p := Single();
    assert TotalCalls(p, 1) == 0;
    assert p.entries[0].was.endpoints.Keys - {"none"} == {};
  }

  lemma SingleIsSmooth()
    ensures ValidPlan(Single()) && Smooth(Single())
  {
    var p := Single();
    assert forall d :: !DependsOn(p.labels, 0, d) by {
      NoDependencies();
    }
  }

  lemma NoDependencies()
    ensures forall d :: !DependsOn([map[]], 0, d)
  {
    assert Entries(map[]) == [""];
  }

  /** Everything works but the response to the create call: the job ends recovery_required. */
  method LostCreateNeedsRecovery() returns (host: Host<Journal>)
    ensures fresh(host) && host.status == Finished(RecoveryRequired)
    ensures forall k :: k != 5 ==> Fine(host.script(k), {})
    ensures host.script(5).done && !host.script(5).heard && !host.script(5).expired
  {
    hide ValidPlan, Smooth, TotalCalls, SamePlan, Sound;
    var plan := Single();
    SingleIsSmooth();
    SingleCalls();
    PlanIsConsistent(plan);
    var script := (k: nat) => if k == 5 then WORKS.(heard := false) else WORKS;
    host := new Host(script, plan.base, Journal(plan.entries, false), Active);
    assert SamePlan(plan, plan.entries) by {
      SamePlanItself(plan);
    }
    StartIsSound(plan, plan.entries);
    var worker := new Worker(host, plan.order, host.saved, plan);
    assert Brief(plan) == {};
    forall k: nat ensures Patient(script, k) {
      assert RipeAt(script, k, 0);
    }
    assert worker.LosesFirstCreate(0);
    worker.Execute(Replace, [Resolution("new", "config")]);
  }

  lemma SamePlanItself(p: Plan)
    ensures SamePlan(p, p.entries)
  {
  }
}
