/**
 * The inventory reader's caches under interleaving (internal/inventory/events.go, metrics.go,
 * uptime.go, inventory.go, terminal.go): every Engine read remembers the generation from before it
 * began, and its result is stored only while that generation lasts.
 */
module Cache {
  import opened Strings

  type Id = string
  type Time = int  // nanoseconds

  datatype Sample = Sample(usage: Option<int>, uptime: Option<int>, collectedAt: Time)
  datatype Shell = Shell(available: bool, expires: Time)

  // ---- One critical section at a time ---------------------------------------------

  datatype Event = Event(kind: string, action: string, id: Id, time: Time)

  /** The events after which nothing read before holds any more. */
  predicate EndsReads(e: Event) {
    e.kind == "container" && e.action in {"start", "stop", "die", "destroy", "restart"}
  }

  /** A restart keeps the start time: Docker sends it after the start event it contains. */
  predicate EndsStart(e: Event) {
    EndsReads(e) && e.action != "restart"
  }

  predicate TellsStart(e: Event) {
    EndsReads(e) && e.action == "start" && e.time > 0
  }

  predicate ChangesInventory(e: Event) {
    e.kind == "container"
    && ("health_status" <= e.action || EndsReads(e) || e.action in {"create", "kill", "oom", "pause", "unpause", "rename", "update"})
  }

  /** What the actions of container events do; events of other kinds do nothing. */
  lemma ActionsMean(e: Event)
    ensures e.kind != "container" ==> !EndsReads(e) && !EndsStart(e) && !TellsStart(e) && !ChangesInventory(e)
    ensures e.kind == "container" && e.action in {"start", "stop", "die", "destroy"} ==>
              EndsReads(e) && EndsStart(e) && ChangesInventory(e)
    ensures e.kind == "container" && e.action == "restart" ==> EndsReads(e) && !EndsStart(e) && ChangesInventory(e)
    ensures e.kind == "container" && e.action in {"create", "kill", "oom", "pause", "unpause", "rename", "update"} ==>
              !EndsReads(e) && ChangesInventory(e)
    ensures e.kind == "container" && "health_status" <= e.action ==> !EndsReads(e) && ChangesInventory(e)
    ensures TellsStart(e) <==> e.kind == "container" && e.action == "start" && e.time > 0
    ensures ChangesInventory(e) ==>
              || "health_status" <= e.action
              || e.action in {"create", "start", "stop", "die", "destroy", "restart", "kill", "oom", "pause", "unpause", "rename", "update"}
  {
    if "health_status" <= e.action {
      assert e.action[0] == 'h';
    }
  }

  datatype State = State(generation: nat, metrics: map<Id, Sample>, started: map<Id, Time>, shells: map<Id, Shell>)

  function Handled(s: State, e: Event): State {
    if !EndsReads(e) then s
    else
      s.(generation := s.generation + 1,
         metrics := s.metrics - {e.id},
         started := if TellsStart(e) then s.started[e.id := e.time] else if EndsStart(e) then s.started - {e.id} else s.started,
         shells := s.shells - {e.id})
  }

  /** What a finished read wants to store. */
  datatype Finding =
    | Listed(live: set<Id>, now: Time)
    | Measured(id: Id, sample: Sample)
    | Backfilled(id: Id, start: Time)
    | Inspected(id: Id, start: Time)
    | Probed(id: Id, shell: Shell)

  function Stored(s: State, f: Finding): State {
    match f
    case Listed(live, now) =>
      s.(metrics := map id | id in s.metrics && id in live :: s.metrics[id],
         started := map id | id in s.started && id in live :: s.started[id],
         shells := map id | id in s.shells && now <= s.shells[id].expires :: s.shells[id])
    case Measured(id, sample) => s.(metrics := s.metrics[id := sample])
    case Backfilled(id, start) => if id in s.started then s else s.(started := s.started[id := start])
    case Inspected(id, start) => s.(started := s.started[id := start])
    case Probed(id, shell) => s.(shells := s.shells[id := shell])
  }

  function Guarded(s: State, generation: nat, f: Finding): State {
    if generation == s.generation then Stored(s, f) else s
  }

  /** The fields behind the reader's lock; each method is one critical section. */
  class Reader {
    var generation: nat
    var metrics: map<Id, Sample>
    var started: map<Id, Time>
    var shells: map<Id, Shell>

    function Now(): State
      reads this
    {
      State(generation, metrics, started, shells)
    }

    constructor ()
      ensures Now() == State(0, map[], map[], map[])
    {
      generation, metrics, started, shells := 0, map[], map[], map[];
    }

    /** `handleEvent` of the source. */
    method HandleEvent(e: Event) returns (changed: bool)
      modifies this
      ensures Now() == Handled(old(Now()), e)
      ensures changed == ChangesInventory(e)
    {
      if e.kind != "container" {
        return false;
      }
      if "health_status" <= e.action {
        assert e.action[0] == 'h';
        return true;
      }
      if e.action !in {"create", "start", "stop", "die", "destroy", "restart", "kill", "oom", "pause", "unpause", "rename", "update"} {
        return false;
      }
      if e.action in {"start", "stop", "die", "destroy", "restart"} {
        generation := generation + 1;
        metrics := metrics - {e.id};
        if e.action != "restart" {
          started := started - {e.id};
        }
        shells := shells - {e.id};
        if e.action == "start" && e.time > 0 {
          started := started[e.id := e.time];
        }
      }
      return true;
    }

    /** The locked part of `collectMetrics` after the listing; what it returns goes to the backfill. */
    method Prune(captured: nat, live: set<Id>, now: Time) returns (missing: set<Id>)
      modifies this
      ensures Now() == Guarded(old(Now()), captured, Listed(live, now))
      ensures missing == if captured == generation then live - old(started).Keys else {}
    {
      missing := {};
      if captured == generation {
        missing := live - started.Keys;
        metrics := KeepOnly(metrics, live);
        started := KeepOnly(started, live);
        ghost var before := (generation, metrics, started);
        var left := shells.Keys;
        while left != {}
          invariant left <= old(shells).Keys
          invariant shells == map id | id in old(shells) && (id in left || now <= old(shells)[id].expires) :: old(shells)[id]
          invariant (generation, metrics, started) == before
        {
          var id :| id in left;
          left := left - {id};
          if now > shells[id].expires {
            shells := shells - {id};
          }
        }
      }
    }

    /** The loops that drop the entries of containers that do not run. */
    static method KeepOnly<V>(entries: map<Id, V>, live: set<Id>) returns (r: map<Id, V>)
      ensures r == map id | id in entries && id in live :: entries[id]
    {
      r := entries;
      var left := r.Keys;
      while left != {}
        invariant left <= entries.Keys
        invariant r == map id | id in entries && (id in left || id in live) :: entries[id]
      {
        var id :| id in left;
        left := left - {id};
        if id !in live {
          r := r - {id};
        }
      }
    }

    /** The store at the end of one sample in `collectMetrics`. */
    method StoreSample(captured: nat, id: Id, sample: Sample)
      modifies this
      ensures Now() == Guarded(old(Now()), captured, Measured(id, sample))
    {
      if captured == generation {
        metrics := metrics[id := sample];
      }
    }

    /** The store at the end of `readUptime`. */
    method StoreStart(captured: nat, id: Id, start: Time) returns (stored: bool)
      modifies this
      ensures Now() == Guarded(old(Now()), captured, Backfilled(id, start))
      ensures stored <==> captured == old(generation) && id !in old(started)
    {
      if captured != generation {
        return false;
      }
      if id in started {
        return false;
      }
      started := started[id := start];
      return true;
    }

    /** The store of `InspectContainer`. */
    method StoreInspected(captured: nat, id: Id, start: Time)
      modifies this
      ensures Now() == Guarded(old(Now()), captured, Inspected(id, start))
    {
      if captured == generation {
        started := started[id := start];
      }
    }

    /** The store of `shellAvailable`. */
    method StoreShell(captured: nat, id: Id, shell: Shell)
      modifies this
      ensures Now() == Guarded(old(Now()), captured, Probed(id, shell))
    {
      if captured == generation {
        shells := shells[id := shell];
      }
    }

    /** `CachedMetrics` of the source: no sample past its lifetime, and uptime from the start time. */
    method CachedMetrics(now: Time) returns (result: map<Id, Sample>)
      ensures result.Keys == metrics.Keys + started.Keys
      ensures forall id :: id in result ==>
                && result[id].uptime == (if id in started then Some(Uptime(started[id], now))
                                         else if Expired(metrics[id], now) then None else metrics[id].uptime)
                && result[id].usage == (if id in metrics && !Expired(metrics[id], now) then metrics[id].usage else None)
    {
      result := map[];
      var left := metrics.Keys;
      while left != {}
        invariant left <= metrics.Keys
        invariant result == map id | id in metrics && id !in left :: if Expired(metrics[id], now) then NO_SAMPLE else metrics[id]
      {
        var id :| id in left;
        left := left - {id};
        var sample := metrics[id];
        if Expired(sample, now) {
          sample := NO_SAMPLE;
        }
        result := result[id := sample];
      }
      left := started.Keys;
      ghost var sampled := result;
      while left != {}
        invariant left <= started.Keys
        invariant result.Keys == metrics.Keys + (started.Keys - left)
        invariant forall id :: id in result ==>
                    result[id] == (if id in started && id !in left
                                   then (if id in sampled then sampled[id] else NO_SAMPLE).(uptime := Some(Uptime(started[id], now)))
                                   else sampled[id])
      {
        var id :| id in left;
        left := left - {id};
        var sample := if id in result then result[id] else NO_SAMPLE;
        result := result[id := sample.(uptime := Some(Uptime(started[id], now)))];
      }
    }
  }

  const METRICS_LIFETIME: int := 30_000_000_000
  const NO_SAMPLE := Sample(None, None, 0)

  predicate Expired(s: Sample, now: Time) { now - s.collectedAt > METRICS_LIFETIME }

  function Uptime(start: Time, now: Time): int {
    if now < start then 0 else (now - start) / 1_000_000_000
  }

  // ---- Whole runs --------------------------------------------------------------------

  /**
   * One step of an interleaved run. `since` is the step at which the read that ends here had the
   * generation, which is before it asked the Engine anything.
   */
  datatype Step = Happens(e: Event) | Captures | Ends(since: nat, f: Finding)

  type Run = seq<Step>

  ghost predicate Possible(run: Run) {
    forall k :: 0 <= k < |run| && run[k].Ends? ==> run[k].since < k && run[run[k].since].Captures?
  }

  function After(run: Run): State
    requires Possible(run)
  {
    if run == [] then State(0, map[], map[], map[])
    else
      var k := |run| - 1;
      var s := After(Before(run, k));
      match run[k]
      case Happens(e) => Handled(s, e)
      case Captures => s
      case Ends(since, f) => Guarded(s, After(Before(run, since)).generation, f)
  }

  function Before(run: Run, k: nat): (r: Run)
    requires Possible(run) && k <= |run|
    ensures Possible(r) && |r| == k
    ensures forall j :: 0 <= j < k ==> r[j] == run[j]
  {
    run[..k]
  }

  /** No lifecycle event of any container from one step up to another. */
  ghost predicate Quiet(run: Run, from: nat, end: nat) {
    forall j :: from <= j < end <= |run| && run[j].Happens? ==> !EndsReads(run[j].e)
  }

  lemma GenerationStep(run: Run, k: nat)
    requires Possible(run) && k < |run|
    ensures After(Before(run, k + 1)).generation
            == After(Before(run, k)).generation + if run[k].Happens? && EndsReads(run[k].e) then 1 else 0
  {
    var now := Before(run, k + 1);
    assert Before(now, k) == Before(run, k);
    hide EndsReads;
  }

  lemma {:induction false} GenerationCounts(run: Run, from: nat, end: nat)
    requires Possible(run) && from <= end <= |run|
    ensures After(Before(run, from)).generation <= After(Before(run, end)).generation
    ensures After(Before(run, from)).generation == After(Before(run, end)).generation <==> Quiet(run, from, end)
    decreases end
  {
    hide After, EndsReads;
    if from < end {
      GenerationCounts(run, from, end - 1);
      GenerationStep(run, end - 1);
      assert Quiet(run, from, end) <==> Quiet(run, from, end - 1) && !(run[end - 1].Happens? && EndsReads(run[end - 1].e));
    }
  }

  /** A read ends at this step whose whole time saw no lifecycle event. */
  ghost predicate Clean(run: Run, k: nat) {
    k < |run| && run[k].Ends? && Quiet(run, run[k].since, k)
  }

  /** One step of a run, with the generation guard replaced by what it means. */
  lemma StepMeans(run: Run, k: nat)
    requires Possible(run) && k < |run|
    ensures var s := After(Before(run, k));
            After(Before(run, k + 1)) ==
            match run[k]
            case Happens(e) => Handled(s, e)
            case Captures => s
            case Ends(since, f) => if Clean(run, k) then Stored(s, f) else s
  {
    var now := Before(run, k + 1);
    assert Before(now, k) == Before(run, k);
    if run[k].Ends? {
      assert Before(now, run[k].since) == Before(run, run[k].since);
      GenerationCounts(run, run[k].since, k);
    }
  }

  // Metrics

  ghost predicate GivesSample(run: Run, k: nat, id: Id, sample: Sample) {
    Clean(run, k) && run[k].f == Measured(id, sample)
  }

  ghost predicate TakesSample(run: Run, k: nat, id: Id) {
    && k < |run|
    && (|| (run[k].Happens? && EndsReads(run[k].e) && run[k].e.id == id)
        || (Clean(run, k) && run[k].f.Listed? && id !in run[k].f.live)
        || (Clean(run, k) && run[k].f.Measured? && run[k].f.id == id))
  }

  /** Given at some step, and not taken since. */
  ghost predicate SampleStands(run: Run, n: nat, id: Id, sample: Sample) {
    exists k :: 0 <= k < n && GivesSample(run, k, id, sample) && forall j :: k < j < n ==> !TakesSample(run, j, id)
  }

  ghost predicate HasSample(run: Run, n: nat, id: Id, sample: Sample)
    requires Possible(run) && n <= |run|
  {
    var metrics := After(Before(run, n)).metrics;
    id in metrics && metrics[id] == sample
  }

  lemma SampleStandsStep(run: Run, n: nat, id: Id, sample: Sample)
    ensures SampleStands(run, n + 1, id, sample) <==>
            GivesSample(run, n, id, sample) || (SampleStands(run, n, id, sample) && !TakesSample(run, n, id))
  {
    hide GivesSample, TakesSample;
  }

  lemma HasSampleStep(run: Run, n: nat, id: Id, sample: Sample)
    requires Possible(run) && n < |run|
    ensures HasSample(run, n + 1, id, sample) <==>
            GivesSample(run, n, id, sample) || (HasSample(run, n, id, sample) && !TakesSample(run, n, id))
  {
    StepMeans(run, n);
    hide After, Quiet;
  }

  /** A cached sample is exactly the last one read without a lifecycle event in between and not dropped since. */
  lemma {:induction false} MetricsAreTheLastCleanRead(run: Run, n: nat, id: Id, sample: Sample)
    requires Possible(run) && n <= |run|
    ensures HasSample(run, n, id, sample) <==> SampleStands(run, n, id, sample)
  {
    if n > 0 {
      MetricsAreTheLastCleanRead(run, n - 1, id, sample);
      HasSampleStep(run, n - 1, id, sample);
      SampleStandsStep(run, n - 1, id, sample);
    }
  }

  /** So a cached sample's read began after every event that ends reads of its container. */
  lemma SamplesAreFresh(run: Run, n: nat, id: Id, sample: Sample) returns (k: nat)
    requires Possible(run) && n <= |run| && HasSample(run, n, id, sample)
    ensures k < n && GivesSample(run, k, id, sample) && Quiet(run, run[k].since, k)
    ensures forall j :: run[k].since <= j < n && run[j].Happens? && EndsReads(run[j].e) ==> run[j].e.id != id
  {
    MetricsAreTheLastCleanRead(run, n, id, sample);
    hide HasSample;
    k :| 0 <= k < n && GivesSample(run, k, id, sample) && forall j :: k < j < n ==> !TakesSample(run, j, id);
    forall j | run[k].since <= j < n && run[j].Happens? && EndsReads(run[j].e)
      ensures run[j].e.id != id
    {
      assert j > k ==> !TakesSample(run, j, id);
    }
  }

  // Start times

  ghost predicate GivesStart(run: Run, k: nat, id: Id, start: Time)
    requires Possible(run)
  {
    && k < |run|
    && (|| (run[k].Happens? && TellsStart(run[k].e) && run[k].e.id == id && run[k].e.time == start)
        || (Clean(run, k) && run[k].f == Inspected(id, start))
        || (Clean(run, k) && run[k].f == Backfilled(id, start) && id !in After(Before(run, k)).started))
  }

  ghost predicate TakesStart(run: Run, k: nat, id: Id) {
    && k < |run|
    && (|| (run[k].Happens? && EndsStart(run[k].e) && run[k].e.id == id)
        || (Clean(run, k) && run[k].f.Listed? && id !in run[k].f.live)
        || (Clean(run, k) && run[k].f.Inspected? && run[k].f.id == id))
  }

  ghost predicate StartStands(run: Run, n: nat, id: Id, start: Time)
    requires Possible(run)
  {
    exists k :: 0 <= k < n && GivesStart(run, k, id, start) && forall j :: k < j < n ==> !TakesStart(run, j, id)
  }

  ghost predicate HasStart(run: Run, n: nat, id: Id, start: Time)
    requires Possible(run) && n <= |run|
  {
    var started := After(Before(run, n)).started;
    id in started && started[id] == start
  }

  lemma StartStandsStep(run: Run, n: nat, id: Id, start: Time)
    requires Possible(run)
    ensures StartStands(run, n + 1, id, start) <==>
            GivesStart(run, n, id, start) || (StartStands(run, n, id, start) && !TakesStart(run, n, id))
  {
    hide GivesStart, TakesStart;
  }

  lemma HasStartStep(run: Run, n: nat, id: Id, start: Time)
    requires Possible(run) && n < |run|
    ensures HasStart(run, n + 1, id, start) <==>
            GivesStart(run, n, id, start) || (HasStart(run, n, id, start) && !TakesStart(run, n, id))
  {
    StepMeans(run, n);
    hide After, Quiet;
  }

  /** A known start time is exactly the last one told or read without a lifecycle event in between, not dropped since. */
  lemma {:induction false} StartsAreTheLastCleanRead(run: Run, n: nat, id: Id, start: Time)
    requires Possible(run) && n <= |run|
    ensures HasStart(run, n, id, start) <==> StartStands(run, n, id, start)
  {
    if n > 0 {
      StartsAreTheLastCleanRead(run, n - 1, id, start);
      HasStartStep(run, n - 1, id, start);
      StartStandsStep(run, n - 1, id, start);
    }
  }

  /** The step before which nothing can have ended a start time: the event that told it, or the start of its read. */
  function Origin(run: Run, k: nat): nat
    requires k < |run|
  {
    if run[k].Ends? then run[k].since else k + 1
  }

  /**
   * So a known start time came with the container's last start event, or from a read that began
   * after every start, stop or death of the container.
   */
  lemma StartsAreFresh(run: Run, n: nat, id: Id, start: Time) returns (k: nat)
    requires Possible(run) && n <= |run| && HasStart(run, n, id, start)
    ensures k < n && GivesStart(run, k, id, start)
    ensures forall j :: Origin(run, k) <= j < n && run[j].Happens? && EndsStart(run[j].e) ==> run[j].e.id != id
  {
    StartsAreTheLastCleanRead(run, n, id, start);
    hide HasStart, After;
    k :| 0 <= k < n && GivesStart(run, k, id, start) && forall j :: k < j < n ==> !TakesStart(run, j, id);
    forall j | Origin(run, k) <= j < n && run[j].Happens? && EndsStart(run[j].e)
      ensures run[j].e.id != id
    {
      assert j > k ==> !TakesStart(run, j, id);
    }
  }

  // Shells

  ghost predicate HasShell(run: Run, n: nat, id: Id, shell: Shell)
    requires Possible(run) && n <= |run|
  {
    var shells := After(Before(run, n)).shells;
    id in shells && shells[id] == shell
  }

  ghost predicate GivesShell(run: Run, k: nat, id: Id, shell: Shell) {
    Clean(run, k) && run[k].f == Probed(id, shell)
  }

  lemma HasShellStep(run: Run, n: nat, id: Id, shell: Shell)
    requires Possible(run) && n < |run| && HasShell(run, n + 1, id, shell)
    ensures GivesShell(run, n, id, shell)
            || (HasShell(run, n, id, shell) && !(run[n].Happens? && EndsReads(run[n].e) && run[n].e.id == id))
  {
    StepMeans(run, n);
    hide After, Quiet;
  }

  /** A cached answer about a shell, too, is from a probe that began after the container's last lifecycle event. */
  lemma {:induction false} ShellsAreFresh(run: Run, n: nat, id: Id, shell: Shell) returns (k: nat)
    requires Possible(run) && n <= |run| && HasShell(run, n, id, shell)
    ensures k < n && GivesShell(run, k, id, shell)
    ensures forall j :: run[k].since <= j < n && run[j].Happens? && EndsReads(run[j].e) ==> run[j].e.id != id
  {
    HasShellStep(run, n - 1, id, shell);
    if GivesShell(run, n - 1, id, shell) {
      k := n - 1;
    } else {
      hide HasShell;
      k := ShellsAreFresh(run, n - 1, id, shell);
    }
  }
}
