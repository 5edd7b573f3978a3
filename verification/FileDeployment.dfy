/**
 * When a deployment may touch host files: the file commit of `deploy`, its rollback, and
 * reconciliation after a lost worker (internal/managed/deployment.go).
 */
module FileDeployment {
  import opened Strings
  import opened FileJournal

  datatype Outcome = Active | Committed | Reconciled | RolledBack | RecoveryRequired

  /** How the outside answers one durable write or one run of the file program. */
  datatype Answer = Answer(
    done: bool,      // the write takes effect, or the program starts
    heard: bool,     // and success is reported
    stopAt: nat)     // the program is killed before this change

  predicate Writes(mode: Mode) { mode == Commit || mode == Restore }

  /** The files after one run of the program that got this answer. */
  function Written(a: Answer, j: Journal, mode: Mode, files: Files): Files {
    if a.done && AllOk(j, mode, files) && Writes(mode)
    then Applied(Target(j, mode), files, j.names, Min(a.stopAt, |j.names|))
    else files
  }

  /** What survives a crash of the worker: files, the saved flag, and the recorded outcome. */
  datatype World = World(files: Files, fileCommit: bool, outcome: Outcome)

  class Host {
    const script: nat -> Answer
    const directory: Directory
    var calls: nat
    var fileCommit: bool
    var outcome: Outcome
    var history: seq<World>

    ghost predicate Valid()
      reads this, directory
    {
      && directory.Valid()
      && |history| > 0 && history[|history| - 1] == World(directory.files, fileCommit, outcome)
    }

    constructor (script: nat -> Answer, directory: Directory)
      requires directory.Valid()
      ensures this.script == script && this.directory == directory && !fileCommit && outcome == Active && calls == 0
      ensures Valid() && history == [World(directory.files, false, Active)]
    {
      this.script, this.directory, this.calls := script, directory, 0;
      this.fileCommit, this.outcome := false, Active;
      this.history := [World(directory.files, false, Active)];
    }

    /** The host as the next worker finds it, when the last one was lost at the end of `past`. */
    constructor After(script: nat -> Answer, directory: Directory, past: seq<World>)
      requires directory.Valid() && |past| > 0 && directory.files == past[|past| - 1].files
      ensures this.script == script && this.directory == directory && calls == 0 && history == past && Valid()
      ensures fileCommit == past[|past| - 1].fileCommit && outcome == past[|past| - 1].outcome
    {
      this.script, this.directory, this.calls := script, directory, 0;
      this.fileCommit, this.outcome := past[|past| - 1].fileCommit, past[|past| - 1].outcome;
      this.history := past;
    }

    /** `hostProjectFiles`: the program may fail to start, be killed, or finish unheard. */
    method ProjectFiles(j: Journal, mode: Mode) returns (ok: bool)
      requires Valid() && ValidJournal(j)
      modifies this`calls, this`history, directory
      ensures Valid() && calls == old(calls) + 1 && old(history) <= history
      ensures !script(old(calls)).done ==> history == old(history)
      ensures var a := script(old(calls));
              && directory.files == Written(a, j, mode, old(directory.files))
              && (ok <==> a.done && a.heard && AllOk(j, mode, old(directory.files)) && (Writes(mode) ==> a.stopAt >= |j.names|))
      ensures forall k :: |old(history)| <= k < |history| ==>
                && history[k].fileCommit == fileCommit && history[k].outcome == outcome
                && Reached(j, mode, old(directory.files), history[k].files, script(old(calls)).stopAt)
    {
      hide Applied, AllOk, Reached;
      var a := script(calls);
      calls := calls + 1;
      if !a.done {
        return false;
      }
      var before := directory.history;
      var exit := directory.Run(j, mode, a.stopAt);
      var states, flag, recorded := directory.history[|before|..], fileCommit, outcome;
      var more := seq(|states|, i requires 0 <= i < |states| => World(states[i], flag, recorded));
      history := history + more + [World(directory.files, fileCommit, outcome)];
      forall k | |old(history)| <= k < |history| ensures Reached(j, mode, old(directory.files), history[k].files, script(old(calls)).stopAt) {
        if k < |old(history)| + |more| {
          assert history[k] == more[k - |old(history)|];
        }
      }
      ok := exit == Ok && a.heard;
    }

    /** The payload of a job can be written only while the job is active. */
    method SaveFlag(flag: bool) returns (ok: bool)
      requires Valid()
      modifies this`calls, this`fileCommit, this`history
      ensures Valid() && calls == old(calls) + 1
      ensures fileCommit == if script(old(calls)).done && outcome == Active then flag else old(fileCommit)
      ensures ok == (script(old(calls)).done && script(old(calls)).heard && outcome == Active)
      ensures history == old(history) + [World(directory.files, fileCommit, outcome)]
    {
      var a := script(calls);
      if a.done && outcome == Active { fileCommit := flag; }
      ok := a.done && a.heard && outcome == Active;
      calls := calls + 1;
      history := history + [World(directory.files, fileCommit, outcome)];
    }

    /** An outcome is recorded only once; later attempts are errors. */
    method Record(o: Outcome) returns (ok: bool)
      requires Valid()
      modifies this`calls, this`outcome, this`history
      ensures Valid() && calls == old(calls) + 1
      ensures outcome == if script(old(calls)).done && old(outcome) == Active then o else old(outcome)
      ensures ok == (script(old(calls)).done && script(old(calls)).heard && old(outcome) == Active)
      ensures history == old(history) + [World(directory.files, fileCommit, outcome)]
    {
      var a := script(calls);
      ok := a.done && a.heard && outcome == Active;
      if a.done && outcome == Active { outcome := o; }
      calls := calls + 1;
      history := history + [World(directory.files, fileCommit, outcome)];
    }
  }

  // ---- What holds in every world ------------------------------------------------------

  ghost predicate AllNew(j: Journal, files: Files) {
    AllOk(j, Verified, files)
  }

  /**
   * Files outside the journal never change, journalled ones are always in one of their versions, and
   * no file has changed before the saved flag says so.
   */
  ghost predicate Safe(j: Journal, base: Files, w: World) {
    && Mixed(j, w.files)
    && (forall name :: name !in j.names ==> Lookup(w.files, name) == Lookup(base, name))
    && (!w.fileCommit ==> w.files == base)
  }

  /** A recorded outcome tells the truth about the files. */
  ghost predicate Truthful(j: Journal, base: Files, w: World) {
    && (w.outcome == Committed || w.outcome == Reconciled ==> AllNew(j, w.files))
    && (w.outcome == RolledBack ==> w.files == base)
  }

  ghost predicate AllSafe(j: Journal, base: Files, h: seq<World>) {
    forall k :: 0 <= k < |h| ==> Safe(j, base, h[k])
  }

  ghost predicate AllTruthful(j: Journal, base: Files, h: seq<World>) {
    forall k :: 0 <= k < |h| ==> Truthful(j, base, h[k])
  }

  /** Running the commit or restore program, wherever it is killed, keeps the files mixed. */
  lemma ProgramIsSafe(j: Journal, base: Files, w: World, mode: Mode, n: nat)
    requires Safe(j, base, w) && w.fileCommit && n <= |j.names|
    ensures Safe(j, base, w.(files := Applied(Target(j, mode), w.files, j.names, n)))
  {
    PartialIsMixed(j, mode, w.files, n);
  }

  /** A complete restore brings the old directory back. */
  lemma FullRestore(j: Journal, base: Files, w: World)
    requires Safe(j, base, w) && AllOk(j, Commit, base)
    ensures Applied(j.before, w.files, j.names, |j.names|) == base
  {
    FullIsTarget(j, Restore, w.files);
    forall name ensures Lookup(Applied(j.before, w.files, j.names, |j.names|), name) == Lookup(base, name) {
      assert name in j.names ==> FileOk(j, Commit, base, name);
    }
    SameLookups(Applied(j.before, w.files, j.names, |j.names|), base);
  }

  lemma FullCommit(j: Journal, files: Files)
    ensures AllNew(j, Applied(j.after, files, j.names, |j.names|))
  {
    FullIsTarget(j, Commit, files);
  }

  lemma MixedPasses(j: Journal, files: Files)
    requires Mixed(j, files)
    ensures AllOk(j, Restore, files)
  {
  }

  /** The first `n` names of the journal hold a file whose versions differ. */
  ghost predicate Differs(j: Journal, n: nat) {
    exists k :: 0 <= k < n && k < |j.names| && Lookup(j.before, j.names[k]) != Lookup(j.after, j.names[k])
  }

  lemma FewerDiffer(j: Journal, m: nat, n: nat)
    requires m <= n && Differs(j, m)
    ensures Differs(j, n)
  {
  }

  /** A restore of new files undoes the commit exactly as far as it comes. */
  lemma RestoreUndoesCommit(j: Journal, files: Files, n: nat)
    requires AllNew(j, files) && n <= |j.names|
    ensures AllNew(j, Applied(j.before, files, j.names, n)) <==> !Differs(j, n)
  {
    var now := Applied(j.before, files, j.names, n);
    forall name ensures Lookup(now, name) == if name in j.names[..n] then Lookup(j.before, name) else Lookup(files, name) {
      AppliedLookup(j.before, files, j.names, n, name);
    }
    if Differs(j, n) {
      var k :| 0 <= k < n && k < |j.names| && Lookup(j.before, j.names[k]) != Lookup(j.after, j.names[k]);
      assert j.names[k] in j.names && j.names[..n][k] == j.names[k];
      assert !FileOk(j, Verified, now, j.names[k]);
    } else {
      forall name | name in j.names ensures FileOk(j, Verified, now, name) {
        assert FileOk(j, Verified, files, name);
        if name in j.names[..n] {
          var k :| 0 <= k < n && j.names[..n][k] == name;
          assert j.names[k] == name;
        }
      }
    }
  }

  /** A run of the restore program that gets as far as a file whose versions differ. */
  ghost predicate RestoreShows(j: Journal, a: Answer) {
    a.done && Differs(j, Min(a.stopAt, |j.names|))
  }

  /**
   * The answers under which the commit of a sync ends in a false record: every step works up to the
   * record of success, which takes effect unheard, and the failure handling then restores old files.
   */
  ghost predicate Betrays(j: Journal, a: nat -> Answer, n: nat, uncertain: bool) {
    && a(n).done && a(n).heard
    && a(n + 1).done && a(n + 1).heard && a(n + 1).stopAt >= |j.names|
    && RecordBetrays(j, a, n + 2, uncertain)
  }

  ghost predicate RecordBetrays(j: Journal, a: nat -> Answer, n: nat, uncertain: bool) {
    && a(n).done && a(n).heard
    && a(n + 1).done && !a(n + 1).heard
    && !uncertain && RestoreShows(j, a(n + 2))
  }

  class Worker {
    const host: Host
    const journal: Journal
    ghost const base: Files
    /** The in-memory snapshot's flag. */
    var fileCommit: bool

    constructor (host: Host, journal: Journal, fileCommit: bool, ghost base: Files)
      ensures this.host == host && this.journal == journal && this.fileCommit == fileCommit && this.base == base
    {
      this.host, this.journal, this.fileCommit, this.base := host, journal, fileCommit, base;
    }

    ghost predicate Valid()
      reads this, host, host.directory
    {
      && host.Valid() && ValidJournal(journal)
      && AllSafe(journal, base, host.history) && AllOk(journal, Commit, base)
      && (host.fileCommit ==> fileCommit)
    }

    ghost predicate Honest()
      reads this, host
    {
      AllTruthful(journal, base, host.history)
    }

    /** From here on every write is durable and heard, and every run of the program ends. */
    ghost predicate FineFrom(n: nat)
      reads this, host
    {
      forall k :: n <= k ==> host.script(k).done && host.script(k).heard && host.script(k).stopAt >= |journal.names|
    }

    /** The write numbered `n` takes effect and is heard to. */
    ghost predicate Answered(n: nat)
      reads this, host
    {
      host.script(n).done && host.script(n).heard
    }

    /** The run of the program numbered `n` comes to its end and is heard to. */
    ghost predicate Ends(n: nat)
      reads this, host
    {
      Answered(n) && host.script(n).stopAt >= |journal.names|
    }

    /** How a failure ends when its handling works. */
    ghost predicate Handled(uncertain: bool, runtime: bool)
      reads this, host, host.directory
    {
      && host.outcome == (if !uncertain && runtime then RolledBack else RecoveryRequired)
      && (!uncertain ==> Files() == base)
    }

    ghost function Files(): FileJournal.Files
      reads this, host, host.directory
    {
      host.directory.files
    }

    /** Runs the file program; it writes only once the saved flag covers that. */
    method RunProgram(mode: Mode) returns (ok: bool)
      requires Valid() && (Writes(mode) ==> host.fileCommit)
      modifies host`calls, host`history, host.directory
      ensures Valid() && host.calls == old(host.calls) + 1 && old(host.history) <= host.history
      ensures KeepsOutcome(old(host.history), host.history)
      ensures old(Honest()) && (Writes(mode) ==> host.outcome == Active) ==> Honest()
      ensures Files() == Written(host.script(old(host.calls)), journal, mode, old(Files()))
      ensures old(Honest()) && mode == Restore && AllNew(journal, old(Files())) && host.outcome == Committed ==>
                (Honest() <==> !RestoreShows(journal, host.script(old(host.calls))))
      ensures var a := host.script(old(host.calls));
              ok <==> a.done && a.heard && AllOk(journal, mode, old(Files())) && (Writes(mode) ==> a.stopAt >= |journal.names|)
      ensures var a := host.script(old(host.calls));
              mode == Restore && a.done && a.stopAt >= |journal.names| ==> Files() == base
      ensures ok && mode == Commit ==> AllNew(journal, Files())
      ensures ok && mode == Verified ==> AllNew(journal, Files())
    {
      hide AllOk, Mixed, Applied;
      ghost var h, w := host.history, host.history[|host.history| - 1];
      assert Safe(journal, base, w);
      ok := host.ProjectFiles(journal, mode);
      forall k | 0 <= k < |host.history| ensures Safe(journal, base, host.history[k]) {
        if |h| <= k {
          var x := host.history[k];
          if x.files == w.files {
            assert x == w;
          } else {
            var n :| 0 <= n <= |journal.names| && x.files == Applied(Target(journal, mode), w.files, journal.names, n);
            ProgramIsSafe(journal, base, w, mode, n);
            assert x == w.(files := x.files);
          }
        }
      }
      if mode == Restore {
        MixedPasses(journal, w.files);
        FullRestore(journal, base, w);
        if AllNew(journal, w.files) && host.outcome == Committed && AllTruthful(journal, base, h) {
          RestoreOfCommitted(h, w);
        }
      } else if mode == Commit {
        FullCommit(journal, w.files);
      }
    }

    /** After a restore of new files under a recorded success: truthful as long as no file shows it. */
    lemma RestoreOfCommitted(h: seq<World>, w: World)
      requires host.Valid() && |h| > 0 && w == h[|h| - 1] && h <= host.history && AllTruthful(journal, base, h)
      requires AllNew(journal, w.files) && w.outcome == Committed && AllOk(journal, Restore, w.files) && host.calls > 0
      requires var a := host.script(host.calls - 1);
               && Files() == Written(a, journal, Restore, w.files) && (!a.done ==> host.history == h)
               && forall k :: |h| <= k < |host.history| ==>
                                host.history[k].outcome == Committed
                                && Reached(journal, Restore, w.files, host.history[k].files, a.stopAt)
      requires host.outcome == Committed
      ensures Honest() <==> !RestoreShows(journal, host.script(host.calls - 1))
    {
      hide AllOk, Mixed, Applied, AllNew, Differs;
      var a := host.script(host.calls - 1);
      RestoreUndoesCommit(journal, w.files, Min(a.stopAt, |journal.names|));
      var last := host.history[|host.history| - 1];
      if !RestoreShows(journal, a) {
        forall k | |h| <= k < |host.history| ensures Truthful(journal, base, host.history[k]) {
          var x := host.history[k];
          if x.files != w.files {
            var n :| 0 <= n <= a.stopAt && n <= |journal.names| && x.files == Applied(journal.before, w.files, journal.names, n);
            RestoreUndoesCommit(journal, w.files, n);
            if Differs(journal, n) {
              FewerDiffer(journal, n, Min(a.stopAt, |journal.names|));
            }
          }
        }
      } else {
        assert !AllNew(journal, last.files);
        assert !Truthful(journal, base, last);
      }
    }

    method Announce() returns (ok: bool)
      requires Valid() && fileCommit
      modifies host`calls, host`fileCommit, host`history
      ensures Valid() && host.calls == old(host.calls) + 1 && Files() == old(Files()) && old(host.history) <= host.history
      ensures KeepsOutcome(old(host.history), host.history)
      ensures old(Honest()) ==> Honest()
      ensures ok ==> host.fileCommit
      ensures ok == (host.script(old(host.calls)).done && host.script(old(host.calls)).heard && host.outcome == Active)
    {
      hide AllOk, Mixed;
      ghost var h := host.history;
      assert Safe(journal, base, h[|h| - 1]);
      ok := host.SaveFlag(true);
    }

    /** Records an outcome; whether that is honest depends on the files at that moment. */
    method Finish(o: Outcome) returns (ok: bool)
      requires Valid()
      modifies host`calls, host`outcome, host`history
      ensures Valid() && host.calls == old(host.calls) + 1 && old(host.history) <= host.history
      ensures KeepsOutcome(old(host.history), host.history)
      ensures var a := host.script(old(host.calls));
              && host.outcome == (if a.done && old(host.outcome) == Active then o else old(host.outcome))
              && (ok <==> a.done && a.heard && old(host.outcome) == Active)
      ensures old(Honest()) && (host.outcome == o ==> Truthful(journal, base, World(Files(), host.fileCommit, o))) ==> Honest()
    {
      hide AllOk, Mixed;
      ghost var h := host.history;
      assert Safe(journal, base, h[|h| - 1]);
      ok := host.Record(o);
    }

    /** `rollbackDeployment` as far as files are concerned; `runtime` tells whether containers came back. */
    method Rollback(runtime: bool) returns (ok: bool)
      requires Valid() && fileCommit == host.fileCommit
      modifies host`calls, host`history, host.directory
      ensures Valid() && host.calls >= old(host.calls) && old(host.history) <= host.history
      ensures old(Honest()) && (fileCommit ==> host.outcome == Active) ==> Honest()
      ensures fileCommit ==> Files() == Written(host.script(old(host.calls)), journal, Restore, old(Files()))
      ensures old(Honest()) && fileCommit && host.outcome == Committed ==> (Honest() <==> !RestoreShows(journal, host.script(old(host.calls))))
      ensures fileCommit && host.script(old(host.calls)).done && host.script(old(host.calls)).stopAt >= |journal.names| ==>
                Files() == base
      ensures ok ==> Files() == base
      ensures !fileCommit ==> Files() == base
      ensures FineFrom(old(host.calls)) ==> (ok <==> runtime) && Files() == base
    {
      hide AllOk, Mixed, Applied;
      assert Safe(journal, base, host.history[|host.history| - 1]);
      assert Honest() ==> Truthful(journal, base, host.history[|host.history| - 1]);
      hide AllTruthful;
      if fileCommit {
        MixedPasses(journal, Files());
        var restored := RunProgram(Restore);
        if !restored {
          return false;
        }
      }
      return runtime;
    }

    /** `finishFailure` of a job that has started to replace containers. */
    method FinishFailure(uncertain: bool, runtime: bool)
      requires Valid() && fileCommit == host.fileCommit
      modifies host`calls, host`outcome, host`history, host.directory
      ensures Valid() && host.calls >= old(host.calls) && old(host.history) <= host.history
      ensures old(host.outcome) != Active ==> host.outcome == old(host.outcome)
      ensures old(host.outcome) == Active ==>
                host.outcome == Active || host.outcome == RecoveryRequired || (host.outcome == RolledBack && !uncertain)
      ensures uncertain ==> Files() == old(Files())
      ensures old(Honest()) && old(host.outcome) == Active ==> Honest()
      ensures old(Honest()) && old(host.outcome) == Committed && fileCommit ==>
                (Honest() <==> uncertain || !RestoreShows(journal, host.script(old(host.calls))))
      ensures FineFrom(old(host.calls)) && old(host.outcome) == Active ==> Handled(uncertain, runtime)
      ensures !uncertain && host.script(old(host.calls)).done && host.script(old(host.calls)).stopAt >= |journal.names| ==>
                Files() == base
    {
      hide AllOk, Mixed, AllSafe, Applied;
      if uncertain {
        var _ := Finish(RecoveryRequired);
        return;
      }
      var restored := Rollback(runtime);
      ghost var kept, shows := host.history, Honest();
      var _ := Finish(if restored then RolledBack else RecoveryRequired);
      assert !shows ==> !Honest() by {
        hide Truthful;
        if !shows {
          var k :| 0 <= k < |kept| && !Truthful(journal, base, kept[k]);
          assert host.history[k] == kept[k];
        }
      }
    }

    ghost predicate Betrayed(n: nat, uncertain: bool)
      reads this, host
    {
      Betrays(journal, host.script, n, uncertain)
    }

    /**
     * The end of `deploy` for a sync: the flag is saved before the first file changes, and success is
     * recorded with every file in its new version. Any error of that record is handled as a failure,
     * also when it took effect: exactly then can the files contradict the record.
     */
    method CommitFiles(uncertain: bool, runtime: bool) returns (committed: bool)
      requires Valid() && !fileCommit && host.outcome == Active
      modifies this`fileCommit, host`calls, host`fileCommit, host`outcome, host`history, host.directory
      ensures Valid() && old(host.history) <= host.history
      ensures committed ==> host.outcome == Committed && AllNew(journal, Files())
      ensures host.outcome != Reconciled
      ensures old(Honest()) ==> (Honest() <==> !Betrayed(old(host.calls), uncertain))
      ensures Betrayed(old(host.calls), uncertain) ==>
                && host.outcome == Committed
                && (host.script(old(host.calls) + 4).stopAt >= |journal.names| ==> Files() == base)
      ensures var n := old(host.calls); committed <==> Answered(n) && Ends(n + 1) && Answered(n + 2) && Answered(n + 3)
      ensures !Answered(old(host.calls)) ==> host.outcome == Active && Files() == old(Files()) && host.calls == old(host.calls) + 1
      ensures var n := old(host.calls); Answered(n) && !Ends(n + 1) && FineFrom(n + 2) ==> Handled(uncertain, runtime)
      ensures var n := old(host.calls);
              Answered(n) && Ends(n + 1) && Answered(n + 2) && !host.script(n + 3).done && FineFrom(n + 4) ==> Handled(uncertain, runtime)
    {
      hide AllOk, Mixed, AllNew, Applied, Differs;
      assert Safe(journal, base, host.history[|host.history| - 1]);
      hide AllSafe, AllTruthful;
      fileCommit := true;
      var announced := Announce();
      if !announced {
        return false;
      }
      var written := RunProgram(Commit);
      if !written {
        FinishFailure(uncertain, runtime);
        return false;
      }
      committed := RecordCommit(uncertain, runtime);
    }

    /** With every file in its new version: the last save, and the record of success. */
    method RecordCommit(uncertain: bool, runtime: bool) returns (committed: bool)
      requires Valid() && fileCommit && host.fileCommit && host.outcome == Active && AllNew(journal, Files())
      modifies host`calls, host`fileCommit, host`outcome, host`history, host.directory
      ensures Valid() && old(host.history) <= host.history
      ensures committed ==> host.outcome == Committed && AllNew(journal, Files())
      ensures host.outcome != Reconciled
      ensures old(Honest()) ==> (Honest() <==> !RecordBetrays(journal, host.script, old(host.calls), uncertain))
      ensures RecordBetrays(journal, host.script, old(host.calls), uncertain) ==>
                && host.outcome == Committed
                && (host.script(old(host.calls) + 2).stopAt >= |journal.names| ==> Files() == base)
      ensures var n := old(host.calls); committed <==> Answered(n) && Answered(n + 1)
      ensures !Answered(old(host.calls)) ==>
                host.outcome == Active && Files() == old(Files()) && host.calls == old(host.calls) + 1
      ensures var n := old(host.calls);
              Answered(n) && !host.script(n + 1).done && FineFrom(n + 2) ==> Handled(uncertain, runtime)
    {
      hide AllOk, Mixed, AllNew, Applied, Differs;
      assert Safe(journal, base, host.history[|host.history| - 1]);
      hide AllSafe, AllTruthful, Safe;
      var saved := Announce();
      if !saved {
        return false;
      }
      committed := Finish(Committed);
      if !committed {
        FinishFailure(uncertain, runtime);
      }
    }

    /**
     * The end of `reconcileDeployment`, once images and readiness have been verified. It succeeds only
     * with every file in its new version, and it starts a file commit only from the complete old
     * version with the saved flag unset: a partial commit is never resumed.
     */
    method Reconcile(sync: bool) returns (ok: bool)
      requires Valid() && fileCommit == host.fileCommit
      modifies this`fileCommit, host`calls, host`fileCommit, host`outcome, host`history, host.directory
      ensures Valid() && old(host.history) <= host.history
      ensures old(Honest()) ==> Honest()
      ensures ok ==> host.outcome == Reconciled && AllNew(journal, Files())
      ensures Files() != old(Files()) ==> sync && !old(host.fileCommit) && old(Files()) == base
      ensures KeepsOutcome(old(host.history), host.history)
      ensures FineFrom(old(host.calls)) && old(host.outcome) == Active ==>
                (ok <==> AllNew(journal, old(Files())) || (sync && !old(host.fileCommit)))
    {
      hide AllOk, Mixed, Applied;
      assert Safe(journal, base, host.history[|host.history| - 1]);
      hide AllSafe, AllTruthful;
      var verified := RunProgram(Verified);
      if !verified {
        if !sync || fileCommit {
          return false;
        }
        fileCommit := true;
        var announced := Announce();
        if !announced {
          return false;
        }
        var written := RunProgram(Commit);
        if !written {
          return false;
        }
      }
      ok := Finish(Reconciled);
    }
  }

  // ---- A job and its reconciliations ------------------------------------------------------

  /** When a process is lost: never, or after so many steps. */
  datatype Loss = Never | After(steps: nat)

  /** A process that serves the job for a while: what it is answered, and when it is lost. */
  datatype Service = Service(script: nat -> Answer, loss: Loss)

  /** The process is always answered, its programs always end, and it is not lost. */
  ghost predicate Works(service: Service, j: Journal) {
    && service.loss.Never?
    && forall k :: service.script(k).done && service.script(k).heard && service.script(k).stopAt >= |j.names|
  }

  /** What is left of `h` when a process that began at the end of `before` is lost. */
  function Left(before: seq<World>, h: seq<World>, loss: Loss): seq<World>
    requires before <= h
  {
    if loss.After? && |before| + loss.steps < |h| then h[..|before| + loss.steps] else h
  }

  /**
   * A sync that is lost at any step, and any number of reconciliations, each lost at any step. In every
   * world there ever was a full restore gives back the files from before, and every record is
   * true unless the commit was betrayed.
   */
  method WholeJob(journal: Journal, base: Files, first: Service, uncertain: bool, runtime: bool, later: seq<Service>)
    returns (h: seq<World>)
    requires ValidJournal(journal) && AllOk(journal, Commit, base)
    ensures |h| > 0 && h[0] == World(base, false, Active) && AllSafe(journal, base, h)
    ensures forall k :: 0 <= k < |h| ==> Applied(journal.before, h[k].files, journal.names, |journal.names|) == base
    ensures !Betrays(journal, first.script, 0, uncertain) ==> AllTruthful(journal, base, h)
    ensures Works(first, journal) ==> h[|h| - 1].outcome == Committed
    ensures |later| > 0 && first.loss == After(0) && Works(later[0], journal) ==> h[|h| - 1].outcome == Reconciled
  {
    hide AllOk, Applied, AllSafe, AllTruthful, ValidJournal, Betrays;
    h := Sync(journal, base, first, uncertain, runtime);
    for n := 0 to |later|
      invariant |h| > 0 && h[0] == World(base, false, Active) && AllSafe(journal, base, h)
      invariant !Betrays(journal, first.script, 0, uncertain) ==> AllTruthful(journal, base, h)
      invariant Works(first, journal) ==> h[|h| - 1].outcome == Committed
      invariant n == 0 && first.loss == After(0) ==> h == [World(base, false, Active)]
      invariant n > 0 && first.loss == After(0) && Works(later[0], journal) ==> h[|h| - 1].outcome == Reconciled
    {
      h := Reconciliation(journal, base, later[n], h);
    }
    RestoresEverywhere(journal, base, h);
  }

  method Sync(journal: Journal, base: Files, first: Service, uncertain: bool, runtime: bool) returns (h: seq<World>)
    requires ValidJournal(journal) && AllOk(journal, Commit, base)
    ensures |h| > 0 && h[0] == World(base, false, Active) && AllSafe(journal, base, h)
    ensures !Betrays(journal, first.script, 0, uncertain) ==> AllTruthful(journal, base, h)
    ensures Works(first, journal) ==> h[|h| - 1].outcome == Committed
    ensures first.loss == After(0) ==> |h| == 1
  {
    hide AllOk, ValidJournal, Betrays;
    StartIsSafe(journal, base);
    hide AllSafe, AllTruthful;
    var directory := new Directory(base);
    var host := new Host(first.script, directory);
    var worker := new Worker(host, journal, false, base);
    var start := host.history;
    var committed := worker.CommitFiles(uncertain, runtime);
    h := Left(start, host.history, first.loss);
    LeftIsSafe(journal, base, host.history, h);
  }

  method Reconciliation(journal: Journal, base: Files, service: Service, past: seq<World>) returns (h: seq<World>)
    requires ValidJournal(journal) && AllOk(journal, Commit, base) && |past| > 0 && AllSafe(journal, base, past)
    ensures past <= h && AllSafe(journal, base, h)
    ensures AllTruthful(journal, base, past) ==> AllTruthful(journal, base, h)
    ensures var last := past[|past| - 1];
            && (last.outcome != Active ==> h[|h| - 1].outcome == last.outcome)
            && (Works(service, journal) && last.outcome == Active && (AllNew(journal, last.files) || !last.fileCommit) ==>
                  h[|h| - 1].outcome == Reconciled)
  {
    hide AllOk, ValidJournal, AllSafe, AllTruthful;
    var directory := new Directory(past[|past| - 1].files);
    var host := new Host.After(service.script, directory, past);
    var worker := new Worker(host, journal, host.fileCommit, base);
    var reconciled := worker.Reconcile(true);
    h := Left(past, host.history, service.loss);
    LeftIsSafe(journal, base, host.history, h);
  }

  /** Once an outcome is on record it stays. */
  ghost predicate KeepsOutcome(past: seq<World>, h: seq<World>) {
    |past| > 0 && past[|past| - 1].outcome != Active ==>
      forall k :: |past| <= k < |h| ==> h[k].outcome == past[|past| - 1].outcome
  }

  lemma StartIsSafe(journal: Journal, base: Files)
    requires AllOk(journal, Commit, base)
    ensures Safe(journal, base, World(base, false, Active))
    ensures AllSafe(journal, base, [World(base, false, Active)]) && AllTruthful(journal, base, [World(base, false, Active)])
  {
  }

  lemma LeftIsSafe(journal: Journal, base: Files, h: seq<World>, left: seq<World>)
    requires left <= h
    ensures AllSafe(journal, base, h) ==> AllSafe(journal, base, left)
    ensures AllTruthful(journal, base, h) ==> AllTruthful(journal, base, left)
  {
    hide Safe, Truthful;
    assert forall k :: 0 <= k < |left| ==> left[k] == h[k];
  }

  lemma RestoresEverywhere(journal: Journal, base: Files, h: seq<World>)
    requires AllSafe(journal, base, h) && AllOk(journal, Commit, base)
    ensures forall k :: 0 <= k < |h| ==> Applied(journal.before, h[k].files, journal.names, |journal.names|) == base
  {
    hide Safe, Applied, AllOk;
    forall k | 0 <= k < |h| ensures Applied(journal.before, h[k].files, journal.names, |journal.names|) == base {
      FullRestore(journal, base, h[k]);
    }
  }

  /** A run that ends with success on record and the old files in place. */
  method CommittedThenRestored() returns (host: Host, worker: Worker)
    ensures fresh(host) && fresh(worker) && worker.host == host
    ensures host.outcome == Committed && host.directory.files == map["compose.yml" := "old"]
    ensures !worker.Honest()
  {
    hide AllOk, Applied, AllNew, Written, AllSafe, AllTruthful;
    var before, after := map["compose.yml" := "old"], map["compose.yml" := "new"];
    var journal := Journal(before, after, ["compose.yml"]);
    var directory := new Directory(before);
    var script := (n: nat) => Answer(true, n != 3, 1);
    host := new Host(script, directory);
    worker := new Worker(host, journal, false, before);
    StartsHonest(worker);
    assert Lookup(journal.before, journal.names[0]) != Lookup(journal.after, journal.names[0]);
    assert Differs(journal, 1);
    assert script(4).stopAt == 1 && Min(1, |journal.names|) == 1;
    assert worker.Betrayed(0, false);
    var committed := worker.CommitFiles(false, true);
    assert worker.Files() == worker.base;
  }

  lemma StartsHonest(worker: Worker)
    requires worker.host.Valid() && |worker.host.history| == 1 && worker.host.directory.files == worker.base
    requires worker.host.outcome == Active && !worker.host.fileCommit && ValidJournal(worker.journal)
    requires worker.base == worker.journal.before
    ensures worker.Valid() && worker.Honest()
  {
  }
}
