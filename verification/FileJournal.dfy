/**
 * The crash-recoverable file journal: the embedded shell program that checks, commits, restores and
 * verifies host files (internal/managed/deployment_files.go).
 */
module FileJournal {
  import opened Strings

  type Path = string
  type Content = string
  type Files = map<Path, Content>

  /** Both versions of every journalled file; a file absent from a version does not exist in it. */
  datatype Journal = Journal(before: Files, after: Files, names: seq<Path>)

  datatype Mode = Check | Prepare | Commit | Restore | Verified

  datatype Exit = Ok | Refused | Interrupted

  function Lookup(files: Files, name: Path): Option<Content> {
    if name in files then Some(files[name]) else None
  }

  /** The names are those of both versions, each once. */
  ghost predicate ValidJournal(j: Journal) {
    && (forall i, k :: 0 <= i < k < |j.names| ==> j.names[i] != j.names[k])
    && (forall name :: name in j.before || name in j.after ==> name in j.names)
  }

  /** The program's test of one file. */
  predicate FileOk(j: Journal, mode: Mode, files: Files, name: Path) {
    match mode
    case Restore => name !in files || Lookup(files, name) == Lookup(j.before, name) || Lookup(files, name) == Lookup(j.after, name)
    case Verified => Lookup(files, name) == Lookup(j.after, name)
    case _ => Lookup(files, name) == Lookup(j.before, name)
  }

  predicate AllOk(j: Journal, mode: Mode, files: Files) {
    forall name :: name in j.names ==> FileOk(j, mode, files, name)
  }

  /** One atomic change: a rename into place, or a removal. */
  function Put(version: Files, files: Files, name: Path): Files {
    if name in version then files[name := version[name]] else files - {name}
  }

  /** The first `n` names brought to a version. */
  function Applied(version: Files, files: Files, names: seq<Path>, n: nat): Files
    requires n <= |names|
  {
    if n == 0 then files else Put(version, Applied(version, files, names, n - 1), names[n - 1])
  }

  function Target(j: Journal, mode: Mode): Files {
    if mode == Restore then j.before else j.after
  }

  function Min(a: nat, b: nat): nat { if a < b then a else b }

  /** The states one run can pass through: at most `limit` changes of a commit or restore that passed its check. */
  ghost predicate Reached(j: Journal, mode: Mode, start: Files, files: Files, limit: nat) {
    || files == start
    || (&& AllOk(j, mode, start) && (mode == Commit || mode == Restore)
        && exists n :: 0 <= n <= limit && n <= |j.names| && files == Applied(Target(j, mode), start, j.names, n))
  }

  class Directory {
    var files: Files
    /** Every state of the files that a crash could leave. */
    var history: seq<Files>

    ghost predicate Valid()
      reads this
    {
      |history| > 0 && history[|history| - 1] == files
    }

    constructor (files: Files)
      ensures this.files == files && Valid() && history == [files]
    {
      this.files, this.history := files, [files];
    }

    /** One run of the program; it is killed before change `stopAt` when there are that many. */
    method Run(j: Journal, mode: Mode, stopAt: nat) returns (exit: Exit)
      requires Valid() && ValidJournal(j)
      modifies this
      ensures Valid() && old(history) <= history
      ensures !AllOk(j, mode, old(files)) ==> exit == Refused && files == old(files)
      ensures AllOk(j, mode, old(files)) && (mode == Check || mode == Verified || mode == Prepare) ==>
                exit == Ok && files == old(files)
      ensures AllOk(j, mode, old(files)) && (mode == Commit || mode == Restore) ==>
                && exit == (if stopAt < |j.names| then Interrupted else Ok)
                && files == Applied(Target(j, mode), old(files), j.names, Min(stopAt, |j.names|))
      ensures forall k :: |old(history)| <= k < |history| ==> Reached(j, mode, old(files), history[k], stopAt)
      ensures Reached(j, mode, old(files), files, stopAt)
    {
      for i := 0 to |j.names|
        invariant forall k :: 0 <= k < i ==> FileOk(j, mode, files, j.names[k])
        invariant files == old(files) && history == old(history)
      {
        if !Passes(j, mode, j.names[i]) {
          assert j.names[i] in j.names && !FileOk(j, mode, files, j.names[i]);
          return Refused;
        }
      }
      if mode == Check || mode == Verified || mode == Prepare {
        return Ok;
      }
      for i := 0 to |j.names|
        invariant Valid() && old(history) <= history && i <= stopAt
        invariant files == Applied(Target(j, mode), old(files), j.names, i)
        invariant forall k :: |old(history)| <= k < |history| ==> Reached(j, mode, old(files), history[k], stopAt)
      {
        if i == stopAt {
          return Interrupted;
        }
        var name := j.names[i];
        if name in Target(j, mode) {
          files := files[name := Target(j, mode)[name]];
        } else {
          files := files - {name};
        }
        history := history + [files];
      }
      return Ok;
    }

    /** Somebody else writes and removes files. */
    method Edit(edits: Edits)
      requires Valid()
      modifies this
      ensures Valid() && files == Edited(old(files), edits) && history == old(history) + [files]
    {
      files := Edited(files, edits);
      history := history + [files];
    }

    /** The comparisons of the program, mode by mode. */
    predicate Passes(j: Journal, mode: Mode, name: Path)
      reads this
      ensures Passes(j, mode, name) <==> FileOk(j, mode, files, name)
    {
      if mode == Restore then
        name in files ==> (name in j.before && files[name] == j.before[name]) || (name in j.after && files[name] == j.after[name])
      else if mode == Verified then
        if name in j.after then name in files && files[name] == j.after[name] else name !in files
      else if name in j.before then name in files && files[name] == j.before[name]
      else name !in files
    }
  }

  // ---- What the journal guarantees ---------------------------------------------------

  /** Every journalled file is in one of its two versions. */
  ghost predicate Mixed(j: Journal, files: Files) {
    forall name :: name in j.names ==>
                     Lookup(files, name) == Lookup(j.before, name) || Lookup(files, name) == Lookup(j.after, name)
  }

  /** What applying a version does, file by file. */
  lemma {:induction false} AppliedLookup(version: Files, files: Files, names: seq<Path>, n: nat, name: Path)
    requires n <= |names|
    ensures Lookup(Applied(version, files, names, n), name) ==
            if name in names[..n] then Lookup(version, name) else Lookup(files, name)
  {
    if n > 0 {
      AppliedLookup(version, files, names, n - 1, name);
      assert names[..n] == names[..n - 1] + [names[n - 1]];
    }
  }

  lemma SameLookups(a: Files, b: Files)
    requires forall name :: Lookup(a, name) == Lookup(b, name)
    ensures a == b
  {
    forall name ensures name in a <==> name in b {
      assert Lookup(a, name) == Lookup(b, name);
    }
    forall name | name in a ensures a[name] == b[name] {
      assert Lookup(a, name) == Lookup(b, name);
    }
  }

  lemma PartialIsMixed(j: Journal, mode: Mode, files: Files, n: nat)
    requires Mixed(j, files) && n <= |j.names|
    ensures Mixed(j, Applied(Target(j, mode), files, j.names, n))
    ensures forall name :: name !in j.names ==>
              Lookup(Applied(Target(j, mode), files, j.names, n), name) == Lookup(files, name)
  {
    forall name ensures var l := Lookup(Applied(Target(j, mode), files, j.names, n), name);
                        l == Lookup(files, name) || (name in j.names && l == Lookup(Target(j, mode), name))
    {
      AppliedLookup(Target(j, mode), files, j.names, n, name);
    }
  }

  lemma FullIsTarget(j: Journal, mode: Mode, files: Files)
    ensures forall name :: Lookup(Applied(Target(j, mode), files, j.names, |j.names|), name) ==
                           if name in j.names then Lookup(Target(j, mode), name) else Lookup(files, name)
  {
    forall name ensures Lookup(Applied(Target(j, mode), files, j.names, |j.names|), name) ==
                        if name in j.names then Lookup(Target(j, mode), name) else Lookup(files, name)
    {
      AppliedLookup(Target(j, mode), files, j.names, |j.names|, name);
      assert j.names[..|j.names|] == j.names;
    }
  }

  /** The files after a sequence of interrupted restores. */
  function Restores(j: Journal, files: Files, stops: seq<nat>): Files
    decreases |stops|
  {
    if stops == [] then files
    else Restores(j, Applied(j.before, files, j.names, Min(stops[0], |j.names|)), stops[1..])
  }

  /**
   * Recovery: take a directory in the old version, interrupt a commit anywhere, and interrupt any
   * number of restores anywhere. Every restore passes its check, and one full restore brings back
   * exactly the directory there was, outside files included.
   */
  lemma {:induction false} RestoreRecovers(j: Journal, files: Files, commitStop: nat, stops: seq<nat>)
    requires AllOk(j, Commit, files)
    ensures var broken := Restores(j, Applied(j.after, files, j.names, Min(commitStop, |j.names|)), stops);
            AllOk(j, Restore, broken) && Applied(j.before, broken, j.names, |j.names|) == files
  {
    var start := Applied(j.after, files, j.names, Min(commitStop, |j.names|));
    PartialIsMixed(j, Commit, files, Min(commitStop, |j.names|));
    var broken := Restores(j, start, stops);
    RestoresStayMixed(j, start, stops);
    FullIsTarget(j, Restore, broken);
    forall name ensures Lookup(Applied(j.before, broken, j.names, |j.names|), name) == Lookup(files, name) {
      assert name in j.names ==> FileOk(j, Commit, files, name);
    }
    SameLookups(Applied(j.before, broken, j.names, |j.names|), files);
  }

  lemma {:induction false} RestoresStayMixed(j: Journal, files: Files, stops: seq<nat>)
    requires Mixed(j, files)
    ensures Mixed(j, Restores(j, files, stops))
    ensures forall name :: name !in j.names ==> Lookup(Restores(j, files, stops), name) == Lookup(files, name)
    decreases |stops|
  {
    if stops != [] {
      var n := Min(stops[0], |j.names|);
      PartialIsMixed(j, Restore, files, n);
      RestoresStayMixed(j, Applied(j.before, files, j.names, n), stops[1..]);
    }
  }

  // ---- Edits by somebody else ----------------------------------------------------------

  /** What others have written or removed since, path by path. */
  type Edits = map<Path, Option<Content>>

  function Edited(files: Files, edits: Edits): Files {
    map name | name in files.Keys + edits.Keys && (name in edits ==> edits[name].Some?) ::
      if name in edits then edits[name].value else files[name]
  }

  /** The edits of files that are not journalled. */
  function Outside(j: Journal, edits: Edits): Edits {
    map name | name in edits && name !in j.names :: edits[name]
  }

  /** Somebody has written content of neither version to a journalled file. */
  ghost predicate Foreign(j: Journal, edits: Edits) {
    exists name :: name in j.names && name in edits && edits[name].Some?
                   && edits[name] != Lookup(j.before, name) && edits[name] != Lookup(j.after, name)
  }

  /** The files after one restore run, which writes only if its check passes. */
  function RestoreRun(j: Journal, files: Files, stop: nat): Files {
    if AllOk(j, Restore, files) then Applied(j.before, files, j.names, Min(stop, |j.names|)) else files
  }

  function RestoreRuns(j: Journal, files: Files, stops: seq<nat>): Files
    decreases |stops|
  {
    if stops == [] then files else RestoreRuns(j, RestoreRun(j, files, stops[0]), stops[1..])
  }

  /** A directory left by an interrupted commit, interrupted restores and then edits by others. */
  function Disturbed(j: Journal, files: Files, commitStop: nat, stops: seq<nat>, edits: Edits): Files {
    Edited(Restores(j, Applied(j.after, files, j.names, Min(commitStop, |j.names|)), stops), edits)
  }

  lemma EditedLookup(files: Files, edits: Edits, name: Path)
    ensures Lookup(Edited(files, edits), name) == if name in edits then edits[name] else Lookup(files, name)
  {
  }

  /** The check of a restore looks through a disturbed directory and sees exactly the foreign edits. */
  lemma RestoreSeesForeignEdits(j: Journal, files: Files, commitStop: nat, stops: seq<nat>, edits: Edits)
    requires AllOk(j, Commit, files)
    ensures AllOk(j, Restore, Disturbed(j, files, commitStop, stops, edits)) <==> !Foreign(j, edits)
    ensures forall name :: name !in j.names ==>
              Lookup(Disturbed(j, files, commitStop, stops, edits), name) == Lookup(Edited(files, Outside(j, edits)), name)
  {
    var start := Applied(j.after, files, j.names, Min(commitStop, |j.names|));
    assert forall name :: name in j.names ==> FileOk(j, Commit, files, name);
    PartialIsMixed(j, Commit, files, Min(commitStop, |j.names|));
    RestoresStayMixed(j, start, stops);
    var broken, now := Restores(j, start, stops), Disturbed(j, files, commitStop, stops, edits);
    forall name ensures Lookup(now, name) == if name in edits then edits[name] else Lookup(broken, name) {
      EditedLookup(broken, edits, name);
    }
    forall name | name in j.names
      ensures FileOk(j, Restore, now, name) <==>
              !(name in edits && edits[name].Some? && edits[name] != Lookup(j.before, name) && edits[name] != Lookup(j.after, name))
    {
      assert name in now <==> Lookup(now, name).Some?;
    }
    forall name | name !in j.names ensures Lookup(now, name) == Lookup(Edited(files, Outside(j, edits)), name) {
      EditedLookup(files, Outside(j, edits), name);
    }
  }

  /** Interrupted restores neither end nor begin to refuse, and leave other files alone. */
  lemma {:induction false} RestoreRunsKeep(j: Journal, files: Files, stops: seq<nat>)
    ensures AllOk(j, Restore, RestoreRuns(j, files, stops)) <==> AllOk(j, Restore, files)
    ensures !AllOk(j, Restore, files) ==> RestoreRuns(j, files, stops) == files
    ensures forall name :: name !in j.names ==> Lookup(RestoreRuns(j, files, stops), name) == Lookup(files, name)
    decreases |stops|
  {
    if stops != [] {
      var n := Min(stops[0], |j.names|);
      var next := RestoreRun(j, files, stops[0]);
      forall name ensures next != files ==>
                            var l := Lookup(next, name);
                            l == Lookup(files, name) || (name in j.names && l == Lookup(j.before, name))
      {
        AppliedLookup(j.before, files, j.names, n, name);
      }
      if AllOk(j, Restore, files) {
        forall name | name in j.names ensures FileOk(j, Restore, next, name) {
          assert FileOk(j, Restore, files, name);
          assert name in next <==> Lookup(next, name).Some?;
          assert name in files <==> Lookup(files, name).Some?;
        }
      }
      RestoreRunsKeep(j, next, stops[1..]);
    }
  }

  /**
   * After a broken commit, broken restores and edits by others, any number of further restores ends,
   * when the last one is not interrupted, with the old journalled files and the others as edited, if
   * and only if nobody wrote foreign content to a journalled file. If somebody did, every restore
   * refuses and the directory stays as it is.
   */
  lemma RestoreUnlessForeign(j: Journal, files: Files, commitStop: nat, stops: seq<nat>, edits: Edits, more: seq<nat>, last: nat)
    requires AllOk(j, Commit, files) && last >= |j.names|
    ensures var now := Disturbed(j, files, commitStop, stops, edits);
            && (RestoreRun(j, RestoreRuns(j, now, more), last) == Edited(files, Outside(j, edits)) <==> !Foreign(j, edits))
            && (Foreign(j, edits) ==> !AllOk(j, Restore, now) && RestoreRun(j, RestoreRuns(j, now, more), last) == now)
  {
    var now, aim := Disturbed(j, files, commitStop, stops, edits), Edited(files, Outside(j, edits));
    var left := RestoreRuns(j, now, more);
    RestoreSeesForeignEdits(j, files, commitStop, stops, edits);
    RestoreRunsKeep(j, now, more);
    hide Disturbed, RestoreRuns;
    if Foreign(j, edits) {
      var name :| name in j.names && !FileOk(j, Restore, now, name);
      EditedLookup(files, Outside(j, edits), name);
      assert FileOk(j, Commit, files, name);
    } else {
      FullIsTarget(j, Restore, left);
      forall name ensures Lookup(RestoreRun(j, left, last), name) == Lookup(aim, name) {
        EditedLookup(files, Outside(j, edits), name);
        assert name in j.names ==> FileOk(j, Commit, files, name);
      }
      SameLookups(RestoreRun(j, left, last), aim);
    }
  }

  /** The same on a directory: a commit killed somewhere, a restore killed somewhere, edits, and a restore. */
  method RecoverAfterEdits(d: Directory, j: Journal, commitStop: nat, restoreStop: nat, edits: Edits) returns (exit: Exit)
    requires d.Valid() && ValidJournal(j) && AllOk(j, Commit, d.files)
    modifies d
    ensures exit == (if Foreign(j, edits) then Refused else Ok)
    ensures d.files == if Foreign(j, edits) then Disturbed(j, old(d.files), commitStop, [restoreStop], edits)
                       else Edited(old(d.files), Outside(j, edits))
  {
    hide AllOk, Applied, Reached, Edited, Foreign, Outside, RestoreRuns;
    ghost var base := d.files;
    var _ := d.Run(j, Commit, commitStop);
    RestoreRecovers(j, base, commitStop, []);
    ghost var broken := d.files;
    var _ := d.Run(j, Restore, restoreStop);
    assert Restores(j, broken, [restoreStop]) == Restores(j, d.files, []) by {
      assert [restoreStop][1..] == [];
    }
    d.Edit(edits);
    ghost var now := d.files;
    assert now == Disturbed(j, base, commitStop, [restoreStop], edits);
    RestoreUnlessForeign(j, base, commitStop, [restoreStop], edits, [], |j.names|);
    RestoreSeesForeignEdits(j, base, commitStop, [restoreStop], edits);
    NoRuns(j, now);
    exit := d.Run(j, Restore, |j.names|);
  }

  lemma NoRuns(j: Journal, files: Files)
    ensures RestoreRuns(j, files, []) == files
  {
  }
}
