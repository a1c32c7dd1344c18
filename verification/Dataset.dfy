/**
  Installing a dataset: a swap of directories by renames, with a backup, a rollback and a version marker
  inside the installed directory.

  Every file operation may fail, a directory removal may stop half way, and the process may die between
  any two operations. An installation is therefore described by the list of file-system states it goes
  through; a crash leaves one of them behind.
 */
module Dataset {
  import opened Frames

  /** Commit identifiers have a fixed length; labels are what gets written into the marker. */
  const SHA_LENGTH: nat := 40

  /** Neither commit identifiers nor git refs contain white space, so trimming leaves them alone. */
  predicate Blank(ch: char) {
    ch == ' ' || ch == '\t' || ch == '\n' || ch == '\r'
  }

  type Label = s: string | forall i :: 0 <= i < |s| ==> !Blank(s[i]) witness ""

  datatype Dir = Dir(sha: Label, complete: bool, marker: Option<Label>)

  datatype Fs = Fs(src: Option<Dir>, dst: Option<Dir>, backup: Option<Dir>)

  /** A removal: what is left half way, and whether it gets to the end. */
  datatype Removal = Removal(halfway: Dir, finished: bool)

  /** The environment's answers to one installation. */
  datatype Answers = Answers(
    stale: Removal,
    toBackup: bool,
    makeParent: bool,
    intoPlace: bool,
    rollback: bool,
    cleanup: Removal,
    written: Option<nat>
  )

  /** The states that follow the starting one, and whether the operation reports success. */
  datatype Outcome = Outcome(trace: seq<Fs>, ok: bool)

  function After(fs: Fs, o: Outcome): Fs {
    if o.trace == [] then fs else o.trace[|o.trace| - 1]
  }

  /** Continues with further steps after a successful part. */
  function Then(o: Outcome, next: Outcome): Outcome {
    if o.ok then Outcome(o.trace + next.trace, next.ok) else o
  }

  // ---------------------------------------------------------------- the swap

  function RemoveBackup(fs: Fs, r: Removal): Outcome {
    if fs.backup.None? then Outcome([], true)
    else if r.finished then Outcome([fs.(backup := Some(r.halfway)), fs.(backup := None)], true)
    else Outcome([fs.(backup := Some(r.halfway))], false)
  }

  /** The target exists: move it away, move the new one in, and back if that fails. */
  function SwapExisting(fs: Fs, a: Answers): Outcome
    requires fs.dst.Some?
  {
    var moved := fs.(dst := None, backup := fs.dst);
    if !a.toBackup then Outcome([], false)
    else if a.intoPlace then Outcome([moved, moved.(dst := fs.src, src := None)], true)
    else if a.rollback then Outcome([moved, fs.(backup := None)], false)
    else Outcome([moved], false)
  }

  function MoveIntoPlace(fs: Fs, a: Answers): Outcome {
    if a.makeParent && a.intoPlace then Outcome([fs.(dst := fs.src, src := None)], true) else Outcome([], false)
  }

  function MoveIn(fs: Fs, a: Answers): Outcome {
    if fs.dst.Some? then SwapExisting(fs, a) else MoveIntoPlace(fs, a)
  }

  function ReplaceDir(fs: Fs, a: Answers): Outcome {
    var first := RemoveBackup(fs, a.stale);
    var clean := After(fs, first);
    var second := Then(first, MoveIn(clean, a));
    if !second.ok then second
    else Outcome(second.trace + RemoveBackup(After(fs, second), a.cleanup).trace, true)
  }

  // ---------------------------------------------------------------- the installation

  /** The marker as a write leaves it after `n` characters. */
  function Marked(fs: Fs, tag: Label, n: nat): Fs
    requires fs.dst.Some? && n <= |tag|
  {
    fs.(dst := Some(fs.dst.value.(marker := Some(tag[..n]))))
  }

  /** A write that fails to open the file changes nothing; otherwise the file grows from empty. */
  function WriteMarker(fs: Fs, tag: Label, written: Option<nat>): Outcome {
    if written.None? || fs.dst.None? then Outcome([], false)
    else
      var n := Min(written.value, |tag|);
      Outcome(seq(n + 1, k requires 0 <= k < n + 1 => Marked(fs, tag, k)), n == |tag|)
  }

  /** Installs the unpacked and validated dataset `sha`, which carries no marker, under `tag`. */
  function Install(fs: Fs, sha: Label, tag: Label, a: Answers): Outcome {
    var start := fs.(src := Some(Dir(sha, true, None)));
    var swap := ReplaceDir(start, a);
    Then(swap, WriteMarker(After(start, swap), tag, a.written))
  }

  function LocalSha(fs: Fs): Option<Label> {
    if fs.dst.Some? && fs.dst.value.marker.Some? && |fs.dst.value.marker.value| > 0 then fs.dst.value.marker else None
  }

  // ---------------------------------------------------------------- as written

  /** The file system and the operations on it, each of which asks the environment for its answer. */
  class Disk {
    var src: Option<Dir>
    var dst: Option<Dir>
    var backup: Option<Dir>
    /** Every state since the installation began. */
    ghost var trace: seq<Fs>

    ghost function Snapshot(): Fs
      reads this
    {
      Fs(src, dst, backup)
    }

    constructor (fs: Fs)
      ensures Snapshot() == fs && trace == [fs]
    {
      src, dst, backup, trace := fs.src, fs.dst, fs.backup, [fs];
    }

    method RemoveBackupDir(r: Removal) returns (ok: bool)
      modifies this
      ensures var o := RemoveBackup(old(Snapshot()), r);
        trace == old(trace) + o.trace && ok == o.ok && Snapshot() == After(old(Snapshot()), o)
    {
      if backup.None? {
        return true;
      }
      backup := Some(r.halfway);
      trace := trace + [Snapshot()];
      if r.finished {
        backup := None;
        trace := trace + [Snapshot()];
      }
      ok := r.finished;
    }

    /** Moves the new dataset into place, away from under a target that is already there. */
    method MoveNewDir(a: Answers) returns (ok: bool)
      modifies this
      ensures var o := MoveIn(old(Snapshot()), a);
        trace == old(trace) + o.trace && ok == o.ok && Snapshot() == After(old(Snapshot()), o)
    {
      if dst.None? {
        ok := a.makeParent && a.intoPlace;
        if ok {
          dst, src := src, None;
          trace := trace + [Snapshot()];
        }
        return;
      }
      if !a.toBackup {
        return false;
      }
      backup, dst := dst, None;
      trace := trace + [Snapshot()];
      if !a.intoPlace {
        if a.rollback {
          dst, backup := backup, None;
          trace := trace + [Snapshot()];
        }
        return false;
      }
      dst, src := src, None;
      trace := trace + [Snapshot()];
      return true;
    }

    method AtomicReplaceDir(a: Answers) returns (ok: bool)
      modifies this
      ensures var o := ReplaceDir(old(Snapshot()), a);
        trace == old(trace) + o.trace && ok == o.ok && Snapshot() == After(old(Snapshot()), o)
    {
      ghost var fs := Snapshot();
      ghost var first := RemoveBackup(fs, a.stale);
      ok := RemoveBackupDir(a.stale);
      if !ok {
        return;
      }
      ghost var second := Then(first, MoveIn(Snapshot(), a));
      ok := MoveNewDir(a);
      assert trace == old(trace) + second.trace && ok == second.ok && Snapshot() == After(fs, second);
      if !ok {
        return;
      }
      ghost var third := RemoveBackup(Snapshot(), a.cleanup);
      var _ := RemoveBackupDir(a.cleanup);
      assert Snapshot() == After(fs, Outcome(second.trace + third.trace, true));
    }
  }

  // ---------------------------------------------------------------- availability

  predicate CompleteDir(d: Option<Dir>) {
    d.Some? && d.value.complete
  }

  /** A complete dataset is in the target or in its backup. */
  predicate Available(fs: Fs) {
    CompleteDir(fs.dst) || CompleteDir(fs.backup)
  }

  /** The old dataset is in place, or in the backup of a missing target, or the new one is in place. */
  predicate OldOrNew(fs: Fs, was: Dir, sha: Label) {
    || fs.dst == Some(was)
    || (fs.dst == None && fs.backup == Some(was))
    || (fs.dst.Some? && fs.dst.value.sha == sha && fs.dst.value.complete)
  }

  predicate AllStates(states: seq<Fs>, was: Dir, sha: Label) {
    forall i :: 0 <= i < |states| ==> OldOrNew(states[i], was, sha)
  }

  /**
    A swap that begins with a target in place: at every point the old or the new dataset is complete in
    the target or its backup. Success puts the new one in place. Failure leaves the old one there, unless
    moving the new one in and rolling back both failed; then the old one is in the backup.
   */
  lemma SwapIsSafe(fs: Fs, a: Answers, was: Dir, sha: Label)
    requires fs.dst == Some(was) && fs.src == Some(Dir(sha, true, None))
    ensures var o := ReplaceDir(fs, a);
      var end := After(fs, o);
      && AllStates(o.trace, was, sha)
      && (o.ok ==> end.dst == Some(Dir(sha, true, None)))
      && (!o.ok ==> end.dst == Some(was) || (end.dst == None && end.backup == Some(was) && !a.intoPlace && !a.rollback))
  {
  }

  /** Whether a swap has all the answers it needs: the backup out of the way, and the new directory moved in. */
  predicate SwapPossible(fs: Fs, a: Answers) {
    && (fs.backup.None? || a.stale.finished)
    && a.intoPlace && if fs.dst.Some? then a.toBackup else a.makeParent
  }

  /** A swap succeeds exactly when it has them; leftovers of the old dataset do not make it fail. */
  lemma SwapSucceedsIff(fs: Fs, a: Answers)
    ensures ReplaceDir(fs, a).ok <==> SwapPossible(fs, a)
    ensures var end := After(fs, ReplaceDir(fs, a));
      ReplaceDir(fs, a).ok ==> end.dst == fs.src && end.src == None && (a.cleanup.finished ==> end.backup == None)
  {
  }

  predicate InstallPossible(fs: Fs, tag: Label, a: Answers) {
    SwapPossible(fs, a) && a.written.Some? && a.written.value >= |tag|
  }

  /** An installation succeeds exactly when the swap does and the whole marker is written. */
  lemma InstallSucceedsIff(fs: Fs, sha: Label, tag: Label, a: Answers)
    ensures Install(fs, sha, tag, a).ok <==> InstallPossible(fs, tag, a)
  {
    SwapSucceedsIff(fs.(src := Some(Dir(sha, true, None))), a);
  }

  lemma MarkerKeeps(fs: Fs, tag: Label, written: Option<nat>, was: Dir, sha: Label)
    requires fs.dst.Some? && fs.dst.value.sha == sha && fs.dst.value.complete
    ensures AllStates(WriteMarker(fs, tag, written).trace, was, sha)
  {
  }

  /** The same over the whole installation, the writing of the marker included. */
  lemma InstallIsSafe(fs: Fs, a: Answers, was: Dir, sha: Label, tag: Label)
    requires fs.dst == Some(was)
    ensures AllStates(Install(fs, sha, tag, a).trace, was, sha)
  {
    var start := fs.(src := Some(Dir(sha, true, None)));
    SwapIsSafe(start, a, was, sha);
    var swap := ReplaceDir(start, a);
    if swap.ok {
      MarkerKeeps(After(start, swap), tag, a.written, was, sha);
    }
  }

  predicate AlwaysAvailable(o: Outcome) {
    forall i :: 0 <= i < |o.trace| ==> Available(o.trace[i])
  }

  /** Starting from an available dataset, availability survives every course exactly when the target is there. */
  lemma AvailableIff(fs: Fs, sha: Label, tag: Label)
    requires Available(fs) && (fs.dst.Some? ==> fs.dst.value.complete)
    ensures (forall a: Answers :: AlwaysAvailable(Install(fs, sha, tag, a))) <==> fs.dst.Some?
  {
    if fs.dst.Some? {
      forall a: Answers
        ensures AlwaysAvailable(Install(fs, sha, tag, a))
      {
        InstallIsSafe(fs, a, fs.dst.value, sha, tag);
        var o := Install(fs, sha, tag, a);
        forall i | 0 <= i < |o.trace|
          ensures Available(o.trace[i])
        {
          assert OldOrNew(o.trace[i], fs.dst.value, sha);
        }
      }
    } else {
      var r := Removal(fs.backup.value.(complete := false), true);
      var a := Answers(r, true, true, true, true, r, None);
      var o := Install(fs, sha, tag, a);
      assert !Available(o.trace[0]);
    }
  }

  /** How that state comes about: both renames of a rollback fail, and the next call deletes the only copy. */
  lemma FailedRollbackLosesData(was: Dir, sha: Label, next: Label)
    requires was.complete
    ensures var start := Fs(None, Some(was), None);
      var keep := Removal(was, true);
      var failed := Install(start, sha, sha, Answers(keep, true, true, false, false, keep, None));
      var left := After(start, failed);
      var again := Install(left, next, next, Answers(keep, true, true, false, false, keep, None));
      && !failed.ok && left.dst == None && left.backup == Some(was)
      && !again.ok && !Available(After(left, again))
  {
  }

  // ---------------------------------------------------------------- the version marker

  predicate IsSha(s: string) {
    |s| == SHA_LENGTH
  }

  /** A marker that could be a commit identifier is the one of the dataset it lies in. */
  predicate Truthful(d: Option<Dir>) {
    d.Some? && d.value.marker.Some? && IsSha(d.value.marker.value) ==> d.value.marker.value == d.value.sha
  }

  /** No state of an installation under this label can be mistaken for another commit. */
  predicate Honest(sha: Label, tag: Label) {
    |tag| >= SHA_LENGTH ==> tag[..SHA_LENGTH] == sha
  }

  /** Targets are complete, and no directory carries the marker of another dataset. */
  predicate Sound(fs: Fs) {
    && (fs.dst.Some? ==> fs.dst.value.complete)
    && Truthful(fs.dst)
  }

  predicate AllSound(states: seq<Fs>) {
    forall i :: 0 <= i < |states| ==> Sound(states[i])
  }

  lemma ReplaceSound(fs: Fs, a: Answers, sha: Label)
    requires Sound(fs) && fs.src == Some(Dir(sha, true, None))
    ensures var o := ReplaceDir(fs, a);
      AllSound(o.trace) && (o.ok ==> After(fs, o).dst == Some(Dir(sha, true, None)))
  {
  }

  lemma WriteSound(fs: Fs, tag: Label, written: Option<nat>, sha: Label)
    requires fs.dst == Some(Dir(sha, true, None)) && Honest(sha, tag)
    ensures AllSound(WriteMarker(fs, tag, written).trace)
  {
  }

  lemma InstallSound(fs: Fs, sha: Label, tag: Label, a: Answers)
    requires Sound(fs) && Honest(sha, tag)
    ensures AllSound(Install(fs, sha, tag, a).trace)
  {
    var start := fs.(src := Some(Dir(sha, true, None)));
    ReplaceSound(start, a, sha);
    var swap := ReplaceDir(start, a);
    if swap.ok {
      WriteSound(After(start, swap), tag, a.written, sha);
    }
  }

  /** An installation keeps markers truthful in every course exactly when its label is honest. */
  lemma TruthfulIff(fs: Fs, sha: Label, tag: Label)
    requires Sound(fs)
    ensures (forall a: Answers :: AllSound(Install(fs, sha, tag, a).trace)) <==> Honest(sha, tag)
  {
    if Honest(sha, tag) {
      forall a: Answers
        ensures AllSound(Install(fs, sha, tag, a).trace)
      {
        InstallSound(fs, sha, tag, a);
      }
    } else {
      var r := Removal(Dir(sha, true, None), true);
      var a := Answers(r, true, true, true, true, r, Some(SHA_LENGTH));
      var start := fs.(src := Some(Dir(sha, true, None)));
      ReplaceSound(start, a, sha);
      var swap := ReplaceDir(start, a);
      var marker := WriteMarker(After(start, swap), tag, a.written);
      var o := Install(fs, sha, tag, a);
      assert !Sound(marker.trace[SHA_LENGTH]);
      assert o.trace[|swap.trace| + SHA_LENGTH] == marker.trace[SHA_LENGTH];
    }
  }

  /** One call in the life of the server: an installation, and the state it ends or dies in. */
  datatype Call = Call(sha: Label, tag: Label, answers: Answers, diedAt: Option<nat>)

  function Called(fs: Fs, call: Call): Fs {
    var o := Install(fs, call.sha, call.tag, call.answers);
    if call.diedAt.Some? && call.diedAt.value < |o.trace| then o.trace[call.diedAt.value] else After(fs, o)
  }

  function RunOf(fs: Fs, calls: seq<Call>): Fs {
    if calls == [] then fs else Called(RunOf(fs, calls[..|calls| - 1]), calls[|calls| - 1])
  }

  /**
    Over whole runs of installations, failures and crashes: the target, when present, is complete, and
    when the marker equals the deployed commit the installed dataset is that commit.
   */
  lemma {:induction false} UpToDateIsSound(fs: Fs, calls: seq<Call>, deployed: Label)
    requires Sound(fs) && IsSha(deployed)
    requires forall i :: 0 <= i < |calls| ==> Honest(calls[i].sha, calls[i].tag)
    ensures var end := RunOf(fs, calls);
      && Sound(end)
      && (LocalSha(end) == Some(deployed) ==> end.dst.Some? && end.dst.value.sha == deployed && end.dst.value.complete)
  {
    if calls != [] {
      var init, call := calls[..|calls| - 1], calls[|calls| - 1];
      UpToDateIsSound(fs, init, deployed);
      InstallSound(RunOf(fs, init), call.sha, call.tag, call.answers);
    }
  }

  // ---------------------------------------------------------------- synchronisation on startup

  datatype Sync = Unresolved | UpToDate | Installed | Failed

  /** Compares the marker with the deployed commit and installs it when they differ. */
  function SyncOnStartup(fs: Fs, deployed: Option<Label>, a: Answers): (Sync, Fs) {
    match deployed
    case None => (Unresolved, fs)
    case Some(sha) =>
      if LocalSha(fs) == Some(sha) then (UpToDate, fs)
      else
        var o := Install(fs, sha, sha, a);
        (if o.ok then Installed else Failed, After(fs, o))
  }

  lemma InstallMarks(fs: Fs, sha: Label, tag: Label, a: Answers)
    requires Sound(fs) && Install(fs, sha, tag, a).ok
    ensures After(fs, Install(fs, sha, tag, a)).dst == Some(Dir(sha, true, Some(tag)))
  {
    var start := fs.(src := Some(Dir(sha, true, None)));
    ReplaceSound(start, a, sha);
    var swap := ReplaceDir(start, a);
    var marker := WriteMarker(After(start, swap), tag, a.written);
    assert tag[..|tag|] == tag;
    assert Install(fs, sha, tag, a).trace == swap.trace + marker.trace;
  }

  /** Whenever a sync reports success or an up-to-date copy, the deployed dataset is the one on disk. */
  lemma SyncConverges(fs: Fs, sha: Label, a: Answers)
    requires Sound(fs) && IsSha(sha)
    ensures var (result, end) := SyncOnStartup(fs, Some(sha), a);
      result == UpToDate || result == Installed ==> end.dst == Some(Dir(sha, true, Some(sha)))
    ensures var (result, end) := SyncOnStartup(fs, Some(sha), a);
      result == Installed ==> SyncOnStartup(end, Some(sha), a).0 == UpToDate
  {
    if LocalSha(fs) != Some(sha) && Install(fs, sha, sha, a).ok {
      InstallMarks(fs, sha, sha, a);
    }
  }

  /** What a sync reports: the answer of the resolver, the marker and the installation decide, and nothing else. */
  lemma SyncReports(fs: Fs, deployed: Option<Label>, a: Answers)
    ensures var (result, end) := SyncOnStartup(fs, deployed, a);
      && (result == Unresolved <==> deployed.None?)
      && (result == UpToDate <==> deployed.Some? && LocalSha(fs) == deployed)
      && (result == Installed <==> deployed.Some? && LocalSha(fs) != deployed && InstallPossible(fs, deployed.value, a))
      && (result == Unresolved || result == UpToDate ==> end == fs)
  {
    if deployed.Some? {
      InstallSucceedsIff(fs, deployed.value, deployed.value, a);
    }
  }
}
