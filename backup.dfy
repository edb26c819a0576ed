/**
 * `BackupManager.run_backup` and the two per-source stages it calls,
 * `_create_archive` and `_encrypt_archive`, over the abstract filesystem.
 * The tar writer, the gpg process, `shutil.rmtree` and the SMTP client are
 * oracles gathered in a `World`; the clock readings arrive in a `Clock`.
 */
module Backup {
  import opened Wrappers
  import opened Paths
  import opened Files
  import opened Outcomes
  import opened Retention
  import opened Report

  /** One entry of the `[Sources]` section: a name and the directory to back up. */
  datatype Source = Source(name: string, path: Path)

  /** The settings `run_backup` reads, already parsed. */
  datatype Config = Config(
    backupRoot: Path,
    retentionDays: int,
    sources: seq<Source>,
    encryption: bool,
    recipient: string,
    notification: bool)

  /** What `tarfile` does with one source: the archive is written, or it raises, possibly after creating the file. */
  datatype ArchiveReply = Written | ArchiveFailed(message: string, leftPartial: bool)

  /** What the `gpg` child process does; `message` is the text of the exception it raises. */
  datatype GpgReply = GpgSucceeded | GpgFailed(message: string)

  /** The foreign effects, each answering for its arguments. */
  datatype World = World(
    tar: (Path, Path) -> ArchiveReply,
    gpg: seq<string> -> GpgReply,
    rmtree: Path -> Option<string>,
    smtp: Message -> Option<string>)

  /**
   * The clock readings of one run: the moment the directories are made, the
   * `time.time()` the pruner reads, the two formatted dates of the report and
   * the formatted elapsed time.
   */
  datatype Clock = Clock(started: int, pruneTime: int, subjectDate: string, reportDate: string, elapsed: string)

  /** The exceptions that escape `run_backup`. */
  datatype RunError = NotADirectory(path: Path) | RemovalFailed(path: Path, message: string)

  /** `run_backup` returns its two lists, or raises; `notice` is the message handed to SMTP, if any. */
  datatype RunResult =
    | Completed(successes: seq<SuccessEntry>, failures: seq<FailureEntry>, notice: Option<Message>)
    | Raised(error: RunError)

  const MissingSource := "Source path does not exist"

  function RunDirectory(root: Path, timestamp: string): Path
  {
    Join(root, timestamp)
  }

  function ArchivePath(runDir: Path, name: string, timestamp: string): Path
  {
    Join(runDir, name + "_" + timestamp + ".tar.gz")
  }

  function EncryptedPath(archive: Path): Path
  {
    archive + ".gpg"
  }

  function GpgCommand(recipient: string, archive: Path): seq<string>
  {
    ["gpg", "--recipient", recipient, "--output", EncryptedPath(archive), "--encrypt", archive]
  }

  /** `p` is the plain or the encrypted artifact of source `name` in this run. */
  predicate IsArtifactOf(runDir: Path, timestamp: string, name: string, p: Path)
  {
    p == ArchivePath(runDir, name, timestamp) || p == EncryptedPath(ArchivePath(runDir, name, timestamp))
  }

  /** `p` was added, removed or replaced between `fs` and `fs'`. */
  predicate Touched(fs: FileTree, fs': FileTree, p: Path)
  {
    (p in fs) != (p in fs') || (p in fs && p in fs' && fs[p] != fs'[p])
  }

  /** The run directory's artifacts lie strictly below it. */
  lemma ArtifactsInsideRunDirectory(runDir: Path, timestamp: string, name: string, p: Path)
    requires IsArtifactOf(runDir, timestamp, name, p)
    ensures runDir + "/" <= p
  {
    var archive := ArchivePath(runDir, name, timestamp);
    assert (runDir + "/") + (name + "_" + timestamp + ".tar.gz") == archive;
    assert archive <= EncryptedPath(archive);
  }

  /** Each source's artifact has its own name, and an encrypted artifact never collides with a plain one. */
  lemma ArtifactsDistinct(runDir: Path, timestamp: string, n: string, m: string)
    ensures ArchivePath(runDir, n, timestamp) == ArchivePath(runDir, m, timestamp) ==> n == m
    ensures EncryptedPath(ArchivePath(runDir, n, timestamp)) == EncryptedPath(ArchivePath(runDir, m, timestamp)) ==> n == m
    ensures EncryptedPath(ArchivePath(runDir, n, timestamp)) != ArchivePath(runDir, m, timestamp)
  {
    var a, b := ArchivePath(runDir, n, timestamp), ArchivePath(runDir, m, timestamp);
    var tail := "_" + timestamp + ".tar.gz";
    if a == b {
      assert |n| == |m|;
      assert a[|runDir| + 1..|runDir| + 1 + |n|] == n;
      assert b[|runDir| + 1..|runDir| + 1 + |m|] == m;
    }
    if EncryptedPath(a) == EncryptedPath(b) {
      assert a == EncryptedPath(a)[..|a|] == EncryptedPath(b)[..|b|] == b;
      assert a[|runDir| + 1..|runDir| + 1 + |n|] == n;
      assert b[|runDir| + 1..|runDir| + 1 + |m|] == m;
    }
    assert EncryptedPath(a)[|EncryptedPath(a)| - 1] == 'g';
    assert b[|b| - 1] == 'z';
  }

  /**
   * `_create_archive`: the archive of `source` is `{name}_{timestamp}.tar.gz`
   * in the run directory. A tar error propagates; if it came after the file
   * was opened, the incomplete file stays.
   */
  method CreateArchive(fs: FileTree, name: string, source: Path, runDir: Path, timestamp: string,
                       tar: (Path, Path) -> ArchiveReply)
    returns (fs': FileTree, r: Result<Path, string>)
    ensures var archive := ArchivePath(runDir, name, timestamp);
            var reply := tar(source, archive);
            && (r.Ok? <==> reply.Written?)
            && (r.Ok? ==> r.value == archive)
            && (r.Err? ==> r.error == reply.message)
            && (reply.Written? || reply.leftPartial ==> fs' == fs[archive := File])
            && (reply.ArchiveFailed? && !reply.leftPartial ==> fs' == fs)
  {
    var archive := ArchivePath(runDir, name, timestamp);
    match tar(source, archive)
    case Written =>
      fs' := fs[archive := File];
      r := Ok(archive);
    case ArchiveFailed(message, leftPartial) =>
      fs' := if leftPartial then fs[archive := File] else fs;
      r := Err(message);
  }

  /**
   * `_encrypt_archive`: runs gpg to write `{archive}.gpg`; only once gpg has
   * succeeded is the plaintext unlinked. A gpg error is re-raised and the
   * plaintext stays.
   */
  method EncryptArchive(fs: FileTree, archive: Path, recipient: string, gpg: seq<string> -> GpgReply)
    returns (fs': FileTree, r: Result<Path, string>)
    ensures var reply := gpg(GpgCommand(recipient, archive));
            && (r.Ok? <==> reply.GpgSucceeded?)
            && (r.Ok? ==> r.value == EncryptedPath(archive)
                          && r.value in fs' && fs'[r.value] == File && archive !in fs'
                          && fs' == fs[EncryptedPath(archive) := File] - {archive})
            && (r.Err? ==> r.error == reply.message && fs' == fs)
  {
    var encrypted := EncryptedPath(archive);
    match gpg(GpgCommand(recipient, archive))
    case GpgSucceeded =>
      assert |encrypted| == |archive| + 4;
      fs' := fs[encrypted := File];
      fs' := fs' - {archive};
      r := Ok(encrypted);
    case GpgFailed(message) =>
      fs' := fs;
      r := Err(message);
  }

  /** One pass of the `for` loop of `run_backup`: the outcome of `src` and the filesystem after it. */
  function BackUpSource(cfg: Config, w: World, runDir: Path, timestamp: string, fs: FileTree, src: Source)
    : (r: (SourceOutcome, FileTree))
    ensures r.0.Name() == src.name && r.0.Source() == src.path
    ensures src.path !in fs ==> r.0 == Failed(FailureEntry(src.name, src.path, MissingSource)) && r.1 == fs
    ensures var archive := ArchivePath(runDir, src.name, timestamp);
            r.0.Succeeded? ==>
              && src.path in fs && w.tar(src.path, archive).Written?
              && r.0.success.artifact == (if cfg.encryption then EncryptedPath(archive) else archive)
              && r.0.success.artifact in r.1 && r.1[r.0.success.artifact] == File
              && (cfg.encryption ==> archive !in r.1)
    ensures var archive := ArchivePath(runDir, src.name, timestamp);
            src.path in fs && w.tar(src.path, archive).ArchiveFailed? ==>
              r.0 == Failed(FailureEntry(src.name, src.path, w.tar(src.path, archive).message))
    ensures var archive := ArchivePath(runDir, src.name, timestamp);
            var gpg := w.gpg(GpgCommand(cfg.recipient, archive));
            src.path in fs && w.tar(src.path, archive).Written? && cfg.encryption && gpg.GpgFailed? ==>
              r.0 == Failed(FailureEntry(src.name, src.path, gpg.message))
              && archive in r.1 && r.1[archive] == File
    ensures var archive := ArchivePath(runDir, src.name, timestamp);
            src.path in fs && w.tar(src.path, archive).Written?
            && (!cfg.encryption || w.gpg(GpgCommand(cfg.recipient, archive)).GpgSucceeded?) ==>
              r.0.Succeeded?
    ensures var archive := ArchivePath(runDir, src.name, timestamp);
            var reply := w.tar(src.path, archive);
            src.path in fs && reply.ArchiveFailed? ==>
              r.1 == (if reply.leftPartial then fs[archive := File] else fs)
    ensures var archive := ArchivePath(runDir, src.name, timestamp);
            src.path in fs && w.tar(src.path, archive).Written? && !cfg.encryption ==>
              r.1 == fs[archive := File]
    ensures var archive := ArchivePath(runDir, src.name, timestamp);
            var gpg := w.gpg(GpgCommand(cfg.recipient, archive));
            src.path in fs && w.tar(src.path, archive).Written? && cfg.encryption ==>
              r.1 == if gpg.GpgSucceeded? then fs[archive := File][EncryptedPath(archive) := File] - {archive}
                     else fs[archive := File]
    ensures forall p | Touched(fs, r.1, p) :: IsArtifactOf(runDir, timestamp, src.name, p)
  {
    if src.path !in fs then
      (Failed(FailureEntry(src.name, src.path, MissingSource)), fs)
    else
      var archive := ArchivePath(runDir, src.name, timestamp);
      match w.tar(src.path, archive)
      case ArchiveFailed(message, leftPartial) =>
        (Failed(FailureEntry(src.name, src.path, message)), if leftPartial then fs[archive := File] else fs)
      case Written =>
        var written := fs[archive := File];
        if !cfg.encryption then
          (Succeeded(SuccessEntry(src.name, src.path, archive)), written)
        else
          match w.gpg(GpgCommand(cfg.recipient, archive))
          case GpgFailed(message) =>
            (Failed(FailureEntry(src.name, src.path, message)), written)
          case GpgSucceeded =>
            var encrypted := EncryptedPath(archive);
            assert |encrypted| == |archive| + 4;
            (Succeeded(SuccessEntry(src.name, src.path, encrypted)), written[encrypted := File] - {archive})
  }

  /** The source loop over `sources`, in configuration order, threading the filesystem through. */
  function ProcessAll(cfg: Config, w: World, runDir: Path, timestamp: string, fs: FileTree, sources: seq<Source>)
    : (r: (seq<SourceOutcome>, FileTree))
    ensures |r.0| == |sources|
    decreases |sources|
  {
    if sources == [] then ([], fs)
    else
      var init := sources[..|sources| - 1];
      var (outs, mid) := ProcessAll(cfg, w, runDir, timestamp, fs, init);
      var (o, next) := BackUpSource(cfg, w, runDir, timestamp, mid, sources[|sources| - 1]);
      (outs + [o], next)
  }

  /** The loop's outcomes line up with the sources, in configuration order, by name and path. */
  lemma OutcomesAligned(cfg: Config, w: World, runDir: Path, timestamp: string, fs: FileTree,
                          sources: seq<Source>, i: nat)
    requires i < |sources|
    ensures var o := ProcessAll(cfg, w, runDir, timestamp, fs, sources).0[i];
            o.Name() == sources[i].name && o.Source() == sources[i].path
  {
    ProcessStep(cfg, w, runDir, timestamp, fs, sources, i);
  }

  /** Every entry the source loop adds, removes or replaces is an artifact of some configured source. */
  lemma {:induction false} ProcessAllTouchesArtifacts(cfg: Config, w: World, runDir: Path, timestamp: string,
                                                      fs: FileTree, sources: seq<Source>, p: Path)
    requires Touched(fs, ProcessAll(cfg, w, runDir, timestamp, fs, sources).1, p)
    ensures exists i | 0 <= i < |sources| :: IsArtifactOf(runDir, timestamp, sources[i].name, p)
    decreases |sources|
  {
    var n := |sources|;
    if n > 0 {
      var init := sources[..n - 1];
      var mid := ProcessAll(cfg, w, runDir, timestamp, fs, init).1;
      var next := BackUpSource(cfg, w, runDir, timestamp, mid, sources[n - 1]).1;
      assert ProcessAll(cfg, w, runDir, timestamp, fs, sources).1 == next;
      if Touched(mid, next, p) {
        assert IsArtifactOf(runDir, timestamp, sources[n - 1].name, p);
      } else {
        ProcessAllTouchesArtifacts(cfg, w, runDir, timestamp, fs, init, p);
        var i :| 0 <= i < n - 1 && IsArtifactOf(runDir, timestamp, init[i].name, p);
        assert init[i] == sources[i];
      }
    }
  }

  /** One more source extends the loop's outcomes by that source's pass on the filesystem left so far. */
  lemma ProcessOneMore(cfg: Config, w: World, runDir: Path, timestamp: string, fs: FileTree,
                       sources: seq<Source>, i: nat)
    requires i < |sources|
    ensures var (outs, mid) := ProcessAll(cfg, w, runDir, timestamp, fs, sources[..i]);
            var (o, next) := BackUpSource(cfg, w, runDir, timestamp, mid, sources[i]);
            ProcessAll(cfg, w, runDir, timestamp, fs, sources[..i + 1]) == (outs + [o], next)
  {
    assert sources[..i + 1][..i] == sources[..i];
  }

  /** The outcomes of the first `k` sources are the first `k` outcomes of the whole loop. */
  lemma {:induction false} ProcessPrefix(cfg: Config, w: World, runDir: Path, timestamp: string, fs: FileTree,
                                         sources: seq<Source>, k: nat)
    requires k <= |sources|
    ensures ProcessAll(cfg, w, runDir, timestamp, fs, sources[..k]).0
              == ProcessAll(cfg, w, runDir, timestamp, fs, sources).0[..k]
    decreases |sources|
  {
    var n := |sources|;
    if k == n {
      assert sources[..k] == sources;
    } else {
      var init := sources[..n - 1];
      ProcessPrefix(cfg, w, runDir, timestamp, fs, init, k);
      assert init[..k] == sources[..k];
      var outs := ProcessAll(cfg, w, runDir, timestamp, fs, init).0;
      var o := BackUpSource(cfg, w, runDir, timestamp, ProcessAll(cfg, w, runDir, timestamp, fs, init).1,
                            sources[n - 1]).0;
      assert ProcessAll(cfg, w, runDir, timestamp, fs, sources).0 == outs + [o];
      assert (outs + [o])[..k] == outs[..k];
    }
  }

  /** Source `i` is handled by one loop pass on the filesystem the earlier sources left. */
  lemma ProcessStep(cfg: Config, w: World, runDir: Path, timestamp: string, fs: FileTree,
                    sources: seq<Source>, i: nat)
    requires i < |sources|
    ensures var before := ProcessAll(cfg, w, runDir, timestamp, fs, sources[..i]).1;
            var after := ProcessAll(cfg, w, runDir, timestamp, fs, sources[..i + 1]).1;
            (ProcessAll(cfg, w, runDir, timestamp, fs, sources).0[i], after)
              == BackUpSource(cfg, w, runDir, timestamp, before, sources[i])
  {
    ProcessOneMore(cfg, w, runDir, timestamp, fs, sources, i);
    ProcessPrefix(cfg, w, runDir, timestamp, fs, sources, i + 1);
  }

  /** Every configured source yields exactly one outcome, success or failure. */
  lemma EveryOutcomeCounted(cfg: Config, w: World, runDir: Path, timestamp: string, fs: FileTree, sources: seq<Source>)
    ensures var outs := ProcessAll(cfg, w, runDir, timestamp, fs, sources).0;
            |Successes(outs)| + |Failures(outs)| == |sources|
  {
    OutcomesPartition(ProcessAll(cfg, w, runDir, timestamp, fs, sources).0);
  }

  /** A source whose path is missing fails with the fixed reason and leaves the filesystem as it was. */
  lemma MissingSourceFails(cfg: Config, w: World, runDir: Path, timestamp: string, fs: FileTree,
                           sources: seq<Source>, i: nat)
    requires i < |sources|
    requires sources[i].path !in ProcessAll(cfg, w, runDir, timestamp, fs, sources[..i]).1
    ensures ProcessAll(cfg, w, runDir, timestamp, fs, sources).0[i]
              == Failed(FailureEntry(sources[i].name, sources[i].path, MissingSource))
    ensures ProcessAll(cfg, w, runDir, timestamp, fs, sources[..i + 1]).1
              == ProcessAll(cfg, w, runDir, timestamp, fs, sources[..i]).1
  {
    ProcessStep(cfg, w, runDir, timestamp, fs, sources, i);
  }

  /** The source loop changes nothing outside the run directory, the run directory's own entry included. */
  lemma ProcessAllStaysInRunDirectory(cfg: Config, w: World, runDir: Path, timestamp: string, fs: FileTree,
                                      sources: seq<Source>, p: Path)
    requires !(runDir + "/" <= p)
    ensures var fs' := ProcessAll(cfg, w, runDir, timestamp, fs, sources).1;
            (p in fs' <==> p in fs) && (p in fs ==> fs'[p] == fs[p])
  {
    var fs' := ProcessAll(cfg, w, runDir, timestamp, fs, sources).1;
    if Touched(fs, fs', p) {
      ProcessAllTouchesArtifacts(cfg, w, runDir, timestamp, fs, sources, p);
      var i :| 0 <= i < |sources| && IsArtifactOf(runDir, timestamp, sources[i].name, p);
      ArtifactsInsideRunDirectory(runDir, timestamp, sources[i].name, p);
    }
  }

  /**
   * The body of the source loop: the existence check, then the archive and,
   * when enabled, the encryption; an exception from either stage becomes the
   * source's failure.
   */
  method ProcessSource(cfg: Config, w: World, runDir: Path, timestamp: string, fs: FileTree, src: Source)
    returns (fs': FileTree, outcome: SourceOutcome)
    ensures (outcome, fs') == BackUpSource(cfg, w, runDir, timestamp, fs, src)
  {
    if src.path !in fs {
      fs', outcome := fs, Failed(FailureEntry(src.name, src.path, MissingSource));
      return;
    }
    var r;
    fs', r := CreateArchive(fs, src.name, src.path, runDir, timestamp, w.tar);
    if r.Ok? && cfg.encryption {
      fs', r := EncryptArchive(fs', r.value, cfg.recipient, w.gpg);
    }
    match r
    case Ok(artifact) =>
      outcome := Succeeded(SuccessEntry(src.name, src.path, artifact));
    case Err(message) =>
      outcome := Failed(FailureEntry(src.name, src.path, message));
  }

  /**
   * The `for` loop of `run_backup`: each source in configuration order, its
   * outcome appended to `successful_backups` or `failed_backups`.
   */
  method ProcessSources(cfg: Config, w: World, runDir: Path, timestamp: string, fs: FileTree)
    returns (fs': FileTree, successes: seq<SuccessEntry>, failures: seq<FailureEntry>)
    ensures var (outs, looped) := ProcessAll(cfg, w, runDir, timestamp, fs, cfg.sources);
            fs' == looped && successes == Successes(outs) && failures == Failures(outs)
  {
    fs' := fs;
    successes, failures := [], [];
    ghost var outs: seq<SourceOutcome> := [];
    for i := 0 to |cfg.sources|
      invariant (outs, fs') == ProcessAll(cfg, w, runDir, timestamp, fs, cfg.sources[..i])
      invariant successes == Successes(outs) && failures == Failures(outs)
    {
      var outcome;
      fs', outcome := ProcessSource(cfg, w, runDir, timestamp, fs', cfg.sources[i]);
      ProcessOneMore(cfg, w, runDir, timestamp, fs, cfg.sources, i);
      assert (outs + [outcome])[..|outs|] == outs;
      match outcome {
        case Succeeded(entry) =>
          successes := successes + [entry];
        case Failed(entry) =>
          failures := failures + [entry];
      }
      outs := outs + [outcome];
    }
    assert cfg.sources[..|cfg.sources|] == cfg.sources;
  }

  /** The message `_send_notification` builds, when notification is enabled. */
  function Notice(cfg: Config, clock: Clock, outs: seq<SourceOutcome>): Option<Message>
  {
    if cfg.notification then
      Some(Message(Subject(Failures(outs), clock.subjectDate),
                   ReportBody(clock.reportDate, clock.elapsed, Successes(outs), Failures(outs))))
    else None
  }

  /** The filesystem once both directories are made, or None when `mkdir` raises. */
  function Prepared(fs: FileTree, root: Path, timestamp: string, clock: Clock): Option<FileTree>
  {
    match MakeDirectory(fs, root, clock.started)
    case None => None
    case Some(made) => MakeDirectory(made, RunDirectory(root, timestamp), clock.started)
  }

  /**
   * `run_backup`. The run directory is made first; each source is then
   * handled in order and any stage error becomes that source's failure;
   * pruning always follows the loop, and an `rmtree` error escapes it, so
   * that no notification is sent; the notification is sent only when
   * enabled, and its delivery never changes what is returned.
   */
  method RunBackup(cfg: Config, w: World, fs: FileTree, timestamp: string, clock: Clock)
    returns (fs': FileTree, res: RunResult)
    ensures var root := cfg.backupRoot;
            MakeDirectory(fs, root, clock.started).None? ==> fs' == fs && res == Raised(NotADirectory(root))
    ensures var root := cfg.backupRoot;
            var made := MakeDirectory(fs, root, clock.started);
            made.Some? && Prepared(fs, root, timestamp, clock).None? ==>
              fs' == made.value && res == Raised(NotADirectory(RunDirectory(root, timestamp)))
    ensures var root, runDir := cfg.backupRoot, RunDirectory(cfg.backupRoot, timestamp);
            var prepared := Prepared(fs, root, timestamp, clock);
            var cutoff := Cutoff(clock.pruneTime, cfg.retentionDays);
            prepared.Some? ==>
              var (outs, looped) := ProcessAll(cfg, w, runDir, timestamp, prepared.value, cfg.sources);
              && (res.Completed? <==> PruneSucceeds(looped, root, cutoff, w.rmtree))
              && (res.Completed? ==>
                    && res.successes == Successes(outs)
                    && res.failures == Failures(outs)
                    && res.notice == Notice(cfg, clock, outs)
                    && fs' == Pruned(looped, root, cutoff))
              && (res.Raised? ==>
                    && res.error.RemovalFailed?
                    && PruneAborted(looped, root, cutoff, w.rmtree, fs', res.error.path, res.error.message))
  {
    var root := cfg.backupRoot;
    var made := MakeDirectory(fs, root, clock.started);
    if made.None? {
      fs', res := fs, Raised(NotADirectory(root));
      return;
    }
    var runDir := RunDirectory(root, timestamp);
    var prepared := MakeDirectory(made.value, runDir, clock.started);
    if prepared.None? {
      fs', res := made.value, Raised(NotADirectory(runDir));
      return;
    }
    fs' := prepared.value;

    var successes, failures;
    fs', successes, failures := ProcessSources(cfg, w, runDir, timestamp, fs');

    var failure;
    fs', failure := CleanupOldBackups(fs', root, cfg.retentionDays, clock.pruneTime, w.rmtree);
    if failure.Some? {
      res := Raised(RemovalFailed(failure.value.0, failure.value.1));
      return;
    }

    var notice := None;
    if cfg.notification {
      var msg, delivered := SendNotification(successes, failures, clock.subjectDate, clock.reportDate,
                                             clock.elapsed, w.smtp);
      notice := Some(msg);
    }
    res := Completed(successes, failures, notice);
  }

  /**
   * A run directory this run created survives the prune that ends the run
   * iff its mtime is not below the cutoff: the pruner compares times, it
   * never checks which directory is the current one.
   */
  lemma CurrentRunSurvivesIff(cfg: Config, w: World, fs: FileTree, timestamp: string, clock: Clock)
    requires IsComponent(timestamp)
    requires RunDirectory(cfg.backupRoot, timestamp) !in fs
    requires Prepared(fs, cfg.backupRoot, timestamp, clock).Some?
    ensures var runDir := RunDirectory(cfg.backupRoot, timestamp);
            var looped := ProcessAll(cfg, w, runDir, timestamp, Prepared(fs, cfg.backupRoot, timestamp, clock).value,
                                     cfg.sources).1;
            var cutoff := Cutoff(clock.pruneTime, cfg.retentionDays);
            runDir in Pruned(looped, cfg.backupRoot, cutoff) <==> clock.started >= cutoff
  {
    var root, runDir := cfg.backupRoot, RunDirectory(cfg.backupRoot, timestamp);
    var prepared := Prepared(fs, root, timestamp, clock).value;
    var made := MakeDirectory(fs, root, clock.started).value;
    assert runDir !in made by {
      assert made.Keys == fs.Keys + {root};
      assert |runDir| > |root|;
    }
    assert prepared[runDir] == Dir(clock.started);
    var looped := ProcessAll(cfg, w, runDir, timestamp, prepared, cfg.sources).1;
    assert |runDir + "/"| > |runDir|;
    ProcessAllStaysInRunDirectory(cfg, w, runDir, timestamp, prepared, cfg.sources, runDir);
    JoinIsChild(root, timestamp);
    PrunedKeepsChild(looped, root, Cutoff(clock.pruneTime, cfg.retentionDays), runDir);
  }

  /** With `retention_days = 0`, a run directory made before the prune reads the clock is itself pruned. */
  lemma ZeroRetentionPrunesCurrentRun(cfg: Config, w: World, fs: FileTree, timestamp: string, clock: Clock)
    requires IsComponent(timestamp) && cfg.retentionDays == 0 && clock.started < clock.pruneTime
    requires RunDirectory(cfg.backupRoot, timestamp) !in fs
    requires Prepared(fs, cfg.backupRoot, timestamp, clock).Some?
    ensures var runDir := RunDirectory(cfg.backupRoot, timestamp);
            var looped := ProcessAll(cfg, w, runDir, timestamp, Prepared(fs, cfg.backupRoot, timestamp, clock).value,
                                     cfg.sources).1;
            runDir !in Pruned(looped, cfg.backupRoot, Cutoff(clock.pruneTime, 0))
  {
    CurrentRunSurvivesIff(cfg, w, fs, timestamp, clock);
  }
}
