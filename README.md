# Backup orchestration pipeline, modelled in Dafny

This project models the backup pipeline of `BackupManager` in
`automated-backup-solution.py`. A run does these steps in order:

1. It makes the run directory `backup_root/timestamp`.
2. It takes each configured source in order. A source whose path is missing
   fails with `"Source path does not exist"`. Any other source is archived to
   `{name}_{timestamp}.tar.gz` and then, if encryption is on, encrypted with
   gpg to `{archive}.gpg`. The plaintext is unlinked only after gpg succeeds.
   An exception from either stage becomes that source's failure, and the loop
   goes on to the next source.
3. It always prunes. Every immediate subdirectory of the backup root whose
   mtime is strictly below `now - retention_days*86400` is removed.
4. If notification is on, it builds an alert or success subject and a report
   body, and hands them to SMTP.
5. It returns the success list and the failure list.

The filesystem is a value, `map<Path, Node>`, where `Node = File | Dir(mtime)`.
`run_backup` takes this map in and gives a new map back. The model has no
classes: `BackupManager` never changes its own fields after it is built, and
the filesystem is the outside world.

Four foreign effects are oracles in a `World` value:
- the tar writer: the archive is written, or it raises (perhaps after creating the file);
- the gpg process, given its argument vector: it succeeds, or it raises;
- `shutil.rmtree`: it removes the tree, or it raises;
- the SMTP client: it delivers, or it raises.

The clock readings arrive in a `Clock` value: the mkdir time, the pruner's
`time.time()`, the two formatted dates, and the formatted elapsed time.

Modules, leaf first:
- `Wrappers` (wrappers.dfy): Option and Result.
- `Paths` (paths.dfy): path joining, immediate entries, subtrees.
- `Files` (files.dfy): nodes, `mkdir`, `rmtree`.
- `Decimal` (decimal.dfy): `str(n)` for counts, and reading it back.
- `Outcomes` (outcomes.dfy): success and failure entries.
- `Retention` (retention.dfy): the pruner.
- `Report` (report.dfy): subject and body.
- `Backup` (backup.dfy): the two stages and the orchestrator.

Behaviour of `automated-backup-solution.py` worth knowing, all of it modelled:
- Pruning is not best-effort. The `shutil.rmtree(item)` call at line 179 has
  no `try`. The first removal error escapes `run_backup`: the remaining
  expired directories stay, and lines 128-132 are never reached, so no
  notification is sent and nothing is returned (`RunBackup`,
  `CleanupOldBackups`).
- Nothing protects the current run directory from pruning. Lines 176-177
  compare times only. With `retention_days = 0` the directory made at line 98
  is removed whenever the clock has moved past its mtime
  (`CurrentRunSurvivesIff`, `ZeroRetentionPrunesCurrentRun`). A negative
  `retention_days` is accepted by `int()` at line 169 and prunes even fresher
  directories.
- Archives are not published atomically. `tarfile.open` at line 141 creates
  the file before anything is written, so a tar error after that leaves the
  incomplete file (`ArchiveFailed(_, leftPartial)`).
- The encrypted artifact is `{archive}.gpg` (line 152). It is the path the
  success entry records (lines 115-117), and the plaintext is unlinked once
  gpg has succeeded (line 160).
- The reason recorded for a gpg failure is `str(e)` of the re-raised
  `CalledProcessError` (lines 120-122, 165). gpg's stderr is only logged
  (line 164).
- `run_backup` raises on two kinds of error: a `mkdir` that meets an existing
  file (lines 95 and 98) and an `rmtree` error (line 179). Every other stage
  error is caught per source at lines 120-122.
- The source file has CRLF line endings. Python reads them as `\n`, so the
  body's triple-quoted literal (lines 204-214) holds `\n` line breaks, each
  followed by the literal's eight-space indentation.

## Model

| member | source | states |
|---|---|---|
| `Paths.ChildrenDisjoint` | automated-backup-solution.py:176-179 | two different entries listed by `iterdir()` never lie in each other's tree, so removing one leaves the others as they were |
| `Files.MakeDirectory` | automated-backup-solution.py:95-98 | `mkdir(exist_ok=True)` succeeds iff the path is not an existing file; afterwards the path is a directory, a new one carries the clock time, an existing one is unchanged, and no other entry changes |
| `Files.RemoveTrees` | automated-backup-solution.py:179 | `shutil.rmtree` of a set of directories: every entry inside any of them, the directory itself included, is gone, and every other entry is kept unchanged |
| `Files.RemoveTreesThenOne` | automated-backup-solution.py:176-179 | one more `rmtree` after a batch of them leaves the same tree as removing the whole batch at once |
| `Retention.Cutoff` | automated-backup-solution.py:174 | the cutoff is `now - retention_days * 86400` |
| `Retention.IsExpired` | automated-backup-solution.py:176-177 | an entry is pruned iff `iterdir()` lists it under the root, it is a directory, and its mtime is strictly below the cutoff |
| `Retention.Pruned` | automated-backup-solution.py:174-179 | the tree after a prune in which no `rmtree` raises: every expired immediate subdirectory removed with its contents |
| `Retention.CleanupOldBackups` | automated-backup-solution.py:167-179 | whatever order `iterdir()` gives: if no `rmtree` raises, the result is exactly the pruned tree; it reports a failure iff some expired directory's `rmtree` raises, and then the tree is the original minus some expired directories whose `rmtree` returned normally, the failing one not among them |
| `Retention.PrunedKeepsChild` | automated-backup-solution.py:176-177 | an immediate entry of the root survives iff it is not a directory with mtime strictly below the cutoff, and a survivor is unchanged |
| `Retention.PrunedDropsTree` | automated-backup-solution.py:179 | everything inside an expired directory is removed with it |
| `Retention.PrunedLeavesOutside` | automated-backup-solution.py:176-179 | no entry outside `root/` is touched by pruning |
| `Retention.NothingExpiredAfterPrune` | automated-backup-solution.py:176-179 | after pruning, no immediate subdirectory below the cutoff is left |
| `Retention.PruneIdempotent` | automated-backup-solution.py:174-179 | pruning again with the same `now` and no new runs leaves the same tree |
| `Retention.ZeroRetentionPrunesOlderDirectory` | automated-backup-solution.py:174-177 | with `retention_days = 0` the cutoff is `now`, so any immediate subdirectory stamped before `now` is removed |
| `Decimal.NatToString` | automated-backup-solution.py:199 | a count prints as a non-empty string of decimal digits without a leading zero |
| `Decimal.ParseNatToString` | automated-backup-solution.py:211-212 | reading a printed count back gives the count |
| `Decimal.NatToStringInjective` | automated-backup-solution.py:199 | different counts print differently |
| `Outcomes.OutcomesPartition` | automated-backup-solution.py:100-122 | every recorded outcome lands in exactly one of the two lists, so their lengths add up to the number of outcomes |
| `Outcomes.OutcomesConcat` | automated-backup-solution.py:104-122 | splitting the outcome sequence splits both lists the same way, so each list keeps recording order |
| `Outcomes.SuccessListed` | automated-backup-solution.py:117 | an entry is in the success list iff a success with that entry was recorded |
| `Outcomes.FailureListed` | automated-backup-solution.py:108-122 | an entry is in the failure list iff a failure with that entry was recorded |
| `Report.Subject` | automated-backup-solution.py:198-201 | `[ALERT] Backup job completed with {n} failures` when there are n > 0 failures, else `Backup job completed successfully - {date}` |
| `Report.SubjectAnnouncesFailures` | automated-backup-solution.py:198-201 | the subject is an alert iff the failure list is non-empty, and the alert announces exactly the number of failures |
| `Report.Counts` | automated-backup-solution.py:208-214 | the end of the elapsed line, then the summary lines with `str()` of the two counts, then the blank line and the indentation that close the literal |
| `Report.Summary` | automated-backup-solution.py:204-214 | the triple-quoted summary block: heading, underline, date, elapsed time, and the counts |
| `Report.SuccessLine` | automated-backup-solution.py:219 | a success line is `- {name}: {source} → {dest}` and a newline |
| `Report.FailureLine` | automated-backup-solution.py:224 | a failure line is `- {name}: {source} - Error: {error}` and a newline |
| `Report.Sections` | automated-backup-solution.py:216-226 | the success heading and lines only for a non-empty success list, then the failure heading and lines only for a non-empty failure list, then the fixed footer |
| `Report.ReportBody` | automated-backup-solution.py:204-226 | the body is the summary block followed by the sections |
| `Report.LeadingDigits` | automated-backup-solution.py:211-212 | the digit run found at the start of a string is all digits and is followed by a non-digit or the end |
| `Report.CountsReadBack` | automated-backup-solution.py:210-212 | the two summary count lines read back as exactly the counts printed into them |
| `Report.BodyCountsLists` | automated-backup-solution.py:204-214 | the body begins with the heading and then the summary counts, which read back as the lengths of the success and failure lists |
| `Report.LinesConcat` | automated-backup-solution.py:216-224 | the lines of a list split at any point are the lines of the first part followed by those of the second |
| `Report.LineAt` | automated-backup-solution.py:216-224 | a section holds entry i's line right after the lines of all earlier entries, in list order; this holds for the success lines and for the failure lines |
| `Report.AppendLines` | automated-backup-solution.py:218-219 | the `body +=` loop over a list appends the lines of all its entries in order (the failure loop at lines 223-224 is the same method with the failure line) |
| `Report.ComposeBody` | automated-backup-solution.py:204-226 | the body built step by step is the summary, then each section only when its list is non-empty, then the footer |
| `Report.SendNotification` | automated-backup-solution.py:181-239 | the message handed to SMTP carries the chosen subject and the full body; a delivery error is swallowed and only shows in `delivered` |
| `Backup.RunDirectory` | automated-backup-solution.py:97 | the run directory is `backup_root / timestamp` |
| `Backup.ArchivePath` | automated-backup-solution.py:138-139 | the archive is `{name}_{timestamp}.tar.gz` inside the run directory |
| `Backup.EncryptedPath` | automated-backup-solution.py:152 | the encrypted artifact is the archive path with `.gpg` appended |
| `Backup.GpgCommand` | automated-backup-solution.py:153 | gpg is called as `gpg --recipient R --output {archive}.gpg --encrypt {archive}` |
| `Backup.ArtifactsInsideRunDirectory` | automated-backup-solution.py:97-98 | a source's plain and encrypted artifacts both lie below `backup_root/timestamp` |
| `Backup.ArtifactsDistinct` | automated-backup-solution.py:138-139 | different source names give different archive names and different `.gpg` names, and a `.gpg` name never equals an archive name |
| `Backup.CreateArchive` | automated-backup-solution.py:134-145 | the archive path is `run_dir/{name}_{timestamp}.tar.gz`; when tar succeeds, that file is added and nothing else changes; a tar error is returned with its message, and leaves either the incomplete file or an unchanged tree |
| `Backup.EncryptArchive` | automated-backup-solution.py:147-165 | when gpg succeeds, the result is `archive + ".gpg"`, that file exists and the plaintext is gone; when gpg fails, its error is returned and the tree, plaintext included, is unchanged |
| `Backup.BackUpSource` | automated-backup-solution.py:104-122 | one pass of the loop: the outcome carries the source's name and path. A missing path fails with the fixed reason and changes nothing. The source is a success iff its path exists, tar writes the archive and, when encrypting, gpg succeeds; the recorded artifact (the archive, or its `.gpg` when encrypting) then exists. A tar error or gpg error is recorded with its message. The new tree is given exactly in each case: archive added; archive added then replaced by its `.gpg`; archive kept after a gpg error; incomplete archive or nothing after a tar error. Only this source's artifacts change |
| `Backup.ProcessSource` | automated-backup-solution.py:105-122 | the loop body, built from the two stage methods, produces exactly the outcome and tree of `BackUpSource` |
| `Backup.ProcessSources` | automated-backup-solution.py:100-122 | the `for` loop, appending to the two lists as it goes, leaves exactly the tree of the whole loop and the success and failure views of its outcomes |
| `Backup.ProcessAll` | automated-backup-solution.py:104-122 | the whole loop gives exactly one outcome per source |
| `Backup.OutcomesAligned` | automated-backup-solution.py:104-122 | outcome i carries the name and path of source i, so the outcomes follow configuration order |
| `Backup.ProcessAllTouchesArtifacts` | automated-backup-solution.py:104-122 | every entry the loop adds, removes or replaces is an artifact of some configured source |
| `Backup.ProcessOneMore` | automated-backup-solution.py:104-122 | handling one more source appends exactly that source's outcome and moves on to the tree its pass leaves |
| `Backup.ProcessPrefix` | automated-backup-solution.py:104-122 | the outcomes of the first k sources are the first k outcomes of the whole loop: a later source never changes an earlier outcome |
| `Backup.ProcessStep` | automated-backup-solution.py:104-122 | source i is handled by one loop pass on the tree the earlier sources left, and later sources come after it |
| `Backup.EveryOutcomeCounted` | automated-backup-solution.py:104-122 | the number of successes plus the number of failures equals the number of sources |
| `Backup.MissingSourceFails` | automated-backup-solution.py:106-109 | a source whose path is absent when its turn comes is recorded as `(name, path, "Source path does not exist")`, and the tree is left as it was |
| `Backup.ProcessAllStaysInRunDirectory` | automated-backup-solution.py:97-122 | the source loop changes nothing outside `backup_root/timestamp/`, not even the run directory's own entry |
| `Backup.Prepared` | automated-backup-solution.py:95-98 | the tree after `backup_root.mkdir(exist_ok=True, parents=True)` and then `backup_dir.mkdir(exist_ok=True)`, both stamped with the start time, or None when either raises |
| `Backup.Notice` | automated-backup-solution.py:128-129 | a message is built iff notification is enabled, and it carries the subject and body of the loop's two lists |
| `Backup.RunBackup` | automated-backup-solution.py:88-132 | if either `mkdir` meets an existing file, the run raises; otherwise the source loop runs and the pruner always follows it; the run completes iff no `rmtree` raises; a completed run returns the loop's lists and leaves exactly the pruned tree, with a notice iff notification is enabled, which no SMTP reply changes; a removal error raises with the tree partly pruned and no notice |
| `Backup.CurrentRunSurvivesIff` | automated-backup-solution.py:97-98 | a run directory that this run created survives its own prune iff its mtime is at or after the cutoff (the prune itself is at lines 174-177) |
| `Backup.ZeroRetentionPrunesCurrentRun` | automated-backup-solution.py:174-177 | with `retention_days = 0`, a run directory created before the pruner reads the clock is removed by the same run |

## Left out

- Tar and gzip contents: the `tarfile` work of lines 141-142 is an oracle that writes the archive or raises. The archive's contents and the extract round trip are not modelled.
- The gpg process (line 156): only its outcome and the raised exception's text are kept. The recipient reaches it only through the argument vector. The stderr that is logged at line 164 is left out.
- SMTP transport (lines 185-191 and 230-237): only the built subject and body, and the rule that delivery errors are swallowed.
- Configuration bootstrap, the default config and `sys.exit` (lines 28-86); logging everywhere; the CLI and its dry run (lines 242-263). The configuration arrives parsed in `Config`. Parse errors such as a missing option or a bad boolean or integer are not modelled. Neither is configparser's key lower-casing or its DEFAULT section.
- Clock and formatting: `time.time()`, `strftime` and `:.2f` (lines 90, 93, 131, 201, 207-208) are parameters. The timestamp and the dates are strings; mtimes and `now` are whole seconds.
- Files.MakeDirectory: `parents=True` creates only the backup root, not missing ancestors. Only "exists and is not a directory" is a failure; permission errors are not modelled.
- Directory mtimes change only when a directory is made. Writing or removing files inside a directory does not update its mtime.
- Paths are plain strings joined with `/`. There is no normalisation of trailing separators, `.`, `..` or symbolic links. The filesystem map does not require every entry's parent to exist.
- Retention.CleanupOldBackups: an `rmtree` that raises is modelled as having removed nothing of that tree. A real `rmtree` may have removed part of it before the error.
- Backup.EncryptArchive: a gpg failure is modelled as writing no output file, and the `unlink` after a gpg success is taken to succeed.
- Backup.CreateArchive: the tar oracle answers per (source path, archive path) pair, so it cannot answer the same call differently inside one run. Calls in one run differ whenever source names differ.
- Backup.RunBackup: the elapsed-time log line (line 131) is left out. `delivered` from `SendNotification` is dropped, as the source only logs it.
