/**
 * The retention pruner, `_cleanup_old_backups`: every immediate subdirectory
 * of the backup root whose mtime is strictly below `now - retention_days*86400`
 * is removed with `shutil.rmtree`, which may raise.
 */
module Retention {
  import opened Paths
  import opened Files
  import opened Wrappers

  const SecondsPerDay := 86400

  /** The age threshold; `retention_days` is whatever integer the configuration holds. */
  function Cutoff(now: int, retentionDays: int): int
  {
    now - retentionDays * SecondsPerDay
  }

  /** The entries `root.iterdir()` lists. */
  function Children(fs: FileTree, root: Path): set<Path>
  {
    set p | p in fs && IsChild(root, p)
  }

  /** `item.is_dir() and item.stat().st_mtime < cutoff_time`. */
  predicate IsExpired(fs: FileTree, root: Path, cutoff: int, d: Path)
  {
    d in fs && IsChild(root, d) && fs[d].Dir? && fs[d].mtime < cutoff
  }

  /** The immediate subdirectories of `root` that the pruner deletes. */
  function ExpiredChildren(fs: FileTree, root: Path, cutoff: int): set<Path>
  {
    set d | d in fs && IsExpired(fs, root, cutoff, d)
  }

  /** The tree left once every expired subdirectory has been removed. */
  function Pruned(fs: FileTree, root: Path, cutoff: int): FileTree
  {
    RemoveTrees(fs, ExpiredChildren(fs, root, cutoff))
  }

  /** No `rmtree` the pruner calls raises. */
  predicate PruneSucceeds(fs: FileTree, root: Path, cutoff: int, rmtree: Path -> Option<string>)
  {
    forall d | d in ExpiredChildren(fs, root, cutoff) :: rmtree(d).None?
  }

  /**
   * What an aborted prune leaves: `rmtree(failed)` raised `message` on an
   * expired subdirectory, after some other expired subdirectories, each of
   * whose `rmtree` returned normally, were already removed.
   */
  ghost predicate PruneAborted(fs: FileTree, root: Path, cutoff: int, rmtree: Path -> Option<string>,
                               fs': FileTree, failed: Path, message: string)
  {
    && failed in ExpiredChildren(fs, root, cutoff)
    && rmtree(failed) == Some(message)
    && exists done: set<Path> ::
         && done <= ExpiredChildren(fs, root, cutoff) && failed !in done
         && (forall d | d in done :: rmtree(d).None?)
         && fs' == RemoveTrees(fs, done)
  }

  /**
   * `_cleanup_old_backups` with `time.time()` read as `now`. `iterdir()`
   * lists entries in no fixed order, so the loop takes them in any order;
   * an `rmtree` that raises ends the loop and the exception is reported in
   * `failure`.
   */
  method CleanupOldBackups(fs: FileTree, root: Path, retentionDays: int, now: int,
                           rmtree: Path -> Option<string>)
    returns (fs': FileTree, failure: Option<(Path, string)>)
    ensures failure.None? <==> PruneSucceeds(fs, root, Cutoff(now, retentionDays), rmtree)
    ensures failure.None? ==> fs' == Pruned(fs, root, Cutoff(now, retentionDays))
    ensures failure.Some? ==>
              PruneAborted(fs, root, Cutoff(now, retentionDays), rmtree, fs', failure.value.0, failure.value.1)
  {
    var cutoff := Cutoff(now, retentionDays);
    ghost var expired := ExpiredChildren(fs, root, cutoff);
    var todo := Children(fs, root);
    fs' := fs;
    failure := None;
    while todo != {}
      invariant todo <= Children(fs, root)
      invariant fs' == RemoveTrees(fs, expired - todo)
      invariant forall d | d in expired - todo :: rmtree(d).None?
      decreases todo
    {
      var item :| item in todo;
      ghost var done := expired - todo;
      forall d | d in done ensures !Within(item, d) {
        if Within(item, d) {
          ChildrenDisjoint(root, item, d);
        }
      }
      RemoveTreesKeeps(fs, done, item);
      todo := todo - {item};
      if fs'[item].Dir? && fs'[item].mtime < cutoff {
        assert item in expired;
        match rmtree(item)
        case Some(message) =>
          failure := Some((item, message));
          assert PruneAborted(fs, root, cutoff, rmtree, fs', item, message);
          return;
        case None =>
          RemoveTreesThenOne(fs, done, item);
          assert expired - todo == done + {item};
          fs' := RemoveTrees(fs', {item});
      } else {
        assert item !in expired;
        assert expired - todo == done;
      }
    }
  }

  /** An immediate entry of the root survives pruning iff it is not an expired directory. */
  lemma PrunedKeepsChild(fs: FileTree, root: Path, cutoff: int, c: Path)
    requires c in fs && IsChild(root, c)
    ensures c in Pruned(fs, root, cutoff) <==> !(fs[c].Dir? && fs[c].mtime < cutoff)
    ensures c in Pruned(fs, root, cutoff) ==> Pruned(fs, root, cutoff)[c] == fs[c]
  {
    var expired := ExpiredChildren(fs, root, cutoff);
    RemoveTreesKeeps(fs, expired, c);
    forall d | d in expired && Within(c, d) ensures d == c {
      ChildrenDisjoint(root, c, d);
    }
    assert Within(c, c);
    assert IsExpired(fs, root, cutoff, c) ==> c in expired;
  }

  /** Pruning removes the whole tree of an expired directory, the artifacts inside it included. */
  lemma PrunedDropsTree(fs: FileTree, root: Path, cutoff: int, d: Path, p: Path)
    requires IsExpired(fs, root, cutoff, d) && Within(p, d)
    ensures p !in Pruned(fs, root, cutoff)
  {
    RemoveTreesKeeps(fs, ExpiredChildren(fs, root, cutoff), p);
  }

  /** Nothing outside `root/` is touched by pruning. */
  lemma PrunedLeavesOutside(fs: FileTree, root: Path, cutoff: int, p: Path)
    requires p in fs && !(root + "/" <= p)
    ensures p in Pruned(fs, root, cutoff) && Pruned(fs, root, cutoff)[p] == fs[p]
  {
    var expired := ExpiredChildren(fs, root, cutoff);
    forall d | d in expired ensures !Within(p, d) {
      if Within(p, d) {
        WithinChildIsBelow(root, d, p);
      }
    }
    RemoveTreesKeeps(fs, expired, p);
  }

  /** After pruning no expired subdirectory is left. */
  lemma NothingExpiredAfterPrune(fs: FileTree, root: Path, cutoff: int)
    ensures ExpiredChildren(Pruned(fs, root, cutoff), root, cutoff) == {}
  {
    var after := Pruned(fs, root, cutoff);
    forall d | d in after && IsExpired(after, root, cutoff, d) ensures false {
      PrunedKeepsChild(fs, root, cutoff, d);
    }
  }

  /** Pruning twice with the same `now` and no new runs leaves the same tree as pruning once. */
  lemma PruneIdempotent(fs: FileTree, root: Path, cutoff: int)
    ensures Pruned(Pruned(fs, root, cutoff), root, cutoff) == Pruned(fs, root, cutoff)
  {
    NothingExpiredAfterPrune(fs, root, cutoff);
    RemoveNoTrees(Pruned(fs, root, cutoff));
  }

  /** With `retention_days = 0` the cutoff is `now`, so a directory stamped before `now` goes. */
  lemma ZeroRetentionPrunesOlderDirectory(fs: FileTree, root: Path, now: int, d: Path)
    requires d in fs && IsChild(root, d) && fs[d].Dir? && fs[d].mtime < now
    ensures d !in Pruned(fs, root, Cutoff(now, 0))
  {
    PrunedKeepsChild(fs, root, Cutoff(now, 0), d);
  }
}
