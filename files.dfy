/**
 * The abstract filesystem the backup job works on: a map from path to node.
 * A directory node carries its modification time in whole seconds.
 */
module Files {
  import opened Paths
  import opened Wrappers

  datatype Node = File | Dir(mtime: int)

  type FileTree = map<Path, Node>

  /**
   * `Path(p).mkdir(exist_ok=True)`: an existing directory is left as it is,
   * an existing non-directory is a `FileExistsError` (None), and otherwise a
   * directory stamped with `clock` appears at `p`.
   */
  function MakeDirectory(fs: FileTree, p: Path, clock: int): (r: Option<FileTree>)
    ensures r.Some? <==> !(p in fs && fs[p].File?)
    ensures r.Some? ==> p in r.value && r.value[p].Dir?
    ensures r.Some? && p in fs ==> r.value == fs
    ensures r.Some? && p !in fs ==> r.value[p].mtime == clock
    ensures r.Some? ==> r.value.Keys == fs.Keys + {p}
    ensures r.Some? ==> forall q :: q in fs && q != p ==> r.value[q] == fs[q]
  {
    if p in fs then
      (if fs[p].Dir? then Some(fs) else None)
    else
      Some(fs[p := Dir(clock)])
  }

  /** What `shutil.rmtree(d)` for every `d` in `ds` leaves of `fs`. */
  function RemoveTrees(fs: FileTree, ds: set<Path>): FileTree
  {
    map p | p in fs && (forall d | d in ds :: !Within(p, d)) :: fs[p]
  }

  /** Removing the trees of `ds` keeps exactly the entries outside all of them, unchanged. */
  lemma RemoveTreesKeeps(fs: FileTree, ds: set<Path>, p: Path)
    ensures p in RemoveTrees(fs, ds) <==> p in fs && forall d | d in ds :: !Within(p, d)
    ensures p in RemoveTrees(fs, ds) ==> RemoveTrees(fs, ds)[p] == fs[p]
  {
  }

  /** Removing no tree changes nothing. */
  lemma RemoveNoTrees(fs: FileTree)
    ensures RemoveTrees(fs, {}) == fs
  {
    assert RemoveTrees(fs, {}).Keys == fs.Keys;
  }

  /** Removing one more tree after a batch is the same as removing the whole batch at once. */
  lemma RemoveTreesThenOne(fs: FileTree, ds: set<Path>, d: Path)
    ensures RemoveTrees(RemoveTrees(fs, ds), {d}) == RemoveTrees(fs, ds + {d})
  {
    var lhs, rhs := RemoveTrees(RemoveTrees(fs, ds), {d}), RemoveTrees(fs, ds + {d});
    forall p ensures p in lhs <==> p in rhs {
      RemoveTreesKeeps(fs, ds, p);
      RemoveTreesKeeps(RemoveTrees(fs, ds), {d}, p);
      RemoveTreesKeeps(fs, ds + {d}, p);
    }
    assert lhs.Keys == rhs.Keys;
  }
}
