/**
 * `collect_files` (ingest.py): the regular files below the folder whose
 * lower-cased suffix is in the extension set, sorted.
 */
module Selection {
  import opened Paths
  import opened FileTree
  import opened Extensions

  /** The final component of a path. */
  function FileName(p: Path): string
  {
    if p == [] then "" else p[|p| - 1]
  }

  /** The comprehension's filter: entries that are regular files with a selected suffix. */
  function Selected(entries: seq<Entry>, extensions: set<string>): (r: seq<Path>)
    ensures forall p :: p in r <==> Entry(p, true) in entries && Selects(extensions, FileName(p))
  {
    if entries == [] then []
    else
      var e := entries[0];
      assert entries == [e] + entries[1..];
      (if e.isFile && Selects(extensions, FileName(e.path)) then [e.path] else [])
        + Selected(entries[1..], extensions)
  }

  lemma {:induction false} SelectedKeepsUniqueness(entries: seq<Entry>, extensions: set<string>)
    requires UniquePaths(entries)
    ensures Distinct(Selected(entries, extensions))
  {
    if entries != [] {
      SelectedKeepsUniqueness(entries[1..], extensions);
    }
  }

  lemma SortedSelectionMembers(folder: seq<Node>, extensions: set<string>)
    ensures forall p :: p in Sort(Selected(Walk(folder), extensions)) <==>
                        IsRegularFile(folder, p) && Selects(extensions, FileName(p))
  {
    var chosen := Selected(Walk(folder), extensions);
    var r := Sort(chosen);
    forall p ensures p in r <==> IsRegularFile(folder, p) && Selects(extensions, FileName(p)) {
      assert p in r <==> p in multiset(r);
      assert p in chosen <==> p in multiset(chosen);
      WalkFindsRegularFiles(folder, p);
    }
  }

  /**
   * `collect_files(folder, extensions)`: exactly the regular files of the tree
   * whose suffix is selected, in ascending path order.
   */
  function CollectFiles(folder: seq<Node>, extensions: set<string>): (r: seq<Path>)
    ensures forall p :: p in r <==> IsRegularFile(folder, p) && Selects(extensions, FileName(p))
    ensures Sorted(r)
  {
    SortedSelectionMembers(folder, extensions);
    Sort(Selected(Walk(folder), extensions))
  }

  /** In a well-formed tree the selection is strictly increasing, so it lists each file once. */
  lemma CollectFilesStrictlyIncreasing(folder: seq<Node>, extensions: set<string>)
    requires WellFormed(folder)
    ensures var r := CollectFiles(folder, extensions);
            forall i, j :: 0 <= i < j < |r| ==> PathLess(r[i], r[j])
  {
    var chosen := Selected(Walk(folder), extensions);
    WalkUniquePaths(folder);
    SelectedKeepsUniqueness(Walk(folder), extensions);
    MultisetKeepsDistinct(chosen, Sort(chosen));
    SortedDistinctIsIncreasing(Sort(chosen));
  }
}
