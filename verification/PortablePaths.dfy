/** One tree of portable names without ambiguous spellings (raychat/filesystem.py). */
module PortablePaths {
  datatype Part = Part(text: string)

  type Path = seq<Part>

  /** A spelling, and whether it names a directory. */
  datatype Entry = Entry(path: Path, directory: bool)

  type Index = map<Path, Entry>

  /** What two spellings of one name have in common: every part normalized and case-folded. */
  function Key(fold: Part -> Part, path: Path): (k: Path)
    ensures |k| == |path|
  {
    seq(|path|, i requires 0 <= i < |path| => fold(path[i]))
  }

  function EntryAt(path: Path, directory: bool, n: nat): Entry
    requires 0 < n <= |path|
  {
    Entry(path[..n], directory || n < |path|)
  }

  /** The beginning of length `n` is new, or is the same again where that is allowed. */
  predicate Fits(fold: Part -> Part, index: Index, path: Path, directory: bool, replace: bool, n: nat)
    requires 0 < n <= |path|
  {
    var entry := EntryAt(path, directory, n);
    Key(fold, path[..n]) !in index ||
    (index[Key(fold, path[..n])] == entry && (entry.directory || replace))
  }

  predicate Accepts(fold: Part -> Part, index: Index, path: Path, directory: bool, replace: bool) {
    path != [] && forall n | 0 < n <= |path| :: Fits(fold, index, path, directory, replace, n)
  }

  /** Every beginning is new or spelled as before: a directory again, or a file that may be replaced. */
  lemma AcceptsExactly(fold: Part -> Part, index: Index, path: Path, directory: bool, replace: bool)
    ensures Accepts(fold, index, path, directory, replace) <==>
            && path != []
            && forall n | 0 < n <= |path| && Key(fold, path[..n]) in index ::
                 && index[Key(fold, path[..n])].path == path[..n]
                 && if directory || n < |path| then index[Key(fold, path[..n])].directory
                    else !index[Key(fold, path[..n])].directory && replace
  {
    forall n | 0 < n <= |path| && Key(fold, path[..n]) in index
      ensures Fits(fold, index, path, directory, replace, n) <==>
              && index[Key(fold, path[..n])].path == path[..n]
              && if directory || n < |path| then index[Key(fold, path[..n])].directory
                 else !index[Key(fold, path[..n])].directory && replace
    {
      var there := index[Key(fold, path[..n])];
      assert there == Entry(there.path, there.directory);
    }
  }

  function With(fold: Part -> Part, index: Index, path: Path, directory: bool, n: nat): Index
    requires n <= |path|
  {
    if n == 0 then index
    else With(fold, index, path, directory, n - 1)[Key(fold, path[..n]) := EntryAt(path, directory, n)]
  }

  /** Keys are the keys of their spellings, and everything lies in directories that are spelled the same way. */
  ghost predicate IsTree(fold: Part -> Part, index: Index) {
    forall k | k in index ::
      && k != [] && Key(fold, index[k].path) == k
      && forall n | 0 < n < |k| :: k[..n] in index && index[k[..n]] == Entry(index[k].path[..n], true)
  }

  lemma KeyPrefix(fold: Part -> Part, path: Path, n: nat)
    requires n <= |path|
    ensures Key(fold, path)[..n] == Key(fold, path[..n])
  {
  }

  /** After adding, the beginnings of the new path are in the index and the rest is as before. */
  lemma {:induction false} WithIs(fold: Part -> Part, index: Index, path: Path, directory: bool, n: nat)
    requires n <= |path|
    ensures var longer := With(fold, index, path, directory, n);
      && (forall j | 0 < j <= n :: Key(fold, path[..j]) in longer && longer[Key(fold, path[..j])] == EntryAt(path, directory, j))
      && (forall k | k in index && (|k| > n || |k| == 0 || k != Key(fold, path[..|k|])) :: k in longer && longer[k] == index[k])
      && (forall k | k in longer :: k in index || (0 < |k| <= n && k == Key(fold, path[..|k|])))
  {
    if n > 0 { WithIs(fold, index, path, directory, n - 1); }
  }

  /** An accepted path keeps the tree a tree, and everything that was in it. */
  lemma AddKeepsTree(fold: Part -> Part, index: Index, path: Path, directory: bool, replace: bool)
    requires IsTree(fold, index) && Accepts(fold, index, path, directory, replace)
    ensures var longer := With(fold, index, path, directory, |path|);
      && IsTree(fold, longer)
      && (forall k | k in index :: k in longer && longer[k] == index[k])
      && Key(fold, path) in longer && longer[Key(fold, path)] == Entry(path, directory)
      && (forall k | k in longer :: k in index || (0 < |k| <= |path| && k == Key(fold, path[..|k|])))
  {
    var longer := With(fold, index, path, directory, |path|);
    WithIs(fold, index, path, directory, |path|);
    assert path[..|path|] == path;
    forall k | k in index
      ensures k in longer && longer[k] == index[k]
    {
      if 0 < |k| <= |path| && k == Key(fold, path[..|k|]) { assert Fits(fold, index, path, directory, replace, |k|); }
    }
    forall k | k in longer
      ensures k != [] && Key(fold, longer[k].path) == k
      ensures forall n | 0 < n < |k| :: k[..n] in longer && longer[k[..n]] == Entry(longer[k].path[..n], true)
    {
      if k !in index {
        forall n | 0 < n < |k|
          ensures k[..n] in longer && longer[k[..n]] == Entry(longer[k].path[..n], true)
        {
          KeyPrefix(fold, path[..|k|], n);
          assert path[..|k|][..n] == path[..n];
        }
      }
    }
  }

  /** In a tree, names that agree up to case and normalization are spelled the same, part by part. */
  lemma NoAliases(fold: Part -> Part, index: Index, a: Path, b: Path, n: nat)
    requires IsTree(fold, index) && 0 < n <= |a| && n <= |b|
    requires Key(fold, a) in index && index[Key(fold, a)].path == a
    requires Key(fold, b) in index && index[Key(fold, b)].path == b
    requires Key(fold, a[..n]) == Key(fold, b[..n])
    ensures a[..n] == b[..n]
    ensures n < |a| && n == |b| ==> index[Key(fold, b)].directory
  {
    KeyPrefix(fold, a, n);
    KeyPrefix(fold, b, n);
    assert a[..|a|] == a && b[..|b|] == b;
    assert Key(fold, a)[..|a|] == Key(fold, a) && Key(fold, b)[..|b|] == Key(fold, b);
    SpelledAlike(fold, index, a, n);
    SpelledAlike(fold, index, b, n);
  }

  lemma SpelledAlike(fold: Part -> Part, index: Index, a: Path, n: nat)
    requires IsTree(fold, index) && 0 < n <= |a| && Key(fold, a) in index && index[Key(fold, a)].path == a
    ensures Key(fold, a[..n]) in index && index[Key(fold, a[..n])].path == a[..n]
    ensures n < |a| ==> index[Key(fold, a[..n])].directory
  {
    KeyPrefix(fold, a, n);
    if n < |a| {
      assert index[Key(fold, a)[..n]] == Entry(a[..n], true);
    } else {
      assert a[..n] == a;
    }
  }

  class PortablePathIndex {
    const fold: Part -> Part
    var entries: Index

    constructor (fold: Part -> Part)
      ensures this.fold == fold && entries == map[] && IsTree(fold, entries)
    {
      this.fold, entries := fold, map[];
    }

    /** Checks all beginnings of a path before the index changes. */
    method Add(path: Path, directory: bool, replaceFile: bool) returns (ok: bool)
      requires IsTree(fold, entries)
      modifies this
      ensures ok <==> Accepts(fold, old(entries), path, directory, replaceFile)
      ensures entries == if ok then With(fold, old(entries), path, directory, |path|) else old(entries)
      ensures IsTree(fold, entries)
    {
      var added;
      ok, added := Prefixes(fold, entries, path, directory, replaceFile);
      if ok {
        AddKeepsTree(fold, entries, path, directory, replaceFile);
        Merges(fold, entries, path, directory, |path|);
        entries := entries + added;
      }
    }
  }

  /** The entries for the beginnings of a path, unless one of them clashes. */
  method Prefixes(fold: Part -> Part, entries: Index, path: Path, directory: bool, replaceFile: bool)
    returns (ok: bool, added: Index)
    ensures ok <==> Accepts(fold, entries, path, directory, replaceFile)
    ensures ok ==> added == With(fold, map[], path, directory, |path|)
  {
    added := map[];
    if path == [] { return false, added; }
    for n := 1 to |path| + 1
      invariant forall j | 0 < j < n :: Fits(fold, entries, path, directory, replaceFile, j)
      invariant added == With(fold, map[], path, directory, n - 1)
    {
      var key, expected := Key(fold, path[..n]), EntryAt(path, directory, n);
      if key in entries && (entries[key] != expected || (!expected.directory && !replaceFile)) {
        assert !Fits(fold, entries, path, directory, replaceFile, n);
        return false, added;
      }
      assert Fits(fold, entries, path, directory, replaceFile, n);
      added := added[key := expected];
    }
    ok := true;
  }

  lemma {:induction false} Merges(fold: Part -> Part, index: Index, path: Path, directory: bool, n: nat)
    requires n <= |path|
    ensures index + With(fold, map[], path, directory, n) == With(fold, index, path, directory, n)
  {
    if n > 0 { Merges(fold, index, path, directory, n - 1); }
  }
}
