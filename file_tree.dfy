/**
  A directory on disk as a tree, the way `os.walk` visits it top-down with
  the caller pruning `dirs[:]`, and the ignore configuration read from the
  ignore file (`ignored_directories`, `ignored_files`,
  `ignored_extensions`). The children of a folder are in the order the
  operating system lists them.
*/
module FileTree {
  import opened Strings

  datatype Entry =
    | File(name: string, content: string)
    | Folder(name: string, children: seq<Entry>)

  datatype IgnoreConfig = IgnoreConfig(directories: seq<string>, files: seq<string>, extensions: seq<string>)

  /** A file `os.walk` reports: the directory path it was found in, its
      name and its text. */
  datatype WalkedFile = WalkedFile(root: string, name: string, content: string)

  /** `any(name.endswith(ext) for ext in exts)` */
  predicate EndsWithAny(name: string, exts: seq<string>) {
    exists k :: 0 <= k < |exts| && EndsWith(name, exts[k])
  }

  /** The file test of `load_docs` and `generate_summary`: an ignored
      extension or an ignored file name. */
  predicate SkippedFile(name: string, cfg: IgnoreConfig) {
    EndsWithAny(name, cfg.extensions) || name in cfg.files
  }

  /** The files directly in a folder, in listing order. */
  function FilesHere(root: string, children: seq<Entry>): seq<WalkedFile>
    decreases |children|
  {
    if children == [] then []
    else
      var rest := FilesHere(root, children[1..]);
      match children[0]
      case File(name, content) => [WalkedFile(root, name, content)] + rest
      case Folder(_, _) => rest
  }

  /** `os.walk(root)` with every subdirectory named in `pruned` removed from
      `dirs` before the walk descends: first the files of `root`, then the
      walk of each kept subdirectory in listing order. The root itself is
      never tested. */
  function Walk(root: string, children: seq<Entry>, pruned: seq<string>): seq<WalkedFile>
    decreases children, 1
  {
    FilesHere(root, children) + WalkDirs(root, children, pruned)
  }

  function WalkDirs(root: string, children: seq<Entry>, pruned: seq<string>): seq<WalkedFile>
    decreases children, 0
  {
    if children == [] then []
    else
      var rest := WalkDirs(root, children[1..], pruned);
      match children[0]
      case File(_, _) => rest
      case Folder(name, sub) =>
        if name in pruned then rest else Walk(PathJoin(root, name), sub, pruned) + rest
  }

  lemma {:induction false} FilesHereAppend(root: string, a: seq<Entry>, b: seq<Entry>)
    ensures FilesHere(root, a + b) == FilesHere(root, a) + FilesHere(root, b)
    decreases |a|
  {
    if a == [] {
      assert a + b == b;
    } else {
      assert (a + b)[1..] == a[1..] + b;
      FilesHereAppend(root, a[1..], b);
    }
  }

  lemma {:induction false} WalkDirsAppend(root: string, a: seq<Entry>, b: seq<Entry>, pruned: seq<string>)
    ensures WalkDirs(root, a + b, pruned) == WalkDirs(root, a, pruned) + WalkDirs(root, b, pruned)
    decreases |a|
  {
    if a == [] {
      assert a + b == b;
    } else {
      assert (a + b)[1..] == a[1..] + b;
      assert (a + b)[0] == a[0];
      WalkDirsAppend(root, a[1..], b, pruned);
    }
  }

  /** A pruned subdirectory contributes nothing, whatever it holds: the walk
      never descends into it. */
  lemma {:induction false} PrunedFolderInvisible(root: string, children: seq<Entry>, name: string, sub: seq<Entry>, pruned: seq<string>)
    requires name in pruned
    ensures Walk(root, children + [Folder(name, sub)], pruned) == Walk(root, children, pruned)
  {
    FilesHereAppend(root, children, [Folder(name, sub)]);
    WalkDirsAppend(root, children, [Folder(name, sub)], pruned);
    assert [Folder(name, sub)][1..] == [];
  }

  /** A kept subdirectory is walked after everything listed before it. */
  lemma {:induction false} KeptFolderWalked(root: string, children: seq<Entry>, name: string, sub: seq<Entry>, pruned: seq<string>)
    requires name !in pruned
    ensures Walk(root, children + [Folder(name, sub)], pruned) ==
      Walk(root, children, pruned) + Walk(PathJoin(root, name), sub, pruned)
  {
    FilesHereAppend(root, children, [Folder(name, sub)]);
    WalkDirsAppend(root, children, [Folder(name, sub)], pruned);
    assert [Folder(name, sub)][1..] == [];
  }

  /** A file listed in the root is reported with the root as its directory. */
  lemma {:induction false} FileHereWalked(root: string, children: seq<Entry>, name: string, content: string, pruned: seq<string>)
    ensures Walk(root, [File(name, content)] + children, pruned) ==
      [WalkedFile(root, name, content)] + Walk(root, children, pruned)
  {
    var c := [File(name, content)] + children;
    assert c[1..] == children;
  }

  // ---------------------------------------------------------------------
  // Python's ordering of strings, for `sorted(os.listdir(path))`
  // ---------------------------------------------------------------------

  /** `a <= b` on Python strings: code point by code point, a proper prefix first. */
  predicate NameLe(a: string, b: string)
    decreases |a|
  {
    a == [] || (b != [] && (a[0] < b[0] || (a[0] == b[0] && NameLe(a[1..], b[1..]))))
  }

  lemma {:induction false} NameLeTotal(a: string, b: string)
    ensures NameLe(a, b) || NameLe(b, a)
    decreases |a|
  {
    if a != [] && b != [] && a[0] == b[0] {
      NameLeTotal(a[1..], b[1..]);
    }
  }

  lemma {:induction false} NameLeTrans(a: string, b: string, c: string)
    requires NameLe(a, b) && NameLe(b, c)
    ensures NameLe(a, c)
    decreases |a|
  {
    if a != [] && a[0] == b[0] && b[0] == c[0] {
      NameLeTrans(a[1..], b[1..], c[1..]);
    }
  }

  predicate SortedByName(xs: seq<Entry>) {
    forall i, j :: 0 <= i < j < |xs| ==> NameLe(xs[i].name, xs[j].name)
  }

  /** Puts `e` before the first entry whose name is not below its own. */
  function InsertByName(e: Entry, xs: seq<Entry>): (r: seq<Entry>)
    requires SortedByName(xs)
    ensures SortedByName(r) && multiset(r) == multiset(xs) + multiset{e}
    ensures forall x :: x in r <==> x == e || x in xs
  {
    if xs == [] then [e]
    else if NameLe(e.name, xs[0].name) then
      InsertSorted(e, xs); [e] + xs
    else
      var tail := InsertByName(e, xs[1..]);
      InsertSortedTail(e, xs, tail);
      assert xs == [xs[0]] + xs[1..];
      [xs[0]] + tail
  }

  lemma {:induction false} InsertSorted(e: Entry, xs: seq<Entry>)
    requires SortedByName(xs) && xs != [] && NameLe(e.name, xs[0].name)
    ensures SortedByName([e] + xs)
  {
    forall j | 0 <= j < |xs|
      ensures NameLe(e.name, xs[j].name)
    {
      if j > 0 {
        NameLeTrans(e.name, xs[0].name, xs[j].name);
      }
    }
    var r := [e] + xs;
    forall i, j | 0 <= i < j < |r|
      ensures NameLe(r[i].name, r[j].name)
    {
      if i > 0 {
        assert r[i] == xs[i - 1] && r[j] == xs[j - 1];
      } else {
        assert r[j] == xs[j - 1];
      }
    }
  }

  lemma {:induction false} InsertSortedTail(e: Entry, xs: seq<Entry>, tail: seq<Entry>)
    requires SortedByName(xs) && xs != [] && !NameLe(e.name, xs[0].name)
    requires SortedByName(tail) && forall x :: x in tail <==> x == e || x in xs[1..]
    ensures SortedByName([xs[0]] + tail)
  {
    NameLeTotal(e.name, xs[0].name);
    var r := [xs[0]] + tail;
    forall i, j | 0 <= i < j < |r|
      ensures NameLe(r[i].name, r[j].name)
    {
      if i > 0 {
        assert r[i] == tail[i - 1] && r[j] == tail[j - 1];
      } else {
        assert r[j] == tail[j - 1];
        assert r[j] in tail;
        if r[j] != e {
          var k :| 0 <= k < |xs[1..]| && xs[1..][k] == r[j];
          assert xs[k + 1] == r[j];
        }
      }
    }
  }

  /** `sorted` on the listing, by name. */
  function SortByName(xs: seq<Entry>): (r: seq<Entry>)
    ensures SortedByName(r) && multiset(r) == multiset(xs)
    decreases |xs|
  {
    if xs == [] then []
    else
      assert xs == [xs[0]] + xs[1..];
      InsertByName(xs[0], SortByName(xs[1..]))
  }

  /** Sorting keeps exactly the entries it was given. */
  lemma {:induction false} SortedMembers(xs: seq<Entry>)
    ensures forall x :: x in SortByName(xs) <==> x in xs
  {
    var r := SortByName(xs);
    forall x
      ensures x in r <==> x in xs
    {
      assert x in r <==> x in multiset(r);
      assert x in xs <==> x in multiset(xs);
    }
  }
}
