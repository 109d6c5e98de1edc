/** Discovery of CMakeLists.txt files (`get_cmake_files` in run_cmake_tool.py).

    The file system is an abstract tree; `Walk` is the top-down walk that
    `os.walk` performs over it, and `GetCMakeFiles` is the loop
    `get_cmake_files` runs over that walk. */
module Discovery {
  import opened Strings

  /** The file name whose presence marks a directory. */
  const Marker := "CMakeLists.txt"

  /** A directory as the walk sees it: the entry name under which its parent
      lists it, the names of its non-directory entries, and its
      subdirectories in listing order. */
  datatype Dir = Dir(name: string, files: seq<string>, subdirs: seq<Dir>)

  /** One `(root, files)` pair yielded by the walk. */
  datatype Visit = Visit(root: string, files: seq<string>)

  /** A directory entry name: non-empty and free of the separator. */
  ghost predicate ValidName(n: string)
  {
    n != "" && '/' !in n
  }

  /** What a real file system guarantees: entry names are valid and the
      subdirectories of one directory have distinct names. */
  ghost predicate WellFormed(d: Dir)
  {
    && (forall k :: 0 <= k < |d.subdirs| ==> ValidName(d.subdirs[k].name) && WellFormed(d.subdirs[k]))
    && (forall j, k :: 0 <= j < k < |d.subdirs| ==> d.subdirs[j].name != d.subdirs[k].name)
  }

  /** The number of directories in the tree rooted at `d`, itself included. */
  function Count(d: Dir): nat
    decreases d, 1
  {
    1 + CountFrom(d, 0)
  }

  /** The number of directories in the subtrees of `d` from the `i`-th on. */
  function CountFrom(d: Dir, i: nat): nat
    requires i <= |d.subdirs|
    decreases d, 0, |d.subdirs| - i
  {
    if i == |d.subdirs| then 0 else Count(d.subdirs[i]) + CountFrom(d, i + 1)
  }

  /** Top-down walk from `top`: the directory itself first, then the walk of
      each subdirectory, in listing order, each rooted at `top` joined with
      the subdirectory's name. Every directory of the tree is visited once. */
  function Walk(top: string, d: Dir): (r: seq<Visit>)
    ensures |r| == Count(d)
    ensures r[0] == Visit(top, d.files)
    decreases d, 1, 0
  {
    [Visit(top, d.files)] + WalkFrom(top, d, 0)
  }

  /** The walks of the subdirectories of `d` from the `i`-th one on. */
  function WalkFrom(top: string, d: Dir, i: nat): (r: seq<Visit>)
    requires i <= |d.subdirs|
    ensures |r| == CountFrom(d, i)
    decreases d, 0, |d.subdirs| - i
  {
    if i == |d.subdirs| then []
    else Walk(Join(top, d.subdirs[i].name), d.subdirs[i]) + WalkFrom(top, d, i + 1)
  }

  /** The marker paths of the visits, in walk order: one entry
      `join(root, "CMakeLists.txt")` per visit whose files hold the marker. */
  function Found(vs: seq<Visit>): (r: seq<string>)
    ensures |r| <= |vs|
  {
    if vs == [] then []
    else
      var last := vs[|vs| - 1];
      Found(vs[..|vs| - 1]) + (if Marker in last.files then [Join(last.root, Marker)] else [])
  }

  predicate NoDuplicates(s: seq<string>)
  {
    forall i, j :: 0 <= i < j < |s| ==> s[i] != s[j]
  }

  /** Exactly the marker paths of the visits that hold the marker are found. */
  lemma {:induction false} FoundMembers(vs: seq<Visit>, f: string)
    ensures f in Found(vs) <==>
            exists k :: 0 <= k < |vs| && Marker in vs[k].files && f == Join(vs[k].root, Marker)
  {
    if vs != [] {
      var init := vs[..|vs| - 1];
      FoundMembers(init, f);
      assert forall k :: 0 <= k < |init| ==> init[k] == vs[k];
      if f in Found(init) {
        var k :| 0 <= k < |init| && Marker in init[k].files && f == Join(init[k].root, Marker);
        assert vs[k] == init[k];
      }
    }
  }

  /** The directory prefixes of the visited roots are pairwise distinct. */
  ghost predicate DistinctDirs(vs: seq<Visit>)
  {
    forall i, j :: 0 <= i < j < |vs| ==> DirPrefix(vs[i].root) != DirPrefix(vs[j].root)
  }

  /** When no two visited roots have the same directory prefix, no marker path
      is found twice. */
  lemma {:induction false} FoundDistinct(vs: seq<Visit>)
    requires DistinctDirs(vs)
    ensures NoDuplicates(Found(vs))
  {
    if vs != [] {
      var init, last := vs[..|vs| - 1], vs[|vs| - 1];
      assert forall k :: 0 <= k < |init| ==> init[k] == vs[k];
      assert DistinctDirs(init);
      FoundDistinct(init);
      // the new path, if any, differs from every earlier one
      FoundMembers(init, Join(last.root, Marker));
    }
  }

  /** Two names free of the separator that both start the same remainder of a
      path, each followed by a separator, are the same name. */
  lemma SameSegment(a: string, n1: string, n2: string, s: string)
    requires ValidName(n1) && ValidName(n2)
    requires a + n1 + "/" <= s && a + n2 + "/" <= s
    ensures n1 == n2
  {
    assert s[|a| + |n1|] == '/' && s[|a| + |n2|] == '/';
    assert forall j :: 0 <= j < |n1| ==> s[|a| + j] == n1[j];
    assert forall j :: 0 <= j < |n2| ==> s[|a| + j] == n2[j];
    if |n1| == |n2| {
      assert n1 == (a + n1 + "/")[|a|..|a| + |n1|] == s[|a|..|a| + |n1|];
      assert n2 == (a + n2 + "/")[|a|..|a| + |n2|] == s[|a|..|a| + |n2|];
    }
  }

  /** The root of a subdirectory's walk: its directory prefix extends the
      parent's by the name and a separator. */
  lemma ChildPrefix(top: string, n: string)
    requires ValidName(n)
    ensures DirPrefix(Join(top, n)) == DirPrefix(top) + n + "/"
  {
  }

  /** Every root visited by the walk lies under the starting directory. */
  lemma {:induction false} WalkUnder(top: string, d: Dir)
    requires WellFormed(d)
    ensures forall v :: v in Walk(top, d) ==> DirPrefix(top) <= DirPrefix(v.root)
    decreases d, 1, 0
  {
    WalkFromUnder(top, d, 0);
    forall v | v in Walk(top, d)
      ensures DirPrefix(top) <= DirPrefix(v.root)
    {
      if v != Visit(top, d.files) {
        assert v in WalkFrom(top, d, 0);
        var k :| 0 <= k < |d.subdirs| && DirPrefix(top) + d.subdirs[k].name + "/" <= DirPrefix(v.root);
        assert DirPrefix(top) <= DirPrefix(top) + d.subdirs[k].name + "/";
      }
    }
  }

  /** Every root visited in the walks of the subdirectories from the `i`-th on
      lies under one of those subdirectories. */
  lemma {:induction false} WalkFromUnder(top: string, d: Dir, i: nat)
    requires WellFormed(d) && i <= |d.subdirs|
    ensures forall v :: v in WalkFrom(top, d, i) ==>
              exists k :: i <= k < |d.subdirs| && DirPrefix(top) + d.subdirs[k].name + "/" <= DirPrefix(v.root)
    decreases d, 0, |d.subdirs| - i
  {
    if i < |d.subdirs| {
      var c := d.subdirs[i];
      WalkUnder(Join(top, c.name), c);
      ChildPrefix(top, c.name);
      WalkFromUnder(top, d, i + 1);
    }
  }

  lemma DistinctConcat(a: seq<Visit>, b: seq<Visit>)
    requires DistinctDirs(a) && DistinctDirs(b)
    requires forall x, y :: x in a && y in b ==> DirPrefix(x.root) != DirPrefix(y.root)
    ensures DistinctDirs(a + b)
  {
  }

  /** On a well-formed tree, no two visited roots share a directory prefix. */
  lemma {:induction false} WalkDistinct(top: string, d: Dir)
    requires WellFormed(d)
    ensures DistinctDirs(Walk(top, d))
    decreases d, 1, 0
  {
    WalkFromDistinct(top, d, 0);
    WalkFromUnder(top, d, 0);
    forall y | y in WalkFrom(top, d, 0)
      ensures DirPrefix(top) != DirPrefix(y.root)
    {
      var k :| 0 <= k < |d.subdirs| && DirPrefix(top) + d.subdirs[k].name + "/" <= DirPrefix(y.root);
    }
    DistinctConcat([Visit(top, d.files)], WalkFrom(top, d, 0));
  }

  lemma {:induction false} WalkFromDistinct(top: string, d: Dir, i: nat)
    requires WellFormed(d) && i <= |d.subdirs|
    ensures DistinctDirs(WalkFrom(top, d, i))
    decreases d, 0, |d.subdirs| - i
  {
    if i < |d.subdirs| {
      var c := d.subdirs[i];
      var q := Join(top, c.name);
      WalkDistinct(q, c);
      WalkFromDistinct(top, d, i + 1);
      WalkUnder(q, c);
      ChildPrefix(top, c.name);
      WalkFromUnder(top, d, i + 1);
      forall x, y | x in Walk(q, c) && y in WalkFrom(top, d, i + 1)
        ensures DirPrefix(x.root) != DirPrefix(y.root)
      {
        var k :| i + 1 <= k < |d.subdirs| && DirPrefix(top) + d.subdirs[k].name + "/" <= DirPrefix(y.root);
        if DirPrefix(x.root) == DirPrefix(y.root) {
          SameSegment(DirPrefix(top), c.name, d.subdirs[k].name, DirPrefix(y.root));
          assert false;
        }
      }
      DistinctConcat(Walk(q, c), WalkFrom(top, d, i + 1));
    }
  }

  /** `get_cmake_files`: walk the tree from `startPath` and collect
      `join(root, "CMakeLists.txt")` for every visited directory whose files
      include that name. */
  method GetCMakeFiles(startPath: string, tree: Dir) returns (cmakeFiles: seq<string>)
    ensures cmakeFiles == Found(Walk(startPath, tree))
    ensures |cmakeFiles| <= Count(tree)
    ensures forall k :: 0 <= k < |Walk(startPath, tree)| && Marker in Walk(startPath, tree)[k].files ==>
              Join(Walk(startPath, tree)[k].root, Marker) in cmakeFiles
    ensures forall f :: f in cmakeFiles ==>
              exists k :: 0 <= k < |Walk(startPath, tree)| && Marker in Walk(startPath, tree)[k].files &&
                          f == Join(Walk(startPath, tree)[k].root, Marker)
    ensures WellFormed(tree) ==> NoDuplicates(cmakeFiles)
  {
    var visits := Walk(startPath, tree);
    cmakeFiles := [];
    for i := 0 to |visits|
      invariant cmakeFiles == Found(visits[..i])
    {
      assert visits[..i + 1][..i] == visits[..i];
      if Marker in visits[i].files {
        cmakeFiles := cmakeFiles + [Join(visits[i].root, Marker)];
      }
    }
    assert visits[..|visits|] == visits;
    forall f | true
      ensures f in cmakeFiles <==>
              exists k :: 0 <= k < |visits| && Marker in visits[k].files && f == Join(visits[k].root, Marker)
    {
      FoundMembers(visits, f);
    }
    if WellFormed(tree) {
      WalkDistinct(startPath, tree);
      FoundDistinct(visits);
    }
  }
}
