/**
 * What `make_files` does to the file system, as the ordered list of its
 * effects, and the properties of that list.
 */
module Writer {
  import opened Paths
  import opened Slugs
  import opened Document

  /** `open(path, "w").write(body)` and `os.makedirs(path, exist_ok=True)`. */
  datatype Action = Write(path: string, body: seq<Piece>) | MakeDir(path: string)

  /**
   * `make_files(basepath)`: write the node's own file into `basepath`, then
   * for each child in order create the child's folder and recurse into it.
   */
  function Writes(n: Node, basepath: string): seq<Action>
    decreases n
  {
    [Write(Join(basepath, n.FileName()), Render(n, basepath))] + ChildWrites(n.children, basepath)
  }

  /** The part of `make_files(basepath)` that handles the children `cs`. */
  function ChildWrites(cs: seq<Node>, basepath: string): seq<Action>
    decreases cs
  {
    if cs == [] then []
    else
      var c := cs[|cs| - 1];
      var folder := Join(basepath, c.FolderName());
      ChildWrites(cs[..|cs| - 1], basepath) + [MakeDir(folder)] + Writes(c, folder)
  }

  function WriteCount(acts: seq<Action>): nat {
    if acts == [] then 0 else (if acts[0].Write? then 1 else 0) + WriteCount(acts[1..])
  }

  function MakeDirCount(acts: seq<Action>): nat {
    if acts == [] then 0 else (if acts[0].MakeDir? then 1 else 0) + MakeDirCount(acts[1..])
  }

  lemma {:induction false} CountsAppend(a: seq<Action>, b: seq<Action>)
    ensures WriteCount(a + b) == WriteCount(a) + WriteCount(b)
    ensures MakeDirCount(a + b) == MakeDirCount(a) + MakeDirCount(b)
  {
    if a == [] {
      assert a + b == b;
    } else {
      assert (a + b)[1..] == a[1..] + b;
      CountsAppend(a[1..], b);
    }
  }

  /**
   * Exactly one file is written per structural node of the tree, and one
   * folder is created per node other than the one the call starts from.
   */
  lemma {:induction false} WritesCount(n: Node, basepath: string)
    ensures WriteCount(Writes(n, basepath)) == Size(n)
    ensures MakeDirCount(Writes(n, basepath)) == Size(n) - 1
    decreases n, 1
  {
    var own := [Write(Join(basepath, n.FileName()), Render(n, basepath))];
    ChildWritesCount(n.children, basepath);
    CountsAppend(own, ChildWrites(n.children, basepath));
    assert WriteCount(own) == 1 && MakeDirCount(own) == 0;
  }

  lemma {:induction false} ChildWritesCount(cs: seq<Node>, basepath: string)
    ensures WriteCount(ChildWrites(cs, basepath)) == SizeOf(cs)
    ensures MakeDirCount(ChildWrites(cs, basepath)) == SizeOf(cs)
    decreases cs, 0
  {
    if cs != [] {
      var c := cs[|cs| - 1];
      var folder := Join(basepath, c.FolderName());
      var mk := [MakeDir(folder)];
      ChildWritesCount(cs[..|cs| - 1], basepath);
      WritesCount(c, folder);
      CountsAppend(ChildWrites(cs[..|cs| - 1], basepath) + mk, Writes(c, folder));
      CountsAppend(ChildWrites(cs[..|cs| - 1], basepath), mk);
      assert WriteCount(mk) == 0 && MakeDirCount(mk) == 1;
    }
  }

  /** The actions for a prefix of the children are a prefix of the actions for all of them. */
  lemma {:induction false} ChildWritesPrefix(cs: seq<Node>, k: nat, basepath: string)
    requires k <= |cs|
    ensures ChildWrites(cs[..k], basepath) <= ChildWrites(cs, basepath)
    decreases |cs|
  {
    if k < |cs| {
      assert cs[..|cs| - 1][..k] == cs[..k];
      ChildWritesPrefix(cs[..|cs| - 1], k, basepath);
    } else {
      assert cs[..k] == cs;
    }
  }

  /** A node's name components never make `Join` leave the folder they are joined to. */
  lemma NodeNamesRelative(n: Node)
    ensures Relative(n.FolderName()) && Relative(n.FileName()) && '/' !in n.FileName()
  {
    NamesAreRelative(n.role, n.Slug());
  }

  /** The folder `make_files(basepath)` creates for the `j`-th child. */
  function ChildFolder(n: Node, basepath: string, j: nat): string
    requires j < |n.children|
  {
    Join(basepath, n.children[j].FolderName())
  }

  /** The index of that folder's creation among the actions of `make_files(basepath)`. */
  function ChildStart(n: Node, basepath: string, j: nat): nat
    requires j <= |n.children|
  {
    1 + |ChildWrites(n.children[..j], basepath)|
  }

  /**
   * Where the children's actions sit: the `j`-th child's folder is created,
   * and right after it come all of that child's own actions.
   */
  lemma ChildActions(n: Node, basepath: string, j: nat)
    requires j < |n.children|
    ensures ChildStart(n, basepath, j) + |Writes(n.children[j], ChildFolder(n, basepath, j))| < |Writes(n, basepath)|
    ensures Writes(n, basepath)[ChildStart(n, basepath, j)] == MakeDir(ChildFolder(n, basepath, j))
    ensures Writes(n, basepath)[ChildStart(n, basepath, j) + 1..
                                ChildStart(n, basepath, j) + 1 + |Writes(n.children[j], ChildFolder(n, basepath, j))|]
      == Writes(n.children[j], ChildFolder(n, basepath, j))
  {
    var cs := n.children;
    var c := cs[j];
    var folder := ChildFolder(n, basepath, j);
    var before := ChildWrites(cs[..j], basepath);
    var all := ChildWrites(cs, basepath);
    assert ChildStart(n, basepath, j) == 1 + |before|;
    ChildWritesStep(cs, j, basepath);
    assert folder == Join(basepath, cs[j].FolderName());
    assert before + [MakeDir(folder)] + Writes(c, folder) == ChildWrites(cs[..j + 1], basepath);
    ChildWritesPrefix(cs, j + 1, basepath);
    OwnWriteFirst(n, basepath);
    Located(Writes(n, basepath), all, before, MakeDir(folder), Writes(c, folder));
  }

  /** Handling one more child appends that child's folder creation and its own actions. */
  lemma ChildWritesStep(cs: seq<Node>, j: nat, basepath: string)
    requires j < |cs|
    ensures ChildWrites(cs[..j + 1], basepath)
      == ChildWrites(cs[..j], basepath) + [MakeDir(Join(basepath, cs[j].FolderName()))]
         + Writes(cs[j], Join(basepath, cs[j].FolderName()))
  {
    assert cs[..j + 1][..j] == cs[..j] && cs[..j + 1][j] == cs[j];
  }

  /**
   * The loop of `make_files` as one step: after the actions for the first
   * `j` children, adding the `j`-th child's folder and subtree gives the
   * actions for the first `j + 1`.
   */
  lemma ChildWritesExtend(own: seq<Action>, cs: seq<Node>, j: nat, basepath: string,
                          before: seq<Action>, after: seq<Action>)
    requires j < |cs|
    requires before == own + ChildWrites(cs[..j], basepath)
    requires after == before + [MakeDir(Join(basepath, cs[j].FolderName()))]
                      + Writes(cs[j], Join(basepath, cs[j].FolderName()))
    ensures after == own + ChildWrites(cs[..j + 1], basepath)
  {
    ChildWritesStep(cs, j, basepath);
  }

  /** `make_files` writes the node's own file before anything else. */
  lemma OwnWriteFirst(n: Node, basepath: string)
    ensures Writes(n, basepath) == [Write(Join(basepath, n.FileName()), Render(n, basepath))] + ChildWrites(n.children, basepath)
  {
  }

  /** Positions inside `[first] + all` when `all` starts with `before + [mark] + after`. */
  lemma Located(acts: seq<Action>, all: seq<Action>, before: seq<Action>, mark: Action, after: seq<Action>)
    requires |acts| > 0 && acts == [acts[0]] + all
    requires before + [mark] + after <= all
    ensures 1 + |before| + |after| < |acts|
    ensures acts[1 + |before|] == mark
    ensures acts[2 + |before|..2 + |before| + |after|] == after
  {
    var p := before + [mark] + after;
    assert acts[1..1 + |p|] == p;
    assert p[|before|] == mark;
    assert p[1 + |before|..] == after;
  }

  /** Where the `j`-th child's include stands among the hrefs outside the exercise blocks of its parent's rendered file. */
  function IncludeSlot(n: Node, j: nat): nat {
    (if n.role == Main then 2 else 0) + j
  }

  /**
   * Include/write consistency. For the `j`-th child `c` of `n`, the writer
   * writes the parent's file first, directly into `basepath`; it creates
   * `c`'s folder, then at once writes `c`'s file and the rest of `c`'s
   * subtree into it; and the href the rendered parent carries for `c` (its
   * `rel_path`), resolved against `basepath`, is exactly the path of `c`'s
   * file.
   */
  lemma IncludeResolvesToWrite(n: Node, basepath: string, j: nat)
    requires j < |n.children|
    ensures Writes(n, basepath)[0] == Write(Join(basepath, n.FileName()), Render(n, basepath))
    ensures '/' !in n.FileName()
    ensures IncludeSlot(n, j) < |Hrefs(Render(n, basepath))|
    ensures Hrefs(Render(n, basepath))[IncludeSlot(n, j)] == n.children[j].RelPath()
    ensures ChildStart(n, basepath, j) + 1 < |Writes(n, basepath)|
    ensures Writes(n, basepath)[ChildStart(n, basepath, j)] == MakeDir(ChildFolder(n, basepath, j))
    ensures Writes(n, basepath)[ChildStart(n, basepath, j) + 1]
      == Write(Join(basepath, Hrefs(Render(n, basepath))[IncludeSlot(n, j)]),
               Render(n.children[j], ChildFolder(n, basepath, j)))
  {
    var c := n.children[j];
    var folder := ChildFolder(n, basepath, j);
    var at := ChildStart(n, basepath, j);
    OwnWriteFirst(n, basepath);
    ChildActions(n, basepath, j);
    OwnWriteFirst(c, folder);
    assert Writes(n, basepath)[at + 1] == Writes(c, folder)[0];
    RenderHrefs(n, basepath);
    NodeNamesRelative(n);
    NodeNamesRelative(c);
    JoinAssoc(basepath, c.FolderName(), c.FileName());
  }

  /** Every path the writer touches lies below the base path it starts from. */
  lemma {:induction false} WritesStayBelow(n: Node, basepath: string)
    ensures forall i :: 0 <= i < |Writes(n, basepath)| ==> basepath <= Writes(n, basepath)[i].path
    decreases n, 1
  {
    NodeNamesRelative(n);
    JoinExtends(basepath, n.FileName());
    ChildWritesStayBelow(n.children, basepath);
  }

  lemma {:induction false} ChildWritesStayBelow(cs: seq<Node>, basepath: string)
    ensures forall i :: 0 <= i < |ChildWrites(cs, basepath)| ==> basepath <= ChildWrites(cs, basepath)[i].path
    decreases cs, 0
  {
    if cs != [] {
      var c := cs[|cs| - 1];
      var folder := Join(basepath, c.FolderName());
      ChildWritesStayBelow(cs[..|cs| - 1], basepath);
      WritesStayBelow(c, folder);
      NodeNamesRelative(c);
      JoinExtends(basepath, c.FolderName());
      var w := ChildWrites(cs[..|cs| - 1], basepath);
      var all := w + [MakeDir(folder)] + Writes(c, folder);
      forall i | 0 <= i < |all|
        ensures basepath <= all[i].path
      {
        if i < |w| {
          assert all[i] == w[i];
        } else if i == |w| {
          assert all[i] == MakeDir(folder);
        } else {
          assert all[i] == Writes(c, folder)[i - |w| - 1];
        }
      }
    }
  }
}
