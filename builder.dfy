/**
 * `compile_structural_element`: the walk over the source tree that builds
 * the structural tree. `Build` states what the walk produces; `Compile` is
 * the loop that fills in an `Element` through `add_child` and
 * `add_question`, proved to produce exactly that.
 */
module Builder {
  import opened Wrappers
  import opened Paths
  import opened Slugs
  import opened SourceTree
  import opened Document
  import opened Writer
  import opened Elements

  /**
   * The one failure the walk meets on its own: a directory named like the
   * category descriptor passes the `in paths` test, and `open` on it raises.
   */
  datatype BuildError = IsADirectory(path: string)

  /**
   * The folder's title: the last '/'-segment of the descriptor's category
   * path when the folder holds a descriptor, else the title passed in.
   */
  function ResolveTitle(d: Dir, basepath: string, title: string): Result<string, BuildError> {
    match Lookup(d.entries, CategoryFile)
    case None => Ok(title)
    case Some(File(_, meta)) => Ok(LastSegment(meta))
    case Some(Subdir(_, _)) => Err(IsADirectory(Join(basepath, CategoryFile)))
  }

  /**
   * Without a descriptor the title is the one passed in; a descriptor that
   * is a directory is the one failure; otherwise the title is the last
   * segment of the descriptor's category path.
   */
  lemma ResolveTitleSpec(d: Dir, basepath: string, title: string)
    ensures var r := ResolveTitle(d, basepath, title);
      (forall i :: 0 <= i < |d.entries| ==> d.entries[i].name != CategoryFile) ==> r == Ok(title)
    ensures var r := ResolveTitle(d, basepath, title);
      r.Err? <==> Lookup(d.entries, CategoryFile).Some? && Lookup(d.entries, CategoryFile).value.Subdir?
    ensures var r := ResolveTitle(d, basepath, title);
      r.Err? ==> r.error.path == Join(basepath, CategoryFile)
    ensures var r := ResolveTitle(d, basepath, title);
      r.Ok? && Lookup(d.entries, CategoryFile).Some? ==> IsLastSegment(r.value, Lookup(d.entries, CategoryFile).value.meta)
  {
  }

  /** The node `compile_structural_element(basepath, title, level)` returns for the folder `d`. */
  function Build(d: Dir, basepath: string, title: string, level: nat): Result<Node, BuildError>
    requires level <= 3
    decreases d, 1
  {
    var t :- ResolveTitle(d, basepath, title);
    Scan(d, basepath, level, |d.entries|, Node(RoleAt(level), t, "", [], []))
  }

  /** The node after the loop has handled the first `k` entries, starting from `acc`. */
  function Scan(d: Dir, basepath: string, level: nat, k: nat, acc: Node): Result<Node, BuildError>
    requires level <= 3 && k <= |d.entries|
    decreases d, 0, k
  {
    if k == 0 then Ok(acc)
    else
      var prev :- Scan(d, basepath, level, k - 1, acc);
      var e := d.entries[k - 1];
      var full := Join(basepath, e.name);
      match e
      case Subdir(name, sub) =>
        if level < 3 then
          assert e in d.entries;
          var child :- Build(sub, full, name, level + 1);
          Ok(prev.(children := prev.children + [child]))
        else Ok(prev)
      case File(name, meta) =>
        if IsQuestionFile(name) then Ok(prev.(questions := prev.questions + [NewQuestion(full, meta)]))
        else Ok(prev)
  }

  /** The questions the question files among `es` give, in listing order. */
  function QuestionsOf(es: seq<Entry>, basepath: string): seq<Question> {
    if es == [] then []
    else
      var e := es[|es| - 1];
      QuestionsOf(es[..|es| - 1], basepath)
      + (if e.File? && IsQuestionFile(e.name) then [NewQuestion(Join(basepath, e.name), e.meta)] else [])
  }

  /** The questions are `NewQuestion` mapped over the question files: one per file, same order. */
  lemma {:induction false} QuestionsOfFiles(es: seq<Entry>, basepath: string)
    ensures |QuestionsOf(es, basepath)| == |QuestionFiles(es)|
    ensures forall i :: 0 <= i < |QuestionFiles(es)| ==>
      QuestionsOf(es, basepath)[i] == NewQuestion(Join(basepath, QuestionFiles(es)[i].name), QuestionFiles(es)[i].meta)
    decreases |es|
  {
    if es != [] {
      var init := es[..|es| - 1];
      QuestionsOfFiles(init, basepath);
      QuestionFilesLast(es);
    }
  }

  /** The number of folders the walk from `d` at depth `level` visits, itself included. */
  function Visited(d: Dir, level: nat): nat
    decreases d, 1
  {
    1 + VisitedIn(d, level, |d.entries|)
  }

  function VisitedIn(d: Dir, level: nat, k: nat): nat
    requires k <= |d.entries|
    decreases d, 0, k
  {
    if k == 0 then 0
    else
      var e := d.entries[k - 1];
      VisitedIn(d, level, k - 1)
      + (if e.Subdir? && level < 3 then (assert e in d.entries; Visited(e.dir, level + 1)) else 0)
  }

  /** Once an entry fails, the rest of the loop is never reached: the failure is the result. */
  lemma {:induction false} ScanErrSticky(d: Dir, basepath: string, level: nat, k: nat, m: nat, acc: Node)
    requires level <= 3 && k <= m <= |d.entries|
    requires Scan(d, basepath, level, k, acc).Err?
    ensures Scan(d, basepath, level, m, acc) == Scan(d, basepath, level, k, acc)
    decreases m
  {
    if k < m {
      ScanErrSticky(d, basepath, level, k, m - 1, acc);
      ScanFails(d, basepath, level, m - 1, acc);
    }
  }

  /** A failed loop stays failed after one more entry. */
  lemma ScanFails(d: Dir, basepath: string, level: nat, i: nat, acc: Node)
    requires level <= 3 && i < |d.entries|
    requires Scan(d, basepath, level, i, acc).Err?
    ensures Scan(d, basepath, level, i + 1, acc) == Scan(d, basepath, level, i, acc)
  {
  }

  /** The loop never touches the role, the title or the introduction. */
  lemma {:induction false} ScanKeeps(d: Dir, basepath: string, level: nat, k: nat, acc: Node)
    requires level <= 3 && k <= |d.entries|
    requires Scan(d, basepath, level, k, acc).Ok?
    ensures Scan(d, basepath, level, k, acc).value.role == acc.role
    ensures Scan(d, basepath, level, k, acc).value.title == acc.title
    ensures Scan(d, basepath, level, k, acc).value.introduction == acc.introduction
  {
    if k > 0 {
      ScanKeeps(d, basepath, level, k - 1, acc);
    }
  }

  /**
   * The questions after `k` entries: those the loop started with, then one
   * per question file among the entries, in listing order.
   */
  lemma {:induction false} ScanQuestions(d: Dir, basepath: string, level: nat, k: nat, acc: Node)
    requires level <= 3 && k <= |d.entries|
    requires Scan(d, basepath, level, k, acc).Ok?
    ensures Scan(d, basepath, level, k, acc).value.questions == acc.questions + QuestionsOf(d.entries[..k], basepath)
  {
    if k > 0 {
      var prev := Scan(d, basepath, level, k - 1, acc);
      assert prev.Ok?;
      ScanQuestions(d, basepath, level, k - 1, acc);
      ScanStep(d, basepath, level, k - 1, acc, prev.value);
      var es := d.entries[..k];
      assert es[..k - 1] == d.entries[..k - 1];
      assert es[k - 1] == d.entries[k - 1];
    }
  }

  /**
   * The children after `k` entries: those the loop started with, then (only
   * below depth 3) one per subdirectory among the entries, in listing
   * order, each the tree built from that subdirectory.
   */
  lemma {:induction false} ScanChildren(d: Dir, basepath: string, level: nat, k: nat, acc: Node)
    requires level <= 3 && k <= |d.entries|
    requires Scan(d, basepath, level, k, acc).Ok?
    ensures acc.children <= Scan(d, basepath, level, k, acc).value.children
    ensures level == 3 ==> Scan(d, basepath, level, k, acc).value.children == acc.children
    ensures level < 3 ==>
      |Scan(d, basepath, level, k, acc).value.children| == |acc.children| + |Subdirs(d.entries[..k])|
    ensures level < 3 ==> forall j :: 0 <= j < |Subdirs(d.entries[..k])| ==>
      ChildBuilt(Subdirs(d.entries[..k])[j], basepath, level,
                 Scan(d, basepath, level, k, acc).value.children[|acc.children| + j])
  {
    if k > 0 {
      var es := d.entries[..k];
      var e := d.entries[k - 1];
      assert es[..k - 1] == d.entries[..k - 1];
      assert es[k - 1] == e;
      ScanChildren(d, basepath, level, k - 1, acc);
      var prev := Scan(d, basepath, level, k - 1, acc).value;
      var n := Scan(d, basepath, level, k, acc).value;
      var subsBefore := Subdirs(d.entries[..k - 1]);
      if e.Subdir? && level < 3 {
        var child := Build(e.dir, Join(basepath, e.name), e.name, level + 1).value;
        assert n.children == prev.children + [child];
        assert Subdirs(es) == subsBefore + [e];
        forall j | 0 <= j < |Subdirs(es)|
          ensures ChildBuilt(Subdirs(es)[j], basepath, level, n.children[|acc.children| + j])
        {
          if j < |subsBefore| {
            assert Subdirs(es)[j] == subsBefore[j];
            assert n.children[|acc.children| + j] == prev.children[|acc.children| + j];
          }
        }
      }
    }
  }

  /** The subdirectory entry `sub` of a folder under `basepath` at depth `level` builds to `child`. */
  ghost predicate ChildBuilt(sub: Entry, basepath: string, level: nat, child: Node)
    requires sub.Subdir? && level < 3
  {
    Build(sub.dir, Join(basepath, sub.name), sub.name, level + 1) == Ok(child)
  }

  /**
   * Classification and order. A folder that builds gives a node with the
   * role `level_map` assigns to its depth and an empty introduction; its
   * `questions` are exactly the `.xml` files other than the descriptor, and
   * its `children` exactly the nodes built from its subdirectories, both in
   * listing order; at depth 3 it has no children at all.
   */
  lemma BuildClassifies(d: Dir, basepath: string, title: string, level: nat)
    requires level <= 3 && Build(d, basepath, title, level).Ok?
    ensures Build(d, basepath, title, level).value.role == RoleAt(level)
    ensures Build(d, basepath, title, level).value.introduction == ""
    ensures Build(d, basepath, title, level).value.questions == QuestionsOf(d.entries, basepath)
    ensures level == 3 ==> Build(d, basepath, title, level).value.children == []
    ensures level < 3 ==> |Build(d, basepath, title, level).value.children| == |Subdirs(d.entries)|
    ensures level < 3 ==> forall j :: 0 <= j < |Subdirs(d.entries)| ==>
      ChildBuilt(Subdirs(d.entries)[j], basepath, level, Build(d, basepath, title, level).value.children[j])
  {
    var t := ResolveTitle(d, basepath, title).value;
    var seed := Node(RoleAt(level), t, "", [], []);
    BuildUnfold(d, basepath, title, level, t);
    assert d.entries[..|d.entries|] == d.entries;
    ScanKeeps(d, basepath, level, |d.entries|, seed);
    ScanQuestions(d, basepath, level, |d.entries|, seed);
    ScanChildren(d, basepath, level, |d.entries|, seed);
  }

  /**
   * Title resolution: with a descriptor file, the title is the last
   * '/'-segment of its category path (so it holds no '/'); without one, it
   * is the title passed in. A directory named like the descriptor makes the
   * whole walk fail.
   */
  lemma BuildTitle(d: Dir, basepath: string, title: string, level: nat)
    requires level <= 3
    ensures Lookup(d.entries, CategoryFile).None? && Build(d, basepath, title, level).Ok? ==>
      Build(d, basepath, title, level).value.title == title
    ensures Lookup(d.entries, CategoryFile).Some? && Lookup(d.entries, CategoryFile).value.File? &&
            Build(d, basepath, title, level).Ok? ==>
      Build(d, basepath, title, level).value.title == LastSegment(Lookup(d.entries, CategoryFile).value.meta)
    ensures Lookup(d.entries, CategoryFile).Some? && Lookup(d.entries, CategoryFile).value.Subdir? ==>
      Build(d, basepath, title, level) == Err(IsADirectory(Join(basepath, CategoryFile)))
  {
    var r := ResolveTitle(d, basepath, title);
    if r.Ok? && Build(d, basepath, title, level).Ok? {
      BuildUnfold(d, basepath, title, level, r.value);
      ScanKeeps(d, basepath, level, |d.entries|, Node(RoleAt(level), r.value, "", [], []));
    }
  }

  /**
   * A category path names the folder by its last segment, whatever the
   * folder is called: "A/B/Sales" names it "Sales".
   */
  lemma DescriptorNamesFolder(d: Dir, basepath: string, title: string, level: nat, parents: string, seg: string)
    requires level <= 3 && Build(d, basepath, title, level).Ok? && '/' !in seg
    requires Lookup(d.entries, CategoryFile) == Some(File(CategoryFile, parents + "/" + seg))
    ensures Build(d, basepath, title, level).value.title == seg
  {
    BuildTitle(d, basepath, title, level);
    LastSegmentAfterSlash(parents, seg);
  }

  /**
   * The role invariant and the depth bound: every node of a built tree has
   * the role of its depth, children sit one level deeper, nothing is built
   * below depth 3, so the tree is at most `3 - level` deep however deep the
   * folders go.
   */
  lemma {:induction false} BuildLeveled(d: Dir, basepath: string, title: string, level: nat)
    requires level <= 3 && Build(d, basepath, title, level).Ok?
    ensures Leveled(Build(d, basepath, title, level).value, level)
    ensures Height(Build(d, basepath, title, level).value) <= 3 - level
    decreases d
  {
    var n := Build(d, basepath, title, level).value;
    var subs := Subdirs(d.entries);
    BuildClassifies(d, basepath, title, level);
    forall j | 0 <= j < |n.children|
      ensures Leveled(n.children[j], level + 1)
    {
      assert subs[j] in d.entries;
      assert ChildBuilt(subs[j], basepath, level, n.children[j]);
      BuildLeveled(subs[j].dir, Join(basepath, subs[j].name), subs[j].name, level + 1);
    }
    LeveledHeight(n, level);
  }

  /** One structural node per folder the walk visits. */
  lemma {:induction false} BuildSize(d: Dir, basepath: string, title: string, level: nat)
    requires level <= 3 && Build(d, basepath, title, level).Ok?
    ensures Size(Build(d, basepath, title, level).value) == Visited(d, level)
    decreases d, 1
  {
    var t := ResolveTitle(d, basepath, title).value;
    ScanSize(d, basepath, level, |d.entries|, Node(RoleAt(level), t, "", [], []));
  }

  lemma {:induction false} ScanSize(d: Dir, basepath: string, level: nat, k: nat, acc: Node)
    requires level <= 3 && k <= |d.entries|
    requires Scan(d, basepath, level, k, acc).Ok?
    ensures SizeOf(Scan(d, basepath, level, k, acc).value.children) == SizeOf(acc.children) + VisitedIn(d, level, k)
    decreases d, 0, k
  {
    if k > 0 {
      assert Scan(d, basepath, level, k - 1, acc).Ok?;
      var prev := Scan(d, basepath, level, k - 1, acc).value;
      ScanSize(d, basepath, level, k - 1, acc);
      ScanStep(d, basepath, level, k - 1, acc, prev);
      var e := d.entries[k - 1];
      if e.Subdir? && level < 3 {
        assert e in d.entries;
        var child := Build(e.dir, Join(basepath, e.name), e.name, level + 1).value;
        BuildSize(e.dir, Join(basepath, e.name), e.name, level + 1);
        assert (prev.children + [child])[..|prev.children|] == prev.children;
      }
    }
  }

  function Min(a: int, b: int): int {
    if a < b then a else b
  }

  /**
   * The built tree is exactly as deep as the folder tree, cut off at
   * depth 3: folders below depth 3 are never visited.
   */
  lemma {:induction false} BuildHeight(d: Dir, basepath: string, title: string, level: nat)
    requires level <= 3 && Build(d, basepath, title, level).Ok?
    ensures Height(Build(d, basepath, title, level).value) == Min(DirHeight(d), 3 - level)
    decreases d, 1
  {
    var t := ResolveTitle(d, basepath, title).value;
    BuildUnfold(d, basepath, title, level, t);
    ScanHeight(d, basepath, level, |d.entries|, Node(RoleAt(level), t, "", [], []));
  }

  lemma {:induction false} ScanHeight(d: Dir, basepath: string, level: nat, k: nat, acc: Node)
    requires level <= 3 && k <= |d.entries| && acc.children == []
    requires Scan(d, basepath, level, k, acc).Ok?
    ensures HeightOf(Scan(d, basepath, level, k, acc).value.children) == Min(DirHeightIn(d, k), 3 - level)
    decreases d, 0, k, 1
  {
    if k > 0 {
      assert Scan(d, basepath, level, k - 1, acc).Ok?;
      ScanHeight(d, basepath, level, k - 1, acc);
      ScanHeightStep(d, basepath, level, k, acc);
    }
  }

  /** `ScanHeight` for one more entry, given it for the entries before. */
  lemma ScanHeightStep(d: Dir, basepath: string, level: nat, k: nat, acc: Node)
    requires level <= 3 && 0 < k <= |d.entries|
    requires Scan(d, basepath, level, k - 1, acc).Ok? && Scan(d, basepath, level, k, acc).Ok?
    requires HeightOf(Scan(d, basepath, level, k - 1, acc).value.children) == Min(DirHeightIn(d, k - 1), 3 - level)
    ensures HeightOf(Scan(d, basepath, level, k, acc).value.children) == Min(DirHeightIn(d, k), 3 - level)
    decreases d, 0, k, 0
  {
    var prev := Scan(d, basepath, level, k - 1, acc).value;
    ScanStep(d, basepath, level, k - 1, acc, prev);
    var e := d.entries[k - 1];
    var after := Scan(d, basepath, level, k, acc).value.children;
    if e.Subdir? && level < 3 {
      assert e in d.entries;
      var child := Build(e.dir, Join(basepath, e.name), e.name, level + 1).value;
      BuildHeight(e.dir, Join(basepath, e.name), e.name, level + 1);
      HeightStep(d, level, k, prev.children, child, after);
    } else {
      HeightStep(d, level, k, prev.children, acc, after);
    }
  }

  /** One more entry: a subdirectory below depth 3 adds a child as deep as the subdirectory, cut off at depth 3. */
  lemma HeightStep(d: Dir, level: nat, k: nat, before: seq<Node>, c: Node, after: seq<Node>)
    requires level <= 3 && 0 < k <= |d.entries|
    requires HeightOf(before) == Min(DirHeightIn(d, k - 1), 3 - level)
    requires var e := d.entries[k - 1];
      if e.Subdir? && level < 3 then
        after == before + [c] && Height(c) == Min(DirHeight(e.dir), 3 - (level + 1))
      else after == before
    ensures HeightOf(after) == Min(DirHeightIn(d, k), 3 - level)
  {
    var e := d.entries[k - 1];
    if e.Subdir? && level < 3 {
      HeightOfSnoc(before, c);
    }
  }

  /**
   * End to end: generating from a folder tree writes exactly one file per
   * folder the walk visits.
   */
  lemma FilesPerFolder(d: Dir, source: string, title: string, output: string)
    requires Build(d, source, title, 0).Ok?
    ensures WriteCount(Writes(Build(d, source, title, 0).value, output)) == Visited(d, 0)
  {
    BuildSize(d, source, title, 0);
    WritesCount(Build(d, source, title, 0).value, output);
  }

  /** Listing order is kept: `[q2.xml, q1.xml]` gives the questions in that order, not sorted. */
  lemma LeafOrder(basepath: string, title: string, t1: string, t2: string)
    ensures Build(Dir([File("q2.xml", t2), File("q1.xml", t1)]), basepath, title, 1)
      == Ok(Node(Chapter, title, "",
                 [NewQuestion(Join(basepath, "q2.xml"), t2), NewQuestion(Join(basepath, "q1.xml"), t1)], []))
  {
    var d := Dir([File("q2.xml", t2), File("q1.xml", t1)]);
    var seed := Node(Chapter, title, "", [], []);
    var q2, q1 := NewQuestion(Join(basepath, "q2.xml"), t2), NewQuestion(Join(basepath, "q1.xml"), t1);
    assert Lookup(d.entries, CategoryFile) == None;
    assert IsQuestionFile("q2.xml") && IsQuestionFile("q1.xml");
    BuildUnfold(d, basepath, title, 1, title);
    assert Scan(d, basepath, 1, 0, seed) == Ok(seed);
    ScanStep(d, basepath, 1, 0, seed, seed);
    assert d.entries[0] == File("q2.xml", t2) && d.entries[1] == File("q1.xml", t1);
    assert seed.questions + [q2] == [q2] && [q2] + [q1] == [q2, q1];
    assert Scan(d, basepath, 1, 1, seed) == Ok(seed.(questions := [q2]));
    ScanStep(d, basepath, 1, 1, seed, seed.(questions := [q2]));
  }

  /** The chapter the example run builds for `stack/Unit1`. */
  function ExampleUnit(tag: string): Node {
    Node(Chapter, "Unit1", "", [NewQuestion("source/stack/Unit1/q1.xml", tag)], [])
  }

  /**
   * A whole run on `stack/Unit1/q1.xml` with the seed title "Gold": the
   * root has the chapter "Unit1" as its only child and no questions, the
   * chapter owns the question, and generating into "source" writes
   * "source/main.ptx", creates the chapter's folder and writes the
   * chapter's file into it.
   */
  lemma EndToEnd(tag: string)
    ensures Build(Dir([Subdir("Unit1", Dir([File("q1.xml", tag)]))]), "source/stack", "Gold", 0)
      == Ok(Node(Main, "Gold", "", [], [ExampleUnit(tag)]))
    ensures Writes(Node(Main, "Gold", "", [], [ExampleUnit(tag)]), "source") ==
      [ Write("source/main.ptx", Render(Node(Main, "Gold", "", [], [ExampleUnit(tag)]), "source")),
        MakeDir(Join("source", Slugify("Unit1"))),
        Write(Join(Join("source", Slugify("Unit1")), Slugify("Unit1") + ".ptx"),
              Render(ExampleUnit(tag), Join("source", Slugify("Unit1")))) ]
  {
    ExampleBuild(tag);
    ExampleWrites(tag);
  }

  lemma ExampleBuild(tag: string)
    ensures Build(Dir([Subdir("Unit1", Dir([File("q1.xml", tag)]))]), "source/stack", "Gold", 0)
      == Ok(Node(Main, "Gold", "", [], [ExampleUnit(tag)]))
  {
    var leaf := Dir([File("q1.xml", tag)]);
    var d := Dir([Subdir("Unit1", leaf)]);
    var q := NewQuestion("source/stack/Unit1/q1.xml", tag);
    var unitSeed := Node(Chapter, "Unit1", "", [], []);
    var rootSeed := Node(Main, "Gold", "", [], []);
    assert Lookup(leaf.entries, CategoryFile) == None;
    assert Lookup(d.entries, CategoryFile) == None;
    assert IsQuestionFile("q1.xml");
    assert Join("source/stack", "Unit1") == "source/stack/Unit1";
    assert Join("source/stack/Unit1", "q1.xml") == "source/stack/Unit1/q1.xml";
    BuildUnfold(leaf, "source/stack/Unit1", "Unit1", 1, "Unit1");
    assert Scan(leaf, "source/stack/Unit1", 1, 0, unitSeed) == Ok(unitSeed);
    ScanStep(leaf, "source/stack/Unit1", 1, 0, unitSeed, unitSeed);
    assert leaf.entries[0] == File("q1.xml", tag);
    assert unitSeed.questions + [q] == [q];
    assert Build(leaf, "source/stack/Unit1", "Unit1", 1) == Ok(ExampleUnit(tag));
    BuildUnfold(d, "source/stack", "Gold", 0, "Gold");
    assert Scan(d, "source/stack", 0, 0, rootSeed) == Ok(rootSeed);
    ScanStep(d, "source/stack", 0, 0, rootSeed, rootSeed);
    assert d.entries[0] == Subdir("Unit1", leaf);
    assert rootSeed.children + [ExampleUnit(tag)] == [ExampleUnit(tag)];
  }

  lemma ExampleWrites(tag: string)
    ensures Writes(Node(Main, "Gold", "", [], [ExampleUnit(tag)]), "source") ==
      [ Write("source/main.ptx", Render(Node(Main, "Gold", "", [], [ExampleUnit(tag)]), "source")),
        MakeDir(Join("source", Slugify("Unit1"))),
        Write(Join(Join("source", Slugify("Unit1")), Slugify("Unit1") + ".ptx"),
              Render(ExampleUnit(tag), Join("source", Slugify("Unit1")))) ]
  {
    var unit := ExampleUnit(tag);
    var root := Node(Main, "Gold", "", [], [unit]);
    var folder := Join("source", Slugify("Unit1"));
    assert Join("source", "main.ptx") == "source/main.ptx";
    assert [unit][..0] == [];
    assert ChildWrites([unit], "source") == ChildWrites([], "source") + [MakeDir(folder)] + Writes(unit, folder);
    assert ChildWrites(unit.children, folder) == [];
  }

  /** One more entry of the loop, for each of its three branches. */
  lemma ScanStep(d: Dir, basepath: string, level: nat, i: nat, seed: Node, m: Node)
    requires level <= 3 && i < |d.entries|
    requires Scan(d, basepath, level, i, seed) == Ok(m)
    ensures var e := d.entries[i];
      !(e.Subdir? && level < 3) && !(e.File? && IsQuestionFile(e.name)) ==>
        Scan(d, basepath, level, i + 1, seed) == Ok(m)
    ensures var e := d.entries[i];
      e.File? && IsQuestionFile(e.name) ==>
        Scan(d, basepath, level, i + 1, seed)
          == Ok(m.(questions := m.questions + [NewQuestion(Join(basepath, e.name), e.meta)]))
    ensures var e := d.entries[i];
      e.Subdir? && level < 3 ==>
        Scan(d, basepath, level, i + 1, seed) ==
          match Build(e.dir, Join(basepath, e.name), e.name, level + 1)
          case Ok(c) => Ok(m.(children := m.children + [c]))
          case Err(err) => Err(err)
  {
  }

  /** `Build` is the loop over all entries, seeded with the resolved title. */
  lemma BuildUnfold(d: Dir, basepath: string, title: string, level: nat, t: string)
    requires level <= 3 && ResolveTitle(d, basepath, title) == Ok(t)
    ensures Build(d, basepath, title, level) == Scan(d, basepath, level, |d.entries|, Node(RoleAt(level), t, "", [], []))
  {
  }

  /**
   * `compile_structural_element(basepath, title, level)`: resolve the
   * title, create the element of the role for `level`, then walk the
   * entries in listing order.
   */
  method Compile(d: Dir, basepath: string, title: string, level: nat) returns (r: Result<Element, BuildError>)
    requires level <= 3
    ensures r.Ok? ==> r.value.Valid() && fresh(r.value.Repr)
    ensures r.Ok? ==> Build(d, basepath, title, level) == Ok(r.value.model)
    ensures r.Err? ==> Build(d, basepath, title, level) == Err(r.error)
    decreases d, 2
  {
    var t := title;
    var descriptor := Lookup(d.entries, CategoryFile);
    if descriptor.Some? {
      match descriptor.value
      case Subdir(_, _) =>
        return Err(IsADirectory(Join(basepath, CategoryFile)));
      case File(_, meta) =>
        t := LastSegment(meta);
    }
    assert ResolveTitle(d, basepath, title) == Ok(t);
    BuildUnfold(d, basepath, title, level, t);
    var elem := new Element(RoleAt(level), t, "");
    var failure := CompileEntries(elem, d, basepath, level);
    if failure.Some? {
      return Err(failure.value);
    }
    return Ok(elem);
  }

  /** The loop of `compile_structural_element` over the folder's entries, filling in `elem`. */
  method CompileEntries(elem: Element, d: Dir, basepath: string, level: nat) returns (failure: Option<BuildError>)
    requires level <= 3 && elem.Valid()
    modifies elem
    ensures elem.Valid() && fresh(elem.Repr - old(elem.Repr))
    ensures failure.None? ==> Scan(d, basepath, level, |d.entries|, old(elem.model)) == Ok(elem.model)
    ensures failure.Some? ==> Scan(d, basepath, level, |d.entries|, old(elem.model)) == Err(failure.value)
    decreases d, 1
  {
    var paths := d.entries;
    ghost var seed := elem.model;
    var i := 0;
    while i < |paths|
      invariant 0 <= i <= |paths| && seed == old(elem.model)
      invariant elem.Valid() && fresh(elem.Repr - old(elem.Repr))
      invariant Scan(d, basepath, level, i, seed) == Ok(elem.model)
    {
      failure := AddEntry(elem, d, basepath, level, i, seed);
      if failure.Some? {
        return;
      }
      i := i + 1;
    }
    return None;
  }

  /**
   * One pass of the loop over the entries: a subdirectory above depth 3 is
   * compiled and added as a child, an `.xml` file other than the
   * descriptor is added as a question, anything else is passed over.
   */
  method AddEntry(elem: Element, d: Dir, basepath: string, level: nat, i: nat, ghost seed: Node)
    returns (failure: Option<BuildError>)
    requires level <= 3 && i < |d.entries|
    requires elem.Valid() && Scan(d, basepath, level, i, seed) == Ok(elem.model)
    modifies elem
    ensures elem.Valid() && fresh(elem.Repr - old(elem.Repr))
    ensures failure.None? ==> Scan(d, basepath, level, i + 1, seed) == Ok(elem.model)
    ensures failure.Some? ==> Scan(d, basepath, level, |d.entries|, seed) == Err(failure.value)
    decreases d, 0, 1
  {
    failure := None;
    var entry := d.entries[i];
    if entry.Subdir? && level < 3 {
      failure := AddSubdir(elem, d, basepath, level, i, seed);
      return;
    }
    ScanStep(d, basepath, level, i, seed, elem.model);
    if entry.File? && IsQuestionFile(entry.name) {
      elem.AddQuestion(NewQuestion(Join(basepath, entry.name), entry.meta));
    }
  }

  /** The subdirectory branch of `AddEntry`: compile the subdirectory one level deeper and add it as a child. */
  method AddSubdir(elem: Element, d: Dir, basepath: string, level: nat, i: nat, ghost seed: Node)
    returns (failure: Option<BuildError>)
    requires level < 3 && i < |d.entries| && d.entries[i].Subdir?
    requires elem.Valid() && Scan(d, basepath, level, i, seed) == Ok(elem.model)
    modifies elem
    ensures elem.Valid() && fresh(elem.Repr - old(elem.Repr))
    ensures failure.None? ==> Scan(d, basepath, level, i + 1, seed) == Ok(elem.model)
    ensures failure.Some? ==> Scan(d, basepath, level, |d.entries|, seed) == Err(failure.value)
    decreases d, 0, 0
  {
    var entry := d.entries[i];
    assert entry in d.entries;
    var child := Compile(entry.dir, Join(basepath, entry.name), entry.name, level + 1);
    SubdirStep(d, basepath, level, i, seed, elem.model);
    if child.Err? {
      return Some(child.error);
    }
    elem.AddChild(child.value);
    return None;
  }

  /** A subdirectory entry below depth 3: its tree is appended as a child, or its failure ends the loop. */
  lemma SubdirStep(d: Dir, basepath: string, level: nat, i: nat, seed: Node, m: Node)
    requires level < 3 && i < |d.entries| && d.entries[i].Subdir?
    requires Scan(d, basepath, level, i, seed) == Ok(m)
    ensures var e := d.entries[i];
      var r := Build(e.dir, Join(basepath, e.name), e.name, level + 1);
      r.Ok? ==> Scan(d, basepath, level, i + 1, seed) == Ok(m.(children := m.children + [r.value]))
    ensures var e := d.entries[i];
      var r := Build(e.dir, Join(basepath, e.name), e.name, level + 1);
      r.Err? ==> Scan(d, basepath, level, |d.entries|, seed) == Err(r.error)
  {
    ScanStep(d, basepath, level, i, seed, m);
    var e := d.entries[i];
    if Build(e.dir, Join(basepath, e.name), e.name, level + 1).Err? {
      ScanErrSticky(d, basepath, level, i + 1, |d.entries|, seed);
    }
  }
}
