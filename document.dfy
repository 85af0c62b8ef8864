/**
 * The PreTeXt structure the generator produces: the four structural roles,
 * the names derived from a node's slug and role, the question leaves, the
 * value form of a structural element, and what `render` emits.
 */
module Document {
  import opened Wrappers
  import opened Paths
  import opened Slugs

  /** The structural classes PTXMain, PTXChapter, PTXSection and PTXSubsection. */
  datatype Role = Main | Chapter | Section | Subsection

  /** `level_map`: the role built at each depth; any other level is a failed lookup. */
  function LevelMap(level: nat): (r: Option<Role>)
    ensures r.Some? <==> level <= 3
  {
    match level
    case 0 => Some(Main)
    case 1 => Some(Chapter)
    case 2 => Some(Section)
    case 3 => Some(Subsection)
    case _ => None
  }

  /** The depth at which the builder creates a node of role `r`: `LevelMap` read backwards. */
  function Depth(r: Role): (d: nat)
    ensures d <= 3 && LevelMap(d) == Some(r)
    ensures forall l: nat :: LevelMap(l) == Some(r) ==> l == d
  {
    match r
    case Main => 0
    case Chapter => 1
    case Section => 2
    case Subsection => 3
  }

  function RoleAt(level: nat): Role
    requires level <= 3
  {
    LevelMap(level).value
  }

  /** `element_name` of the three classes below the root; PTXMain has none. */
  function ElementName(r: Role): string
    requires r != Main
  {
    match r
    case Chapter => "chapter"
    case Section => "section"
    case Subsection => "subsection"
  }

  /** The prefix each class puts before the slug to form `xml_id`. */
  function IdPrefix(r: Role): string
    requires r != Main
  {
    match r
    case Chapter => "ch-"
    case Section => "sec-"
    case Subsection => "subsec-"
  }

  /** `foldername`: the slug, overridden to "." by PTXMain. */
  function FolderNameFor(r: Role, slug: string): string {
    if r == Main then "." else slug
  }

  /** `filename`: the slug plus ".ptx", overridden to "main.ptx" by PTXMain. */
  function FileNameFor(r: Role, slug: string): string {
    if r == Main then "main.ptx" else slug + ".ptx"
  }

  /** `xml_id`: set by each subclass below the root; PTXMain never sets one. */
  function XmlIdFor(r: Role, slug: string): Option<string> {
    if r == Main then None else Some(IdPrefix(r) + slug)
  }

  /**
   * The role prefixes keep identifiers apart: two nodes below the root have
   * the same `xml_id` only if they have the same role and the same slug.
   */
  lemma XmlIdInjective(r1: Role, s1: string, r2: Role, s2: string)
    requires r1 != Main && r2 != Main
    ensures XmlIdFor(r1, s1) == XmlIdFor(r2, s2) <==> r1 == r2 && s1 == s2
  {
    if XmlIdFor(r1, s1) == XmlIdFor(r2, s2) {
      var id := IdPrefix(r1) + s1;
      assert id == IdPrefix(r2) + s2;
      assert id[0] == IdPrefix(r1)[0] == IdPrefix(r2)[0];
      assert id[1] == IdPrefix(r1)[1] == IdPrefix(r2)[1];
      assert r1 == r2;
      assert s1 == id[|IdPrefix(r1)|..] == s2;
    }
  }

  /**
   * Neither name of a node whose slug has no '/' can make `Join` drop the
   * base path, and the file name is a single path component.
   */
  lemma NamesAreRelative(r: Role, slug: string)
    requires '/' !in slug
    ensures Relative(FolderNameFor(r, slug)) && Relative(FileNameFor(r, slug))
    ensures '/' !in FileNameFor(r, slug)
  {
    if r != Main {
      var f := slug + ".ptx";
      assert forall i :: 0 <= i < |f| ==> f[i] == (if i < |slug| then slug[i] else ".ptx"[i - |slug|]);
      if slug != [] {
        assert slug[0] in slug;
      }
    }
  }

  /**
   * PTXStackQuestion as an opaque leaf: the path of its source file, the slug
   * of that path (used as the STACK label) and the title markup read from it.
   */
  datatype Question = Question(filepath: string, xmlid: string, titleTag: string)

  function NewQuestion(filepath: string, titleTag: string): Question {
    Question(filepath, Slugify(filepath), titleTag)
  }

  /** A structural element as a value: what a PTXStructuralElement object holds. */
  datatype Node = Node(role: Role, title: string, introduction: string,
                       questions: seq<Question>, children: seq<Node>)
  {
    /** `title_slug`. */
    function Slug(): string {
      Slugify(title)
    }

    function FolderName(): string {
      FolderNameFor(role, Slug())
    }

    function FileName(): string {
      FileNameFor(role, Slug())
    }

    function XmlId(): Option<string> {
      XmlIdFor(role, Slug())
    }

    /** `rel_path`: where the node's file lies relative to its parent's folder. */
    function RelPath(): string {
      Join(FolderName(), FileName())
    }
  }

  /**
   * The structural pieces of a rendered file, in document order; whitespace
   * and comments of the templates are not modelled. A question block keeps
   * the two arguments of its `os.path.relpath` call instead of the result.
   */
  datatype Piece =
    | XmlDeclaration
    | OpenPretext
    | ClosePretext
    | OpenBook(bookId: string)
    | CloseBook
    | OpenElement(name: string, id: Option<string>)
    | CloseElement(name: string)
    | Title(text: string)
    | OpenIntroduction
    | CloseIntroduction
    | Text(body: string)
    | ExerciseBlock(titleTag: string, stackLabel: string, target: string, relativeTo: string)
    | Include(href: string)

  /** The externally provided files that the root includes. */
  const DocinfoHref := "./docinfo.ptx"
  const FrontmatterHref := "./frontmatter.ptx"
  const BackmatterHref := "./backmatter.ptx"

  /** `PTXStackQuestion.render(relative_to)`. */
  function QuestionBlock(q: Question, relativeTo: string): Piece {
    ExerciseBlock(q.titleTag, q.xmlid, q.filepath, relativeTo)
  }

  function QuestionBlocks(qs: seq<Question>, relativeTo: string): seq<Piece> {
    seq(|qs|, i requires 0 <= i < |qs| => QuestionBlock(qs[i], relativeTo))
  }

  /** `get_include`. */
  function IncludeOf(n: Node): Piece {
    Include(n.RelPath())
  }

  function ChildIncludes(cs: seq<Node>): seq<Piece> {
    seq(|cs|, i requires 0 <= i < |cs| => IncludeOf(cs[i]))
  }

  /** The `rel_path` of each child, in order. */
  function ChildHrefs(cs: seq<Node>): seq<string> {
    seq(|cs|, i requires 0 <= i < |cs| => cs[i].RelPath())
  }

  /**
   * The two render templates, given the field values of a node and the
   * includes of its children: PTXMain's document skeleton, and the shared
   * template of the three classes below it.
   */
  function Page(role: Role, xmlId: Option<string>, title: string, slug: string, introduction: string,
                questions: seq<Question>, basepath: string, includes: seq<Piece>): seq<Piece>
  {
    if role == Main then
      [XmlDeclaration, OpenPretext, Include(DocinfoHref), OpenBook(slug), Title(title), Include(FrontmatterHref)]
      + includes
      + [Include(BackmatterHref), CloseBook, ClosePretext]
    else
      [OpenElement(ElementName(role), xmlId), Title(title), OpenIntroduction, Text(introduction)]
      + QuestionBlocks(questions, basepath)
      + [CloseIntroduction]
      + includes
      + [CloseElement(ElementName(role))]
  }

  /** `render(basepath)` of a node. */
  function Render(n: Node, basepath: string): seq<Piece> {
    Page(n.role, n.XmlId(), n.title, n.Slug(), n.introduction, n.questions, basepath, ChildIncludes(n.children))
  }

  /**
   * The hrefs of the `Include` pieces among `ps`, in order. The include
   * inside an exercise block is that block's `target`, not one of these.
   */
  function Hrefs(ps: seq<Piece>): seq<string> {
    if ps == [] then []
    else (if ps[0].Include? then [ps[0].href] else []) + Hrefs(ps[1..])
  }

  /** The question blocks among `ps`, in order. */
  function Exercises(ps: seq<Piece>): seq<Piece> {
    if ps == [] then []
    else (if ps[0].ExerciseBlock? then [ps[0]] else []) + Exercises(ps[1..])
  }

  lemma {:induction false} HrefsAppend(a: seq<Piece>, b: seq<Piece>)
    ensures Hrefs(a + b) == Hrefs(a) + Hrefs(b)
  {
    if a == [] {
      assert a + b == b;
    } else {
      var ab := a + b;
      assert ab[0] == a[0];
      assert ab[1..] == a[1..] + b;
      HrefsAppend(a[1..], b);
    }
  }

  lemma {:induction false} ExercisesAppend(a: seq<Piece>, b: seq<Piece>)
    ensures Exercises(a + b) == Exercises(a) + Exercises(b)
  {
    if a == [] {
      assert a + b == b;
    } else {
      var ab := a + b;
      assert ab[0] == a[0];
      assert ab[1..] == a[1..] + b;
      ExercisesAppend(a[1..], b);
    }
  }

  lemma {:induction false} HrefsNone(ps: seq<Piece>)
    requires forall i :: 0 <= i < |ps| ==> !ps[i].Include?
    ensures Hrefs(ps) == []
  {
    if ps != [] {
      HrefsNone(ps[1..]);
    }
  }

  lemma {:induction false} ExercisesNone(ps: seq<Piece>)
    requires forall i :: 0 <= i < |ps| ==> !ps[i].ExerciseBlock?
    ensures Exercises(ps) == []
  {
    if ps != [] {
      ExercisesNone(ps[1..]);
    }
  }

  lemma {:induction false} HrefsOfIncludes(cs: seq<Node>)
    ensures Hrefs(ChildIncludes(cs)) == ChildHrefs(cs)
    ensures Exercises(ChildIncludes(cs)) == []
  {
    if cs != [] {
      assert ChildIncludes(cs)[1..] == ChildIncludes(cs[1..]);
      assert ChildHrefs(cs)[1..] == ChildHrefs(cs[1..]);
      HrefsOfIncludes(cs[1..]);
    }
  }

  lemma {:induction false} ExercisesOfBlocks(qs: seq<Question>, relativeTo: string)
    ensures Hrefs(QuestionBlocks(qs, relativeTo)) == []
    ensures Exercises(QuestionBlocks(qs, relativeTo)) == QuestionBlocks(qs, relativeTo)
  {
    if qs != [] {
      assert QuestionBlocks(qs, relativeTo)[1..] == QuestionBlocks(qs[1..], relativeTo);
      ExercisesOfBlocks(qs[1..], relativeTo);
    }
  }

  /** The includes of the root's template: docinfo, frontmatter, the given includes, backmatter. */
  lemma MainPageHrefs(xmlId: Option<string>, title: string, slug: string, introduction: string,
                      questions: seq<Question>, basepath: string, includes: seq<Piece>)
    ensures Hrefs(Page(Main, xmlId, title, slug, introduction, questions, basepath, includes))
      == [DocinfoHref, FrontmatterHref] + Hrefs(includes) + [BackmatterHref]
  {
    var head := [XmlDeclaration, OpenPretext, Include(DocinfoHref), OpenBook(slug), Title(title), Include(FrontmatterHref)];
    var tail := [Include(BackmatterHref), CloseBook, ClosePretext];
    assert Page(Main, xmlId, title, slug, introduction, questions, basepath, includes) == head + includes + tail;
    HrefsAppend(head + includes, tail);
    HrefsAppend(head, includes);
    MainHeadHrefs(slug, title);
    assert tail == [Include(BackmatterHref)] + [CloseBook, ClosePretext];
    HrefsAppend([Include(BackmatterHref)], [CloseBook, ClosePretext]);
    HrefsNone([CloseBook, ClosePretext]);
  }

  lemma MainHeadHrefs(slug: string, title: string)
    ensures Hrefs([XmlDeclaration, OpenPretext, Include(DocinfoHref), OpenBook(slug), Title(title), Include(FrontmatterHref)])
      == [DocinfoHref, FrontmatterHref]
  {
    var h1, d, h2, f := [XmlDeclaration, OpenPretext], [Include(DocinfoHref)], [OpenBook(slug), Title(title)], [Include(FrontmatterHref)];
    assert [XmlDeclaration, OpenPretext, Include(DocinfoHref), OpenBook(slug), Title(title), Include(FrontmatterHref)]
      == h1 + d + h2 + f;
    HrefsAppend(h1 + d + h2, f);
    HrefsAppend(h1 + d, h2);
    HrefsAppend(h1, d);
    HrefsNone(h1);
    HrefsNone(h2);
  }

  /** The includes of the template below the root: the given includes and nothing else. */
  lemma ElementPageHrefs(role: Role, xmlId: Option<string>, title: string, slug: string, introduction: string,
                         questions: seq<Question>, basepath: string, includes: seq<Piece>)
    requires role != Main
    ensures Hrefs(Page(role, xmlId, title, slug, introduction, questions, basepath, includes)) == Hrefs(includes)
  {
    var name := ElementName(role);
    var head := [OpenElement(name, xmlId), Title(title), OpenIntroduction, Text(introduction)];
    var qb := QuestionBlocks(questions, basepath);
    var ci, ce := [CloseIntroduction], [CloseElement(name)];
    assert Page(role, xmlId, title, slug, introduction, questions, basepath, includes)
      == head + qb + ci + includes + ce;
    ExercisesOfBlocks(questions, basepath);
    HrefsAppend(head + qb + ci + includes, ce);
    HrefsAppend(head + qb + ci, includes);
    HrefsAppend(head + qb, ci);
    HrefsAppend(head, qb);
    HrefsNone(head);
    HrefsNone(ci);
    HrefsNone(ce);
  }

  /**
   * The includes a rendered node carries outside its exercise blocks: for a
   * chapter, section or subsection exactly the child includes, in
   * `children` order; for the root the docinfo and frontmatter includes,
   * then the child includes in order, then the backmatter include. Each
   * exercise block carries its own include of the question file, its
   * `target` (`RenderExercises`).
   */
  lemma RenderHrefs(n: Node, basepath: string)
    ensures Hrefs(Render(n, basepath)) ==
      if n.role == Main then [DocinfoHref, FrontmatterHref] + ChildHrefs(n.children) + [BackmatterHref]
      else ChildHrefs(n.children)
  {
    HrefsOfIncludes(n.children);
    var inc := ChildIncludes(n.children);
    if n.role == Main {
      MainPageHrefs(n.XmlId(), n.title, n.Slug(), n.introduction, n.questions, basepath, inc);
    } else {
      ElementPageHrefs(n.role, n.XmlId(), n.title, n.Slug(), n.introduction, n.questions, basepath, inc);
    }
  }

  /** The root's template carries no question block, whatever questions the root owns. */
  lemma MainPageExercises(xmlId: Option<string>, title: string, slug: string, introduction: string,
                          questions: seq<Question>, basepath: string, includes: seq<Piece>)
    requires Exercises(includes) == []
    ensures Exercises(Page(Main, xmlId, title, slug, introduction, questions, basepath, includes)) == []
  {
    var h := [XmlDeclaration, OpenPretext, Include(DocinfoHref), OpenBook(slug), Title(title), Include(FrontmatterHref)];
    var t := [Include(BackmatterHref), CloseBook, ClosePretext];
    assert Page(Main, xmlId, title, slug, introduction, questions, basepath, includes) == h + includes + t;
    ExercisesAppend(h + includes, t);
    ExercisesAppend(h, includes);
    ExercisesNone(h);
    ExercisesNone(t);
  }

  /** The template below the root carries one block per question, in order. */
  lemma ElementPageExercises(role: Role, xmlId: Option<string>, title: string, slug: string, introduction: string,
                             questions: seq<Question>, basepath: string, includes: seq<Piece>)
    requires role != Main && Exercises(includes) == []
    ensures Exercises(Page(role, xmlId, title, slug, introduction, questions, basepath, includes))
      == QuestionBlocks(questions, basepath)
  {
    var name := ElementName(role);
    var head := [OpenElement(name, xmlId), Title(title), OpenIntroduction, Text(introduction)];
    var qb := QuestionBlocks(questions, basepath);
    var ci, ce := [CloseIntroduction], [CloseElement(name)];
    assert Page(role, xmlId, title, slug, introduction, questions, basepath, includes)
      == head + qb + ci + includes + ce;
    ExercisesOfBlocks(questions, basepath);
    ExercisesAppend(head + qb + ci + includes, ce);
    ExercisesAppend(head + qb + ci, includes);
    ExercisesAppend(head + qb, ci);
    ExercisesAppend(head, qb);
    ExercisesNone(head);
    ExercisesNone(ci);
    ExercisesNone(ce);
  }

  /**
   * The question blocks a rendered node carries: every question, in
   * `questions` order, for a node below the root; none for the root, whose
   * template has no place for questions even when it owns some.
   */
  lemma RenderExercises(n: Node, basepath: string)
    ensures Exercises(Render(n, basepath)) ==
      if n.role == Main then [] else QuestionBlocks(n.questions, basepath)
  {
    HrefsOfIncludes(n.children);
    var inc := ChildIncludes(n.children);
    if n.role == Main {
      MainPageExercises(n.XmlId(), n.title, n.Slug(), n.introduction, n.questions, basepath, inc);
    } else {
      ElementPageExercises(n.role, n.XmlId(), n.title, n.Slug(), n.introduction, n.questions, basepath, inc);
    }
  }

  /**
   * Layout of a chapter, section or subsection: every question block sits
   * inside the introduction, and every include comes after it.
   */
  lemma RenderLayout(n: Node, basepath: string)
    requires n.role != Main
    ensures var r, k := Render(n, basepath), 4 + |n.questions|;
      k < |r| && r[2] == OpenIntroduction && r[k] == CloseIntroduction
      && (forall i :: 0 <= i < |r| && r[i].ExerciseBlock? ==> 2 < i < k)
      && (forall i :: 0 <= i < |r| && r[i].Include? ==> k < i)
  {
  }

  /** Number of structural nodes in the tree rooted at `n`. */
  function Size(n: Node): nat
    decreases n
  {
    1 + SizeOf(n.children)
  }

  function SizeOf(cs: seq<Node>): nat
    decreases cs
  {
    if cs == [] then 0 else SizeOf(cs[..|cs| - 1]) + Size(cs[|cs| - 1])
  }

  /**
   * The role discipline of a built tree rooted at depth `level`: each node
   * has the role `level_map` gives its depth, its children sit one level
   * deeper, and a node at depth 3 has no children.
   */
  ghost predicate Leveled(n: Node, level: nat)
    decreases n
  {
    && level <= 3
    && n.role == RoleAt(level)
    && (level == 3 ==> n.children == [])
    && forall i :: 0 <= i < |n.children| ==> Leveled(n.children[i], level + 1)
  }

  /** Depth of the tree below `n` (a leaf node has height 0). */
  function Height(n: Node): nat
    decreases n
  {
    HeightOf(n.children)
  }

  function HeightOf(cs: seq<Node>): nat
    decreases cs
  {
    if cs == [] then 0
    else
      var h := 1 + Height(cs[|cs| - 1]);
      var rest := HeightOf(cs[..|cs| - 1]);
      if h < rest then rest else h
  }

  /** Appending a child raises the height to that child's height plus one, when that is more. */
  lemma HeightOfSnoc(cs: seq<Node>, c: Node)
    ensures HeightOf(cs + [c]) == if 1 + Height(c) < HeightOf(cs) then HeightOf(cs) else 1 + Height(c)
  {
    var all := cs + [c];
    assert all[..|all| - 1] == cs;
    assert all[|all| - 1] == c;
  }

  /** A leveled tree rooted at depth `level` is at most `3 - level` deep. */
  lemma {:induction false} LeveledHeight(n: Node, level: nat)
    requires Leveled(n, level)
    ensures Height(n) <= 3 - level
    decreases n, 1
  {
    LeveledHeightOf(n.children, level + 1);
  }

  lemma {:induction false} LeveledHeightOf(cs: seq<Node>, level: nat)
    requires forall i :: 0 <= i < |cs| ==> Leveled(cs[i], level)
    ensures cs != [] ==> level <= 3 && HeightOf(cs) <= 4 - level
    decreases cs, 0
  {
    if cs != [] {
      LeveledHeight(cs[|cs| - 1], level);
      LeveledHeightOf(cs[..|cs| - 1], level);
    }
  }
}
