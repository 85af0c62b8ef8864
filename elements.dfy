/**
 * PTXStructuralElement as the mutable object the builder fills in. The
 * subclass is the `role` field. Each element keeps a ghost `model` (the
 * value `Node` it stands for) and a ghost `Repr` (the element and all its
 * descendants), and `Valid()` ties both to the real fields.
 */
module Elements {
  import opened Wrappers
  import opened Paths
  import opened Slugs
  import opened Document
  import opened Writer

  class Element {
    const role: Role
    var title: string
    var titleSlug: string
    var introduction: string
    var questions: seq<Question>
    var children: seq<Element>
    var foldername: string
    var filename: string
    var xmlId: Option<string>

    ghost var model: Node
    ghost var Repr: set<object>

    ghost predicate Valid()
      reads this, Repr
      decreases Repr
    {
      && this in Repr
      && titleSlug == Slugify(title)
      && foldername == FolderNameFor(role, titleSlug)
      && filename == FileNameFor(role, titleSlug)
      && xmlId == XmlIdFor(role, titleSlug)
      && model.role == role
      && model.title == title
      && model.introduction == introduction
      && model.questions == questions
      && |model.children| == |children|
      && forall i :: 0 <= i < |children| ==>
           && children[i] in Repr
           && children[i].Repr <= Repr
           && this !in children[i].Repr
           && children[i].Valid()
           && children[i].model == model.children[i]
    }

    /**
     * `__init__(title, introduction)` of the class for `role`: the base
     * constructor names the node after its slug, then PTXMain overrides the
     * folder and file names and the other subclasses set `xml_id`.
     */
    constructor (role: Role, title: string, introduction: string)
      ensures Valid() && fresh(Repr)
      ensures this.role == role && model == Node(role, title, introduction, [], [])
      ensures titleSlug == Slugify(title)
      ensures role == Main ==> foldername == "." && filename == "main.ptx" && xmlId == None
      ensures role != Main ==> foldername == titleSlug && filename == titleSlug + ".ptx"
                               && xmlId == Some(IdPrefix(role) + titleSlug)
    {
      this.role := role;
      this.title := title;
      titleSlug := Slugify(title);
      this.introduction := introduction;
      questions := [];
      children := [];
      foldername := Slugify(title);
      filename := Slugify(title) + ".ptx";
      xmlId := None;
      model := Node(role, title, introduction, [], []);
      Repr := {this};
      new;
      if role == Main {
        foldername := ".";
        filename := "main.ptx";
      } else {
        xmlId := Some(IdPrefix(role) + titleSlug);
      }
    }

    /** `add_question`: appends, changing nothing else. */
    method AddQuestion(q: Question)
      requires Valid()
      modifies this
      ensures Valid() && Repr == old(Repr)
      ensures questions == old(questions) + [q] && children == old(children)
      ensures model == old(model).(questions := old(model.questions) + [q])
    {
      questions := questions + [q];
      model := model.(questions := model.questions + [q]);
    }

    /** `add_child`: appends, changing nothing else. */
    method AddChild(child: Element)
      requires Valid() && child.Valid() && this !in child.Repr
      modifies this
      ensures Valid() && Repr == old(Repr) + child.Repr
      ensures children == old(children) + [child] && questions == old(questions)
      ensures model == old(model).(children := old(model.children) + [child.model])
    {
      children := children + [child];
      model := model.(children := model.children + [child.model]);
      Repr := Repr + child.Repr;
    }

    /** `rel_path`. */
    function RelPath(): (r: string)
      reads this, Repr
      requires Valid()
      ensures r == model.RelPath()
    {
      Join(foldername, filename)
    }

    /** `get_include`. */
    function GetInclude(): (p: Piece)
      reads this, Repr
      requires Valid()
      ensures p == IncludeOf(model)
    {
      Include(RelPath())
    }

    /** The includes `render` lists for the children, read off their names. */
    function ChildIncludesOf(): (r: seq<Piece>)
      reads this, Repr
      requires Valid()
      ensures r == ChildIncludes(model.children)
    {
      var cs := children;
      var r := seq(|cs|, i requires 0 <= i < |cs| reads set c | c in cs => Include(Join(cs[i].foldername, cs[i].filename)));
      assert forall i :: 0 <= i < |cs| ==> r[i] == IncludeOf(model.children[i]) by {
        forall i | 0 <= i < |cs|
          ensures r[i] == IncludeOf(model.children[i])
        {
          assert cs[i].Valid();
        }
      }
      r
    }

    /** `render(basepath)`, read off the fields and the children's names. */
    function Render(basepath: string): (r: seq<Piece>)
      reads this, Repr
      requires Valid()
      ensures r == Document.Render(model, basepath)
    {
      Page(role, xmlId, title, titleSlug, introduction, questions, basepath, ChildIncludesOf())
    }

    /** What `Valid()` says of the `i`-th child, and that its footprint lies strictly inside this one. */
    lemma ChildFacts(i: int)
      requires Valid() && 0 <= i < |children|
      ensures children[i].Valid() && children[i].model == model.children[i]
      ensures children[i].Repr < Repr
      ensures children[i].foldername == model.children[i].FolderName()
    {
      var c := children[i];
      assert c.Valid();
      assert this in Repr && this !in c.Repr;
    }

    /**
     * `make_files(basepath)`: the effects, in order, of writing this node's
     * file into `basepath` and then, child by child, creating the child's
     * folder and recursing into it.
     */
    method MakeFiles(basepath: string) returns (acts: seq<Action>)
      requires Valid()
      ensures acts == Writes(model, basepath)
      decreases Repr, 1
    {
      acts := [Write(Join(basepath, filename), Render(basepath))];
      ghost var own := acts;
      assert own == [Write(Join(basepath, model.FileName()), Document.Render(model, basepath))];
      var i := 0;
      while i < |children|
        invariant 0 <= i <= |children|
        invariant acts == own + ChildWrites(model.children[..i], basepath)
      {
        ghost var before := acts;
        acts := MakeChildFiles(acts, i, basepath);
        ChildWritesExtend(own, model.children, i, basepath, before, acts);
        i := i + 1;
      }
      assert model.children[..|children|] == model.children;
      OwnWriteFirst(model, basepath);
    }

    /**
     * One pass of the loop in `make_files`: after the effects `acts` so far,
     * create the `i`-th child's folder, then recurse into it.
     */
    method MakeChildFiles(acts: seq<Action>, i: int, basepath: string) returns (acts': seq<Action>)
      requires Valid() && 0 <= i < |children|
      ensures acts' == acts + [MakeDir(Join(basepath, model.children[i].FolderName()))]
                       + Writes(model.children[i], Join(basepath, model.children[i].FolderName()))
      decreases Repr, 0
    {
      var child := children[i];
      ChildFacts(i);
      var childPath := Join(basepath, child.foldername);
      var sub := child.MakeFiles(childPath);
      acts' := acts + [MakeDir(childPath)] + sub;
    }
  }
}
