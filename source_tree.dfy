/**
 * The question-bank folder the generator walks, as data. The order of
 * `entries` is the order `os.listdir` returned; the model does not sort.
 */
module SourceTree {
  import opened Wrappers

  datatype Dir = Dir(entries: seq<Entry>)

  /**
   * A directory entry. For a file, `meta` is the text the XML parser would
   * extract from it: the category path of a category descriptor, the title
   * markup of a question file.
   */
  datatype Entry = File(name: string, meta: string) | Subdir(name: string, dir: Dir)

  /** The category descriptor whose category path overrides a folder's title. */
  const CategoryFile := "gitsync_category.xml"

  /** `name.endswith(".xml")`. */
  predicate EndsWithXml(name: string) {
    |name| >= 4 && name[|name| - 4..] == ".xml"
  }

  /** A file entry the builder turns into a question. */
  predicate IsQuestionFile(name: string) {
    EndsWithXml(name) && name != CategoryFile
  }

  /** The entry `open(join(basepath, name))` reaches when `name in paths`: the first one so named. */
  function Lookup(es: seq<Entry>, name: string): (r: Option<Entry>)
    ensures r.None? <==> forall i :: 0 <= i < |es| ==> es[i].name != name
    ensures r.Some? ==> r.value in es && r.value.name == name
  {
    if es == [] then None
    else if es[0].name == name then Some(es[0])
    else Lookup(es[1..], name)
  }

  /**
   * The subdirectories among `es`: every directory entry and nothing else,
   * in listing order (`SubdirsAppend`).
   */
  function Subdirs(es: seq<Entry>): (r: seq<Entry>)
    ensures forall i :: 0 <= i < |r| ==> r[i].Subdir? && r[i] in es
    ensures forall i :: 0 <= i < |es| && es[i].Subdir? ==> es[i] in r
  {
    if es == [] then []
    else
      var init := es[..|es| - 1];
      assert forall i :: 0 <= i < |init| ==> es[i] == init[i];
      Subdirs(init) + (if es[|es| - 1].Subdir? then [es[|es| - 1]] else [])
  }

  /**
   * The question files among `es`: every `.xml` file other than the
   * descriptor and nothing else, in listing order (`QuestionFilesAppend`).
   */
  function QuestionFiles(es: seq<Entry>): (r: seq<Entry>)
    ensures forall i :: 0 <= i < |r| ==> r[i].File? && IsQuestionFile(r[i].name) && r[i] in es
    ensures forall i :: 0 <= i < |es| && es[i].File? && IsQuestionFile(es[i].name) ==> es[i] in r
  {
    if es == [] then []
    else
      var init := es[..|es| - 1];
      var e := es[|es| - 1];
      assert forall i :: 0 <= i < |init| ==> es[i] == init[i];
      QuestionFiles(init) + (if e.File? && IsQuestionFile(e.name) then [e] else [])
  }

  /** Listing order is kept: the subdirectories of a listing are those of its first part, then those of the rest. */
  lemma {:induction false} SubdirsAppend(a: seq<Entry>, b: seq<Entry>)
    ensures Subdirs(a + b) == Subdirs(a) + Subdirs(b)
    decreases |b|
  {
    if b == [] {
      assert a + b == a;
    } else {
      var ab := a + b;
      var init := b[..|b| - 1];
      assert ab[..|ab| - 1] == a + init;
      assert ab[|ab| - 1] == b[|b| - 1];
      SubdirsLast(ab);
      SubdirsLast(b);
      SubdirsAppend(a, init);
    }
  }

  /** One step of `Subdirs`: the last entry is kept exactly when it is a directory. */
  lemma SubdirsLast(es: seq<Entry>)
    requires es != []
    ensures var e := es[|es| - 1];
      Subdirs(es) == Subdirs(es[..|es| - 1]) + (if e.Subdir? then [e] else [])
  {
  }

  /** Listing order is kept: the question files of a listing are those of its first part, then those of the rest. */
  lemma {:induction false} QuestionFilesAppend(a: seq<Entry>, b: seq<Entry>)
    ensures QuestionFiles(a + b) == QuestionFiles(a) + QuestionFiles(b)
    decreases |b|
  {
    if b == [] {
      assert a + b == a;
    } else {
      var ab := a + b;
      var init := b[..|b| - 1];
      assert ab[..|ab| - 1] == a + init;
      assert ab[|ab| - 1] == b[|b| - 1];
      QuestionFilesLast(ab);
      QuestionFilesLast(b);
      QuestionFilesAppend(a, init);
    }
  }

  /** One step of `QuestionFiles`: the last entry is kept exactly when it is a question file. */
  lemma QuestionFilesLast(es: seq<Entry>)
    requires es != []
    ensures var e := es[|es| - 1];
      QuestionFiles(es) == QuestionFiles(es[..|es| - 1]) + (if e.File? && IsQuestionFile(e.name) then [e] else [])
  {
  }

  /** How many folder levels lie below `d`: 0 for a folder without subfolders. */
  function DirHeight(d: Dir): nat
    decreases d, 1
  {
    DirHeightIn(d, |d.entries|)
  }

  /** The deepest folder below the first `k` entries of `d`, counting the entry itself. */
  function DirHeightIn(d: Dir, k: nat): nat
    requires k <= |d.entries|
    decreases d, 0, k
  {
    if k == 0 then 0
    else
      var e := d.entries[k - 1];
      var rest := DirHeightIn(d, k - 1);
      if e.Subdir? then
        assert e in d.entries;
        var h := 1 + DirHeight(e.dir);
        if h < rest then rest else h
      else rest
  }
}
