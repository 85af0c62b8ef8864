# stack-stats-questions: the PreTeXt generator, modelled in Dafny

`generate.py` walks a question bank of STACK questions and turns it into a
PreTeXt book. The folder tree becomes a tree of structural elements:

- the root becomes `PTXMain`;
- the folders at depths 1, 2 and 3 become `PTXChapter`, `PTXSection` and `PTXSubsection`;
- the `.xml` files in a folder, other than the category descriptor `gitsync_category.xml`, become `PTXStackQuestion` leaves.

When a folder holds a descriptor, the last `/`-segment of its category path
becomes the folder's title. The tree is then written out as one `.ptx` file
per structural element. A parent's file includes each child's file by the
child's `rel_path`.

The project has one module per concern:

- `Wrappers`: `Option` and `Result`.
- `Slugs`: `slugify`, left uninterpreted. The only thing assumed about it is that a slug holds no `/`.
- `Paths`: POSIX `os.path.join` and `str.split('/')[-1]`, with the lemmas the writer needs. The key one is that joining in two steps equals joining with the joined tail.
- `SourceTree`: the question-bank folder as data. Entries are kept in the order `os.listdir` returned them. File entries carry the text the XML parser would extract from them.
- `Document`: the structural tree as a value (`Node`), and the roles and `level_map`. It also holds the names derived from role and slug (`foldername`, `filename`, `xml_id`), and the two render templates as sequences of structural pieces.
- `Writer`: what `make_files` does, as the ordered list of its file writes and folder creations.
- `Elements`: the class `PTXStructuralElement` and its subclasses as one imperative class, `Element`, whose methods update its fields in place. A ghost `Node` mirrors the fields. `MakeFiles` and `Render` are proved to agree with the value-level definitions.
- `Builder`: `compile_structural_element`. `Build` is the specification function and `Compile` the loop, proved to return exactly what `Build` does, error included.

Facts the model establishes:

- **Roles and depth.** Every node of a built tree has the role `level_map` gives its depth, and children sit one level deeper. Nothing is built below depth 3: a tree built from depth `level` is exactly as deep as its folder tree, cut off at `3 - level` levels.
- **Classification and order.** A node's `questions` are exactly its folder's question files, and its `children` are the trees built from its subdirectories, both in listing order. Entries are never sorted. The loop only appends.
- **Titles.** The title is the last segment of the descriptor's category path. Without a descriptor it is the title passed in.
- **Naming.** Two chapters, sections or subsections share an `xml_id` only when they have the same role and the same slug. The root uses "." and "main.ptx". Its book `xml:id` is its bare slug (`generate.py:79`), so it is not covered and can equal another element's id.
- **Include/write consistency.** The href a parent renders for its `j`-th child resolves, against the parent's folder, to exactly the path the writer uses for that child's file. The writer writes that file right after creating the child's folder.
- **Writer order.** The writer writes a node's own file first. It writes one file per node and creates one folder per child. Every path it touches starts, as a string, with the output path.
- **Render contents.** The root page carries the docinfo, frontmatter, child and backmatter includes, in that order. Any other page carries its questions inside the introduction, each as an exercise block with its own include of the question file, then its child includes.

The root page renders no questions and no introduction, even when the
root folder holds `.xml` files: such questions are built but never appear
in the output (`Document.RenderExercises`).

Directory listing order is platform-dependent. The model keeps the order
it is given and imposes no sort, as the code does; every ordering result is
relative to that listing.

## Model

| member | source | states |
|---|---|---|
| Document.LevelMap | generate.py:161-166 | `level_map` has a class for exactly the levels 0 to 3; any other level is a failed lookup |
| Document.Depth | generate.py:161-166 | each role is created at exactly one depth, the one `level_map` assigns it |
| Document.XmlIdInjective | generate.py:96-121 | two chapters, sections or subsections get the same `xml_id` if and only if they have the same role and the same slug |
| Document.NamesAreRelative | generate.py:11-18 | a node's `foldername` and `filename` never start with '/', so `os.path.join` never discards the base path, and the file name is a single path component |
| Document.RenderHrefs | generate.py:33-93 | the includes of a rendered page outside its exercise blocks: for the root, docinfo, frontmatter, the child includes in `children` order, then backmatter; for the other roles, exactly the child includes, in order. Each exercise block carries its own include of the question file, its `target`, which `Document.RenderExercises` covers |
| Document.RenderExercises | generate.py:33-93 | a rendered chapter, section or subsection carries one exercise block per question in `questions` order; the root page carries none |
| Document.RenderLayout | generate.py:33-47 | below the root, every exercise block lies inside the introduction and every child include comes after it |
| Document.LeveledHeight | generate.py:177-183 | a tree whose roles follow `level_map` from depth `level`, with leaves at depth 3, is at most `3 - level` deep |
| Paths.JoinAssoc | generate.py:52-58 | `join(join(base, folder), file)` equals `join(base, join(folder, file))` for relative components: the path written equals the include resolved against the parent's folder |
| Paths.JoinExtends | generate.py:52-56 | joining a relative component gives a path that starts with the base path |
| Paths.LastSegment | generate.py:175 | `split('/')[-1]` holds no '/', is a suffix of its input, and when shorter than the input is preceded by a '/' |
| Paths.LastSegmentAfterSlash | generate.py:175 | the segment after the last '/' of a category path is what the title becomes |
| SourceTree.Lookup | generate.py:171-172 | a descriptor entry is found exactly when some entry has that name, and the one found is an entry with that name |
| SourceTree.IsQuestionFile | generate.py:185 | `rel_path.endswith(".xml") and rel_path != "gitsync_category.xml"`; `SourceTree.QuestionFiles` states which entries it selects |
| SourceTree.Subdirs | generate.py:179-184 | the entries picked out are exactly the directory entries of the folder: each one picked is a directory entry, and each directory entry is picked |
| SourceTree.SubdirsAppend | generate.py:179-184 | the directory entries of a listing are those of its first part followed by those of the rest, so they keep listing order |
| SourceTree.QuestionFiles | generate.py:185-188 | the entries picked out are exactly the files whose name ends in ".xml" and is not the descriptor's: each one picked is such a file, and each such file is picked |
| SourceTree.QuestionFilesAppend | generate.py:185-188 | the question files of a listing are those of its first part followed by those of the rest, so they keep listing order |
| Writer.WritesCount | generate.py:49-58 | `make_files` writes exactly one file per node of the tree and creates one folder per node below the starting one |
| Writer.ChildActions | generate.py:55-58 | each child's folder is created, and right after it come all of that child's own writes |
| Writer.IncludeResolvesToWrite | generate.py:49-61 | the parent's file is written first into `basepath`; after the `j`-th child's folder is created, the next write goes to `basepath` joined with the href the parent renders for that child, and it holds that child's rendered page |
| Writer.WritesStayBelow | generate.py:49-58 | every path `make_files(basepath)` touches starts with `basepath` |
| Writer.NodeNamesRelative | generate.py:28-31 | a node's `rel_path` components are relative, and its file name is one path component |
| Elements.Element.constructor | generate.py:11-121 | a new element has the given title and introduction, and no questions or children; folder and file are the slug and slug plus ".ptx", overridden to "." and "main.ptx" for the root; `xml_id` is the role prefix plus the slug, and the root has none |
| Elements.Element.AddQuestion | generate.py:22-23 | appends the question and changes nothing else |
| Elements.Element.AddChild | generate.py:25-26 | appends the child and changes nothing else; the element's footprint grows by the child's |
| Elements.Element.RelPath | generate.py:28-31 | the element's `rel_path` is that of the node it represents |
| Elements.Element.GetInclude | generate.py:60-61 | the include the element emits is the include of its node |
| Elements.Element.ChildIncludesOf | generate.py:35 | the includes read off the children's fields are the children's includes, in order |
| Elements.Element.Render | generate.py:33-93 | rendering from the fields gives the page of the node the element represents |
| Elements.Element.MakeFiles | generate.py:49-58 | the loop over the children performs exactly the writes and folder creations `Writer.Writes` specifies, in that order |
| Elements.Element.MakeChildFiles | generate.py:55-58 | one pass of that loop appends the creation of the child's folder and then all of the child's own writes, in the child's folder |
| Writer.ChildWritesExtend | generate.py:55-58 | handling one more child extends the actions for the children so far by that child's folder creation and subtree |
| Paths.Join | generate.py:29-31 | POSIX `os.path.join`: an absolute second part replaces the base; otherwise one '/' is inserted unless the base is empty or ends in '/'. `Paths.JoinExtends` and `Paths.JoinAssoc` state what the writer relies on |
| Document.NewQuestion | generate.py:124-131 | `PTXStackQuestion(filepath)`: the question keeps its path, its label is the path's slug, and its title markup is read from the file; `Builder.QuestionsOfFiles` states which paths it is called with |
| Document.QuestionBlock | generate.py:133-148 | `PTXStackQuestion.render(relative_to)`: one exercise block with the title markup, the label and the include of the question file; `Document.RenderExercises` states where the blocks land |
| Document.Node.RelPath | generate.py:28-31 | `rel_path` is the folder name joined with the file name; `Writer.NodeNamesRelative` states that both are relative |
| Document.IncludeOf | generate.py:60-61 | `get_include` emits one include whose href is the node's `rel_path`; `Writer.IncludeResolvesToWrite` states that it reaches the written file |
| Document.Page | generate.py:33-93 | the two templates: `PTXMain.render` and `PTXStructuralElement.render`; `Document.RenderHrefs`, `Document.RenderExercises` and `Document.RenderLayout` state their contents |
| Document.Render | generate.py:33-93 | `render(basepath)` of a node, `PTXMain.render` for the root, with the child includes in order; its partner lemmas are those of `Document.Page` |
| Writer.Writes | generate.py:49-58 | `make_files(basepath)` as its list of effects: the node's own file first, then each child's folder and subtree; `Writer.WritesCount`, `Writer.ChildActions` and `Writer.WritesStayBelow` state its properties |
| Writer.ChildWrites | generate.py:55-58 | the `for child in self.children` loop as its list of effects, child by child; `Writer.ChildWritesExtend` states how one more child extends it |
| Builder.ResolveTitle | generate.py:170-175 | the title lookup before the loop; `Builder.ResolveTitleSpec` states its outcome |
| Builder.ResolveTitleSpec | generate.py:170-175 | with no entry named like the descriptor the title passed in is kept; the lookup fails exactly when the descriptor found is a directory, with that path; otherwise the title is the part of the category path after its last '/' |
| Builder.Build | generate.py:168-189 | `compile_structural_element(basepath, title, level)`: resolve the title, then walk all entries; `Builder.BuildClassifies`, `Builder.BuildTitle`, `Builder.BuildLeveled` and `Builder.BuildHeight` state what it returns |
| Builder.Scan | generate.py:179-189 | the loop over the entries after `k` of them; `Builder.ScanQuestions`, `Builder.ScanChildren` and `Builder.ScanErrSticky` state what it accumulates |
| Builder.QuestionsOfFiles | generate.py:185-188 | the questions a folder gives are `PTXStackQuestion` of the joined path of each question file, one per file, in the same order |
| Builder.ScanErrSticky | generate.py:179-189 | once an entry fails, the walk's result is that failure |
| Builder.ScanKeeps | generate.py:177-189 | the loop never changes the role, title or introduction set before it |
| Builder.ScanQuestions | generate.py:185-188 | after `k` entries, `questions` has grown, by appending, by exactly one question per question file among them, in listing order, each with the file's joined path |
| Builder.ScanChildren | generate.py:179-184 | after `k` entries, `children` has only been appended to; below depth 3 it has grown by exactly one tree per subdirectory among them, in listing order, each the tree built from that subdirectory at the next depth; at depth 3 it is unchanged |
| Builder.BuildClassifies | generate.py:168-189 | a built node has its depth's role and an empty introduction; its questions are exactly its folder's question files, its children exactly the trees built from its subdirectories, both in listing order; at depth 3 it has no children |
| Builder.BuildTitle | generate.py:170-175 | the title is the last segment of the descriptor's category path, or the title passed in when there is no descriptor; a directory named like the descriptor makes the build fail |
| Builder.DescriptorNamesFolder | generate.py:171-175 | a descriptor whose category path is `parents/seg` (for example "A/B/Sales") names the folder `seg`, whatever the folder is called |
| Builder.BuildLeveled | generate.py:177-184 | every node of a built tree has the role of its depth, children sit one level deeper, and the tree is at most `3 - level` deep |
| Builder.BuildHeight | generate.py:177-184 | a tree built from depth `level` is exactly as deep as the smaller of its folder tree's depth and `3 - level` |
| Builder.ScanHeight | generate.py:179-184 | after `k` entries, the children are as deep as the deepest of the first `k` entries' folder trees, cut off at depth 3 |
| Builder.BuildSize | generate.py:179-184 | a built tree has one node per folder the walk visits |
| Builder.FilesPerFolder | generate.py:168-189 | building from depth 0 and then generating writes exactly one file per folder visited |
| Builder.LeafOrder | generate.py:179-188 | the listing `[q2.xml, q1.xml]` gives the questions in that order |
| Builder.EndToEnd | generate.py:168-189 | `stack/Unit1/q1.xml` built with the title "Gold" gives a root with the one chapter "Unit1" owning the question; generating into "source" writes `source/main.ptx`, creates the chapter's folder, and writes the chapter's file into it |
| Builder.Compile | generate.py:168-189 | the imperative walk returns a valid, freshly allocated element tree whose value is `Build`'s result, or exactly `Build`'s error |
| Builder.CompileEntries | generate.py:179-189 | the loop over the entries leaves a valid element whose value is what `Scan` gives for all the entries, or reports exactly the error `Scan` reaches, and allocates only fresh objects |
| Builder.AddEntry | generate.py:179-188 | one pass of the loop advances the element exactly as one more entry advances `Scan`, or reports the error `Scan` reaches |
| Builder.AddSubdir | generate.py:181-184 | the subdirectory branch of the loop: the subdirectory is compiled one level deeper and added as a child, exactly as `Scan` advances, or its error is the error `Scan` reaches for the whole folder |
| Builder.SubdirStep | generate.py:181-184 | a subdirectory entry below depth 3 appends the tree built from it as the last child, or its build error is the result of the whole loop |

## Left out

- File system: `os.listdir`, `open`, `os.path.isdir` and `os.makedirs` are not performed. The folder tree is a value, and `make_files` returns its effects as a list instead of performing them. Collisions (two sibling folders whose titles slugify alike) therefore appear as two writes to one path, not as an overwritten file.
- XML parsing with lxml: each file entry carries the text the parser would extract. Malformed XML and a missing `/quiz/question/...` node (`IndexError` on `tag[0]`) are not modelled.
- `slugify` is an uninterpreted function. The model assumes only that its result holds no '/'.
- `os.path.relpath` in `PTXStackQuestion.render` is not computed: an exercise block keeps its two arguments.
- The rendered text is modelled as a sequence of structural pieces. Whitespace, XML comments and the attribute syntax of the templates are not modelled.
- Escaping of `<`, `>` and `&` in titles is not done by the code either; the model copies titles as they are.
- `PTXStackQuestion` is an opaque leaf: its path, its slug and its title markup.
- The `questions`, `children` and `parent_section_slug` constructor arguments are not modelled. The builder never passes them, so every element starts empty.
- The script lines that run the build and write the files are not modelled as such. `Builder.FilesPerFolder` and `Builder.EndToEnd` state what they do for a given tree and output folder.
- Builder.Build: the default `level=1` of `compile_structural_element` is not modelled; every caller in the model passes the level.
- Writer.WritesStayBelow: states only that every path starts with the output path as a string. A slug of "." or ".." would name the output folder itself or its parent; `slugify` does not produce these, and the model leaves it uninterpreted, so component-wise containment is not proved.
- Builder.Build: requires `level <= 3`. A larger level would make `level_map[level]` raise `KeyError`, but no caller can reach one, because recursion stops at depth 3.
- Elements.Element.AddChild: requires the child to be a well-formed element tree that does not contain the parent. The code does not check this. The builder only ever adds a freshly built child, and the model does not allow one element to be shared by two parents.
