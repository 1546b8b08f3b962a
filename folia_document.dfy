/** The document side of libfolia (folia_document.h): search patterns, processors and
    the provenance tree, and the `Document` state that the header's inline members
    read and change: the mode bits, the id index, the deferred offset-validation
    buffers, the keep-for-deletion set, the externals, the sub-metadata map, the debug
    level and the annotation-declaration table. */
module FoliaDocument {
  import opened FoliaUtils
  import opened ElementTypes
  import opened FoliaImpl

  /** A search pattern: `Pattern::size()` is the number of tokens searched for. */
  datatype Pattern = Pattern(sequence: seq<string>, matchannotation: ElementType, regexp: bool,
                             caseSensitive: bool, maxgapsize: int, matchannotationset: string)
  {
    function Size(): (r: nat)
      ensures r == |sequence|
    {
      |sequence|
    }
  }

  /** A processor of the provenance tree, with its nested sub-processors. */
  datatype Processor = Processor(name: string, id: string, procType: string, version: string,
                                 documentVersion: string, foliaVersion: string, command: string,
                                 host: string, user: string, beginDatetime: string,
                                 endDatetime: string, resourcelink: string,
                                 metadata: map<string, string>, processors: seq<Processor>)
  {
    /** `annotator()`: the processor's name. */
    function Annotator(): (r: string)
      ensures r == name
    {
      name
    }

    /** `annotatortype()`: the processor's type. */
    function AnnotatorType(): (r: string)
      ensures r == procType
    {
      procType
    }
  }

  /** Every processor identifier in a forest of processors. */
  function Ids(ps: seq<Processor>): set<string>
    decreases ps
  {
    if ps == [] then {} else {ps[0].id} + Ids(ps[0].processors) + Ids(ps[1..])
  }

  /** The first processor with identifier `s`, searching each processor before its
      sub-processors and those before its later siblings. */
  function Find(ps: seq<Processor>, s: string): (r: Option<Processor>)
    decreases ps
    ensures r.Some? <==> s in Ids(ps)
    ensures r.Some? ==> r.value.id == s
  {
    if ps == [] then None
    else if ps[0].id == s then Some(ps[0])
    else match Find(ps[0].processors, s)
         case Some(p) => Some(p)
         case None => Find(ps[1..], s)
  }

  /** The provenance record: the top-level processors. */
  datatype Provenance = Provenance(processors: seq<Processor>)
  {
    /** `get_processor(s)`: the processor with identifier `s`, None for null. */
    function GetProcessor(s: string): (r: Option<Processor>)
      ensures r.Some? <==> s in Ids(processors)
      ensures r.Some? ==> r.value.id == s
    {
      Find(processors, s)
    }

    /** `operator[](s)`. */
    function Subscript(s: string): (r: Option<Processor>)
      ensures r == GetProcessor(s)
    {
      GetProcessor(s)
    }

    /** `index(s)`. */
    function Index(s: string): (r: Option<Processor>)
      ensures r == GetProcessor(s)
    {
      GetProcessor(s)
    }
  }

  /** The values of `Document::Mode`; a mode is any combination of the four bits. */
  const NOMODE: bv4 := 0
  const PERMISSIVE: bv4 := 1
  const CHECKTEXT: bv4 := 2
  const FIXTEXT: bv4 := 4
  const STRIP: bv4 := 8

  /** `mode & flag` taken as a boolean. */
  predicate HasFlag(mode: bv4, flag: bv4) {
    mode & flag != 0
  }

  /** The four answers `permissive()`, `checktext()`, `fixtext()` and `strip()` give. */
  datatype ModeFlags = ModeFlags(permissive: bool, checktext: bool, fixtext: bool, strip: bool)

  function FlagsOf(mode: bv4): ModeFlags {
    ModeFlags(HasFlag(mode, PERMISSIVE), HasFlag(mode, CHECKTEXT), HasFlag(mode, FIXTEXT), HasFlag(mode, STRIP))
  }

  /** The mode with exactly the given flags set. */
  function ModeOf(f: ModeFlags): bv4 {
    (if f.permissive then PERMISSIVE else NOMODE) | (if f.checktext then CHECKTEXT else NOMODE)
    | (if f.fixtext then FIXTEXT else NOMODE) | (if f.strip then STRIP else NOMODE)
  }

  /** The four flags are independent bits: every combination is one mode and every
      mode is one combination. */
  lemma ModeRoundTrip(mode: bv4, f: ModeFlags)
    ensures ModeOf(FlagsOf(mode)) == mode
    ensures FlagsOf(ModeOf(f)) == f
  {
  }

  /** Setting one flag changes the answer of that query only. */
  lemma FlagsAreIndependent(mode: bv4)
    ensures FlagsOf(mode | PERMISSIVE) == FlagsOf(mode).(permissive := true)
    ensures FlagsOf(mode | CHECKTEXT) == FlagsOf(mode).(checktext := true)
    ensures FlagsOf(mode | FIXTEXT) == FlagsOf(mode).(fixtext := true)
    ensures FlagsOf(mode | STRIP) == FlagsOf(mode).(strip := true)
  {
  }

  /** An entry of the declaration table: a declared set of an annotation type and its
      default annotator, annotator type and date. */
  datatype Default = Default(annotationSet: string, annotator: string, annotatorType: string, datetime: string)

  type Declarations = map<AnnotationType, seq<Default>>

  function Entries(table: Declarations, at: AnnotationType): seq<Default> {
    if at in table then table[at] else []
  }

  /** The sets declared for `at`. */
  function SetsOf(table: Declarations, at: AnnotationType): set<string> {
    set d | d in Entries(table, at) :: d.annotationSet
  }

  /** The entry `declare(at, set, args)` records. */
  function DefaultFrom(st: string, args: KWargs): Default {
    Default(st, Arg(args, "annotator"), Arg(args, "annotatortype"), Arg(args, "datetime"))
  }

  /** The table after declaring `entry` for `at`; an identical declaration is kept once. */
  function WithDeclaration(table: Declarations, at: AnnotationType, entry: Default): (r: Declarations)
    ensures forall t :: t != at ==> Entries(r, t) == Entries(table, t)
    ensures entry in Entries(r, at)
    ensures entry in Entries(table, at) ==> r == table
    ensures entry !in Entries(table, at) ==> Entries(r, at) == Entries(table, at) + [entry]
  {
    var es := Entries(table, at);
    if entry in es then table else table[at := es + [entry]]
  }

  /** `isDeclared(at, s)`: some set of `at` is declared, or, given a set, that one. */
  predicate IsDeclaredIn(table: Declarations, at: AnnotationType, s: string) {
    if s == "" then Entries(table, at) != [] else s in SetsOf(table, at)
  }

  /** `defaultset(at)`: the set, when exactly one set is declared for `at`. */
  function DefaultSetOf(table: Declarations, at: AnnotationType): Result<string> {
    var es := Entries(table, at);
    if es != [] && forall i :: 0 <= i < |es| ==> es[i].annotationSet == es[0].annotationSet then Ok(es[0].annotationSet)
    else Err(NoDefaultError("defaultset"))
  }

  /** The declarations of `at` that `s` selects (all of them when `s` is empty). */
  function Matching(es: seq<Default>, s: string): (r: seq<Default>)
    ensures forall d :: d in r <==> d in es && (s == "" || d.annotationSet == s)
  {
    if es == [] then []
    else (if s == "" || es[0].annotationSet == s then [es[0]] else []) + Matching(es[1..], s)
  }

  /** `defaultannotator(at, s)`: the annotator, when the declarations of `at`
      (restricted to set `s` when one is given) name exactly one annotator. */
  function DefaultAnnotatorOf(table: Declarations, at: AnnotationType, s: string): Result<string> {
    var es := Matching(Entries(table, at), s);
    if es != [] && forall i :: 0 <= i < |es| ==> es[i].annotator == es[0].annotator then Ok(es[0].annotator)
    else Err(NoDefaultError("defaultannotator"))
  }

  /** The annotators of the declarations of `at` that `s` selects. */
  function AnnotatorsOf(table: Declarations, at: AnnotationType, s: string): set<string> {
    set d | d in Entries(table, at) && (s == "" || d.annotationSet == s) :: d.annotator
  }

  /** There is a default annotator exactly when the selected declarations name one
      annotator, and it is that annotator. */
  lemma {:induction false} DefaultAnnotatorIsTheOnlyAnnotator(table: Declarations, at: AnnotationType, s: string)
    ensures DefaultAnnotatorOf(table, at, s).Ok? <==> |AnnotatorsOf(table, at, s)| == 1
    ensures DefaultAnnotatorOf(table, at, s).Ok? ==> AnnotatorsOf(table, at, s) == {DefaultAnnotatorOf(table, at, s).value}
  {
    var es := Matching(Entries(table, at), s);
    assert AnnotatorsOf(table, at, s) == set d | d in es :: d.annotator;
    OneAnnotator(es);
  }

  /** The entries of `es` agree on one annotator exactly when they name one annotator. */
  lemma {:induction false} OneAnnotator(es: seq<Default>)
    ensures (es != [] && forall i :: 0 <= i < |es| ==> es[i].annotator == es[0].annotator)
            <==> |set d | d in es :: d.annotator| == 1
    ensures es != [] && (forall i :: 0 <= i < |es| ==> es[i].annotator == es[0].annotator)
            ==> (set d | d in es :: d.annotator) == {es[0].annotator}
  {
    var anns := set d | d in es :: d.annotator;
    if es == [] {
      assert anns == {};
    } else {
      var a0 := es[0].annotator;
      assert a0 in anns;
      if forall i :: 0 <= i < |es| ==> es[i].annotator == a0 {
        forall x | x in anns ensures x == a0 {
          var d :| d in es && d.annotator == x;
          var i :| 0 <= i < |es| && es[i] == d;
        }
        assert anns == {a0};
      } else {
        var i :| 0 <= i < |es| && es[i].annotator != a0;
        assert es[i].annotator in anns;
        assert {a0, es[i].annotator} <= anns;
        assert |{a0, es[i].annotator}| == 2;
        SubsetSize({a0, es[i].annotator}, anns);
      }
    }
  }

  /** There is a default set exactly when one set is declared, and it is that set. */
  lemma {:induction false} DefaultSetIsTheOnlySet(table: Declarations, at: AnnotationType)
    ensures DefaultSetOf(table, at).Ok? <==> |SetsOf(table, at)| == 1
    ensures DefaultSetOf(table, at).Ok? ==> SetsOf(table, at) == {DefaultSetOf(table, at).value}
  {
    var es := Entries(table, at);
    var sets := SetsOf(table, at);
    if es == [] {
      assert sets == {};
    } else {
      var s0 := es[0].annotationSet;
      assert s0 in sets;
      if forall i :: 0 <= i < |es| ==> es[i].annotationSet == s0 {
        forall x | x in sets ensures x == s0 {
          var d :| d in es && d.annotationSet == x;
          var i :| 0 <= i < |es| && es[i] == d;
        }
        assert sets == {s0};
      } else {
        var i :| 0 <= i < |es| && es[i].annotationSet != s0;
        assert es[i].annotationSet in sets;
        assert {s0, es[i].annotationSet} <= sets;
        assert |{s0, es[i].annotationSet}| == 2;
        SubsetSize({s0, es[i].annotationSet}, sets);
      }
    }
  }

  lemma SubsetSize<T>(a: set<T>, b: set<T>)
    requires a <= b
    ensures |a| <= |b|
  {
    assert b == a + (b - a);
  }

  /** Declaring a set for a type that had no declaration makes it the default set,
      and its annotator the default annotator (whether or not the set is named). */
  lemma {:induction false} DeclareOnFreshType(table: Declarations, at: AnnotationType, st: string, args: KWargs)
    requires Entries(table, at) == []
    ensures DefaultSetOf(WithDeclaration(table, at, DefaultFrom(st, args)), at) == Ok(st)
    ensures DefaultAnnotatorOf(WithDeclaration(table, at, DefaultFrom(st, args)), at, "") == Ok(Arg(args, "annotator"))
    ensures DefaultAnnotatorOf(WithDeclaration(table, at, DefaultFrom(st, args)), at, st) == Ok(Arg(args, "annotator"))
    ensures IsDeclaredIn(WithDeclaration(table, at, DefaultFrom(st, args)), at, st)
  {
    var entry := DefaultFrom(st, args);
    assert Entries(WithDeclaration(table, at, entry), at) == [entry];
    SingleDeclaration(WithDeclaration(table, at, entry), at, entry);
  }

  /** A type with a single declaration defaults to its set and its annotator. */
  lemma SingleDeclaration(table: Declarations, at: AnnotationType, entry: Default)
    requires Entries(table, at) == [entry]
    ensures DefaultSetOf(table, at) == Ok(entry.annotationSet)
    ensures DefaultAnnotatorOf(table, at, "") == Ok(entry.annotator)
    ensures DefaultAnnotatorOf(table, at, entry.annotationSet) == Ok(entry.annotator)
    ensures IsDeclaredIn(table, at, entry.annotationSet)
  {
    SingleDefaultSet(table, at, entry);
    SingleDefaultAnnotator(table, at, entry, "");
    SingleDefaultAnnotator(table, at, entry, entry.annotationSet);
    assert entry in Entries(table, at);
  }

  lemma SingleDefaultSet(table: Declarations, at: AnnotationType, entry: Default)
    requires Entries(table, at) == [entry]
    ensures DefaultSetOf(table, at) == Ok(entry.annotationSet)
  {
  }

  lemma SingleDefaultAnnotator(table: Declarations, at: AnnotationType, entry: Default, s: string)
    requires Entries(table, at) == [entry] && (s == "" || s == entry.annotationSet)
    ensures DefaultAnnotatorOf(table, at, s) == Ok(entry.annotator)
  {
    SingleMatch(entry);
  }

  lemma SingleMatch(entry: Default)
    ensures Matching([entry], "") == [entry]
    ensures Matching([entry], entry.annotationSet) == [entry]
  {
    assert [entry][1..] == [];
  }

  /** Declaring the same thing twice is declaring it once. */
  lemma DeclareIdempotent(table: Declarations, at: AnnotationType, entry: Default)
    ensures WithDeclaration(WithDeclaration(table, at, entry), at, entry) == WithDeclaration(table, at, entry)
  {
  }

  /** A second set for the same type takes the default set away. */
  lemma {:induction false} SecondSetHasNoDefault(table: Declarations, at: AnnotationType, d1: Default, d2: Default)
    requires Entries(table, at) == [] && d1.annotationSet != d2.annotationSet
    ensures DefaultSetOf(WithDeclaration(WithDeclaration(table, at, d1), at, d2), at).Err?
  {
    var t := WithDeclaration(WithDeclaration(table, at, d1), at, d2);
    assert Entries(t, at) == [d1, d2];
  }

  /** An opaque sub-metadata record. */
  class MetaData {
    constructor() {}
  }

  /** The in-memory state of a document that the header's inline members touch. */
  class Document {
    const id: string
    var mode: bv4
    var debug: int
    var sindex: map<string, Node>
    var iindex: seq<Node>
    var declarations: Declarations
    var textBuffer: seq<Node>
    var phonBuffer: seq<Node>
    var delSet: set<Node>
    var externals: seq<Node>
    var submetadata: map<string, MetaData?>

    /** No element is indexed under the empty identifier. */
    predicate Valid()
      reads this`sindex
    {
      "" !in sindex
    }

    /** An empty document with identifier `id` in the given mode. */
    constructor(id: string, mode: bv4)
      ensures this.id == id && this.mode == mode && debug == 0
      ensures sindex == map[] && iindex == [] && declarations == map[]
      ensures textBuffer == [] && phonBuffer == [] && delSet == {} && externals == []
      ensures submetadata == map[]
      ensures Valid()
    {
      this.id := id;
      this.mode := mode;
      debug := 0;
      sindex := map[];
      iindex := [];
      declarations := map[];
      textBuffer := [];
      phonBuffer := [];
      delSet := {};
      externals := [];
      submetadata := map[];
    }

    /** `permissive()`, `checktext()`, `fixtext()`, `strip()`: each holds exactly when
        its bit is already part of the mode, so that setting it changes nothing. */
    predicate Permissive()
      reads this`mode
      ensures Permissive() <==> mode | PERMISSIVE == mode
    {
      HasFlag(mode, PERMISSIVE)
    }

    predicate CheckText()
      reads this`mode
      ensures CheckText() <==> mode | CHECKTEXT == mode
    {
      HasFlag(mode, CHECKTEXT)
    }

    predicate FixText()
      reads this`mode
      ensures FixText() <==> mode | FIXTEXT == mode
    {
      HasFlag(mode, FIXTEXT)
    }

    predicate Strip()
      reads this`mode
      ensures Strip() <==> mode | STRIP == mode
    {
      HasFlag(mode, STRIP)
    }

    /** `keepForDeletion(p)`: remembers `p` for later disposal; keeping it again changes nothing. */
    method KeepForDeletion(p: Node)
      modifies this`delSet
      ensures delSet == old(delSet) + {p}
      ensures p in old(delSet) ==> delSet == old(delSet)
    {
      delSet := delSet + {p};
    }

    /** `addExternal(p)`. */
    method AddExternal(p: Node)
      requires p.Kind() == Plain(External)
      modifies this`externals
      ensures externals == old(externals) + [p]
    {
      externals := externals + [p];
    }

    /** `cache_textcontent(tc)`: one more text content awaiting offset validation. */
    method CacheTextContent(tc: Node)
      requires tc.Kind() == Plain(TextContent)
      modifies this`textBuffer
      ensures textBuffer == old(textBuffer) + [tc]
      ensures phonBuffer == old(phonBuffer)
    {
      textBuffer := textBuffer + [tc];
    }

    /** `cache_phoncontent(pc)`: one more phonetic content awaiting offset validation. */
    method CachePhonContent(pc: Node)
      requires pc.Kind() == Plain(PhonContent)
      modifies this`phonBuffer
      ensures phonBuffer == old(phonBuffer) + [pc]
      ensures textBuffer == old(textBuffer)
    {
      phonBuffer := phonBuffer + [pc];
    }

    /** `setdebug(val)`: the previous level is returned. */
    method SetDebug(val: int) returns (previous: int)
      modifies this`debug
      ensures previous == old(debug) && debug == val
    {
      previous := debug;
      debug := val;
    }

    /** `get_submetadata(m)`: null when `m` is not a key, else the stored record. */
    function GetSubmetadata(m: string): (r: MetaData?)
      reads this`submetadata
      ensures m !in submetadata ==> r == null
      ensures m in submetadata ==> r == submetadata[m]
    {
      if m !in submetadata then null else submetadata[m]
    }

    /** With no null stored, `get_submetadata` answers null exactly for unknown keys. */
    lemma SubmetadataNullIff(m: string)
      requires forall k | k in submetadata :: submetadata[k] != null
      ensures GetSubmetadata(m) == null <==> m !in submetadata
    {
    }

    /** `index(s)`: the element indexed under `s`, or null; nothing is ever found
        under the empty identifier. */
    function Index(s: string): (r: Node?)
      reads this`sindex
      ensures s in sindex ==> r == sindex[s]
      ensures s !in sindex ==> r == null
      ensures Valid() && s == "" ==> r == null
    {
      if s in sindex then sindex[s] else null
    }

    /** `operator[](s)`. */
    function Subscript(s: string): (r: Node?)
      reads this`sindex
      ensures r == Index(s)
    {
      Index(s)
    }

    /** `addDocIndex(el, s)`: an empty identifier is not indexed; a taken one is a
        DuplicateIDError and changes nothing; otherwise `el` is found under `s` and is
        the last element of the insertion list. */
    method AddDocIndex(el: Node, s: string) returns (r: Outcome)
      requires Valid()
      modifies this`sindex, this`iindex
      ensures Valid()
      ensures s == "" ==> r == Pass && sindex == old(sindex) && iindex == old(iindex)
      ensures s != "" && s in old(sindex) ==> r == Fail(DuplicateIDError(s))
                                              && sindex == old(sindex) && iindex == old(iindex)
      ensures s != "" && s !in old(sindex) ==> r == Pass && sindex == old(sindex)[s := el]
                                               && iindex == old(iindex) + [el]
      ensures r.Pass? && s != "" ==> Index(s) == el
      ensures forall t :: t != s ==> Index(t) == old(Index(t))
    {
      if s == "" {
        return Pass;
      }
      if s in sindex {
        return Fail(DuplicateIDError(s));
      }
      sindex := sindex[s := el];
      iindex := iindex + [el];
      r := Pass;
    }

    /** `delDocIndex(el, s)`: `s` is no longer indexed and `el` leaves the insertion list. */
    method DelDocIndex(el: Node, s: string)
      requires Valid()
      modifies this`sindex, this`iindex
      ensures Valid()
      ensures s == "" ==> sindex == old(sindex) && iindex == old(iindex)
      ensures s != "" ==> sindex == old(sindex) - {s} && iindex == Without(old(iindex), el)
      ensures s != "" ==> Index(s) == null
      ensures forall t :: t != s ==> Index(t) == old(Index(t))
    {
      if s == "" {
        return;
      }
      sindex := sindex - {s};
      iindex := Without(iindex, el);
    }

    /** `declare(at, set, args)`. */
    method Declare(at: AnnotationType, st: string, args: KWargs)
      modifies this`declarations
      ensures declarations == WithDeclaration(old(declarations), at, DefaultFrom(st, args))
    {
      declarations := WithDeclaration(declarations, at, DefaultFrom(st, args));
    }

    /** `isDeclared(at, s)`: some declaration of `at` is recorded, and with set `s`
        when a set is given. */
    predicate IsDeclared(at: AnnotationType, s: string)
      reads this`declarations
      ensures IsDeclared(at, s) <==> exists d :: d in Entries(declarations, at) && (s == "" || d.annotationSet == s)
    {
      var es := Entries(declarations, at);
      assert es != [] ==> es[0] in es;
      IsDeclaredIn(declarations, at, s)
    }

    /** `declared(at, s)`: the same answer as `isDeclared(at, s)`. */
    predicate Declared(at: AnnotationType, s: string)
      reads this`declarations
      ensures Declared(at, s) == IsDeclared(at, s)
    {
      IsDeclared(at, s)
    }

    /** `defaultset(at)`: the one set declared for `at`, else NoDefaultError. */
    function DefaultSet(at: AnnotationType): (r: Result<string>)
      reads this`declarations
      ensures r.Ok? <==> |SetsOf(declarations, at)| == 1
      ensures r.Ok? ==> SetsOf(declarations, at) == {r.value}
      ensures r.Err? ==> r.error == NoDefaultError("defaultset")
    {
      DefaultSetIsTheOnlySet(declarations, at);
      DefaultSetOf(declarations, at)
    }

    /** `defaultannotator(at, s)`: the one annotator named by the declarations of `at`
        (of set `s` when a set is given), else NoDefaultError. */
    function DefaultAnnotator(at: AnnotationType, s: string): (r: Result<string>)
      reads this`declarations
      ensures r.Ok? <==> |AnnotatorsOf(declarations, at, s)| == 1
      ensures r.Ok? ==> AnnotatorsOf(declarations, at, s) == {r.value}
      ensures r.Err? ==> r.error == NoDefaultError("defaultannotator")
    {
      DefaultAnnotatorIsTheOnlyAnnotator(declarations, at, s);
      DefaultAnnotatorOf(declarations, at, s)
    }
  }

  /** `es` without any occurrence of `x`, the order of the rest kept. */
  function Without(es: seq<Node>, x: Node): (r: seq<Node>)
    ensures forall i :: 0 <= i < |r| ==> r[i] in es && r[i] != x
    ensures forall i :: 0 <= i < |es| && es[i] != x ==> es[i] in r
    ensures |r| <= |es|
    ensures x !in es ==> r == es
  {
    if es == [] then [] else (if es[0] == x then [] else [es[0]]) + Without(es[1..], x)
  }

  /** Removing `x` keeps the order of what remains: it works piece by piece on a
      concatenation. */
  lemma {:induction false} WithoutKeepsOrder(a: seq<Node>, b: seq<Node>, x: Node)
    ensures Without(a + b, x) == Without(a, x) + Without(b, x)
  {
    if a == [] {
      assert a + b == b;
    } else {
      assert (a + b)[0] == a[0] && (a + b)[1..] == a[1..] + b;
      WithoutKeepsOrder(a[1..], b, x);
    }
  }

  /** The document built by the library's own smoke test: a document "example" that
      declares set "adhocset" for tokens with annotator "proycon", a Text, a Sentence
      whose identifier is generated from the Text's, and five words added to it. The
      default set and annotator are the declared ones, and looking the Sentence up by
      its identifier finds an element of size 5. */
  method SimpleDocument() returns (size: nat, defaultSet: Result<string>, defaultAnnotator: Result<string>)
    ensures defaultSet == Ok("adhocset") && defaultAnnotator == Ok("proycon")
    ensures size == 5
  {
    var d := new Document("example", NOMODE);
    defaultSet, defaultAnnotator := DeclareExampleSet(d);

    var textId := d.id + ".text.1";
    var text := new Node(Properties(Structure(Text), "text", "Text"), map["id" := textId]);
    var indexed := d.AddDocIndex(text, text.id);
    // the identifier IDgen derives for the first sentence of the text
    var sentenceId := text.id + ".s.1";
    var s := new Node(Properties(Structure(Sentence), "s", "Sentence"), map["id" := sentenceId]);
    indexed := d.AddDocIndex(s, s.id);
    var appended := text.Append(s, Pass);

    AddExampleWords(s);

    var found := d.Subscript(textId + ".s.1");
    size := found.Size();
  }

  /** The declaration of the smoke test: set "adhocset" for tokens, annotator "proycon". */
  method DeclareExampleSet(d: Document) returns (defaultSet: Result<string>, defaultAnnotator: Result<string>)
    requires d.declarations == map[]
    modifies d`declarations
    ensures defaultSet == Ok("adhocset") && defaultAnnotator == Ok("proycon")
  {
    d.Declare(TOKEN, "adhocset", map["annotator" := "proycon"]);
    DeclareOnFreshType(map[], TOKEN, "adhocset", map["annotator" := "proycon"]);
    defaultSet := d.DefaultSet(TOKEN);
    defaultAnnotator := d.DefaultAnnotator(TOKEN, "");
  }

  /** The five words of the example sentence, each added with `addAnnotation<Word>`. */
  method AddExampleWords(s: Node)
    modifies s`data
    ensures s.Size() == old(s.Size()) + 5
  {
    var word := Properties(Structure(Word), "w", "Word");
    var w := s.AddAnnotation(word, map["text" := "De"], Pass, Pass);
    w := s.AddAnnotation(word, map["text" := "site"], Pass, Pass);
    w := s.AddAnnotation(word, map["text" := "staat"], Pass, Pass);
    w := s.AddAnnotation(word, map["text" := "online"], Pass, Pass);
    w := s.AddAnnotation(word, map["text" := "."], Pass, Pass);
  }
}
