/** The element node of folia_impl.h: the FoliaImpl record, the inline lookup rules
    `annotations` / `hasannotation` / `annotation`, the all-or-nothing builders
    `addAnnotation` and `addAlternative`, and the small inline helpers.

    What the header only declares is, for the most part, an input here:
    - the virtual `select(ElementType, set, exclude, recurse)` is a `Walk`;
    - whether constructing an element (its `setAttributes` validation) succeeds,
      and whether `append` accepts a child, are `Outcome`s;
    - what IDgen produces, an identifier or an error, is a `Result`;
    - text reconstruction and the four-list `correct` are functions. */
module FoliaImpl {
  import opened FoliaUtils
  import opened ElementTypes

  /** The static `properties` record of a class, as far as the header uses it. */
  datatype Properties = Properties(elementId: ElementType, xmltag: string, classname: string)

  /** The node-level `select(elementtype, set, exclude, recurse)`: the elements below
      the given node, as the document's traversal finds them. */
  type Walk = (Node, ElementType, string, set<ElementType>, bool) -> seq<Node>

  /** The virtual `text(cls)` of an element as its own class computes it (FoliaImpl's
      reconstruction, or the override of TextContent, Correction, the markup classes
      and the others), whose bodies are not part of this model. */
  type Reconstruct = (Node, string) -> Result<string>

  /** `correct(o, n, current, args)`: the four-argument correction of AllowCorrection. */
  type Correct4 = (Node?, Node?, seq<Node?>, KWargs) -> Result<Node>

  /** An element: the fields of FoliaImpl (folia_impl.h:638-657) that the header's
      inline members read or write. */
  class Node {
    const props: Properties
    var data: seq<Node>
    var parent: Node?
    var auth: bool
    var id: string
    var cls: string
    var sett: string
    var annotator: string
    var annotatorType: AnnotatorType
    var n: string
    var refcount: int

    /** A new, unattached element whose attributes are taken from `args`. */
    constructor(props: Properties, args: KWargs)
      ensures this.props == props && data == [] && parent == null
      ensures id == Arg(args, "id") && cls == Arg(args, "class") && sett == Arg(args, "set")
      ensures annotator == Arg(args, "annotator") && n == Arg(args, "n")
      ensures annotatorType == UNDEFINED && refcount == 0 && auth
    {
      this.props := props;
      data := [];
      parent := null;
      auth := true;
      id := Arg(args, "id");
      cls := Arg(args, "class");
      sett := Arg(args, "set");
      annotator := Arg(args, "annotator");
      annotatorType := UNDEFINED;
      n := Arg(args, "n");
      refcount := 0;
    }

    /** `element_id()`: the tag of the element's class, which `isinstance` answers and
        `has_base` never does. */
    function Kind(): (k: ElementType)
      ensures k == props.elementId
      ensures IsInstance(k, props.elementId) && !HasBase(k, props.elementId)
    {
      props.elementId
    }

    /** `size()`: the number of children, each counted as often as it occurs. */
    function Size(): (n: nat)
      reads this`data
      ensures n == |multiset(data)|
      ensures n == 0 <==> data == []
    {
      |data|
    }

    method SetParent(p: Node?)
      modifies this`parent
      ensures parent == p
    {
      parent := p;
    }

    method SetAnnotator(a: string)
      modifies this`annotator
      ensures annotator == a
    {
      annotator := a;
    }

    method SetAnnotatorType(t: AnnotatorType)
      modifies this`annotatorType
      ensures annotatorType == t
    {
      annotatorType := t;
    }

    method SetAuth(b: bool)
      modifies this`auth
      ensures auth == b
    {
      auth := b;
    }

    /** `increfcount()`: one more reference, and no other field changes. */
    method IncRefCount()
      modifies this`refcount
      ensures refcount == old(refcount) + 1
    {
      refcount := refcount + 1;
    }

    /** `append(child)`: whether the element accepts the child is decided by rules the
        header does not show (`verdict`); an accepted child becomes the last child and
        gets this element as its parent, a refused one changes nothing. */
    method Append(child: Node, verdict: Outcome) returns (r: Result<Node>)
      modifies this`data, child`parent
      ensures verdict.Fail? ==> r == Err(verdict.error) && data == old(data) && child.parent == old(child.parent)
      ensures verdict.Pass? ==> r == Ok(child) && data == old(data) + [child] && child.parent == this
      ensures verdict.Pass? ==> Size() == old(Size()) + 1
    {
      if verdict.Fail? {
        return Err(verdict.error);
      }
      data := data + [child];
      child.SetParent(this);
      r := Ok(child);
    }

    /** `generateId(tag)`: NOT_IMPLEMENTED unless the class mixes in AllowGenerateID,
        in which case it is what IDgen produces (`generated`): an identifier, or the
        error IDgen throws. */
    function GenerateId(tag: string, generated: Result<string>): (r: Result<string>)
      ensures r.Ok? <==> AllowGenerateId(Kind()) && generated.Ok?
      ensures r.Ok? ==> r.value == generated.value
      ensures AllowGenerateId(Kind()) && generated.Err? ==> r == Err(generated.error)
      ensures !AllowGenerateId(Kind()) ==> r == Err(NotImplementedFor(props.xmltag, "generateId"))
    {
      if AllowGenerateId(Kind()) then generated
      else Err(NotImplementedFor(props.xmltag, "generateId"))
    }

    /** `select<F>(st, exclude, recurse)`: every element the node-level select finds
        for F's tag, each cast to F (null where the cast fails), in order. */
    method Select(wanted: ElementType, st: string, exclude: set<ElementType>, recurse: bool, walk: Walk)
      returns (res: seq<Node?>)
      ensures |res| == |walk(this, wanted, st, exclude, recurse)|
      ensures forall i :: 0 <= i < |res| ==> res[i] == Cast(walk(this, wanted, st, exclude, recurse)[i], wanted)
      ensures res == Casts(walk(this, wanted, st, exclude, recurse), wanted)
    {
      var tmp := walk(this, wanted, st, exclude, recurse);
      res := [];
      var i := 0;
      while i < |tmp|
        invariant 0 <= i <= |tmp|
        invariant |res| == i
        invariant forall j :: 0 <= j < i ==> res[j] == Cast(tmp[j], wanted)
      {
        res := res + [Cast(tmp[i], wanted)];
        i := i + 1;
      }
      CastsPointwise(tmp, wanted, res);
    }

    /** `annotations<F>(s)`; `ignore` is the library-wide `default_ignore_annotations`,
        whose subtrees the selection skips. */
    method Annotations(wanted: Properties, s: string, walk: Walk, ignore: set<ElementType>)
      returns (r: Result<seq<Node?>>)
      ensures r == Lookup(AllowAnnotations(Kind()), props.xmltag, wanted.classname, s,
                          Casts(walk(this, wanted.elementId, s, ignore, true), wanted.elementId))
    {
      if AllowAnnotations(Kind()) {
        var v := Select(wanted.elementId, s, ignore, true, walk);
        if |v| >= 1 {
          return Ok(v);
        }
        return Err(NoSuchAnnotation(MissingAnnotation(wanted.classname, s)));
      }
      return Err(NotImplementedFor(props.xmltag, "annotations"));
    }

    /** `hasannotation<F>(st)`: whether `annotations<F>(st)` succeeds; only
        NoSuchAnnotation is caught. */
    method HasAnnotation(wanted: Properties, st: string, walk: Walk, ignore: set<ElementType>)
      returns (r: Result<bool>)
      ensures r == Has(Lookup(AllowAnnotations(Kind()), props.xmltag, wanted.classname, st,
                              Casts(walk(this, wanted.elementId, st, ignore, true), wanted.elementId)))
    {
      var v := Annotations(wanted, st, walk, ignore);
      r := Has(v);
    }

    /** `annotation<F>(st)`: the first of `annotations<F>(st)`. */
    method Annotation(wanted: Properties, st: string, walk: Walk, ignore: set<ElementType>)
      returns (r: Result<Node?>)
      ensures r == First(Lookup(AllowAnnotations(Kind()), props.xmltag, wanted.classname, st,
                                Casts(walk(this, wanted.elementId, st, ignore, true), wanted.elementId)))
    {
      var v := Annotations(wanted, st, walk, ignore);
      r := First(v);
    }

    /** `addAnnotation<F>(args)`: builds an F from `args` and appends it. If the
        construction (`construction`) or the append (`verdict`) fails, the error
        propagates and the children are as before. */
    method AddAnnotation(wanted: Properties, args: KWargs, construction: Outcome, verdict: Outcome)
      returns (r: Result<Node>)
      modifies this`data
      ensures r.Ok? <==> construction.Pass? && verdict.Pass?
      ensures construction.Fail? ==> r == Err(construction.error)
      ensures construction.Pass? && verdict.Fail? ==> r == Err(verdict.error)
      ensures r.Err? ==> data == old(data)
      ensures r.Ok? ==> fresh(r.value) && data == old(data) + [r.value] && r.value.parent == this
      ensures r.Ok? ==> r.value.props == wanted && r.value.data == [] && r.value.id == Arg(args, "id")
      ensures r.Ok? ==> r.value.cls == Arg(args, "class") && r.value.sett == Arg(args, "set")
                        && r.value.annotator == Arg(args, "annotator") && r.value.n == Arg(args, "n")
    {
      if construction.Fail? {
        return Err(construction.error);
      }
      var res := new Node(wanted, args);
      r := Append(res, verdict);
    }

    /** `addAlternative<F>(args)`: an identifier from tag "alt" (outside the try, so a
        class without AllowGenerateID, or a failing IDgen, fails before anything is
        built), an Alternative
        carrying it, the annotation added inside that Alternative, and the Alternative
        appended. On any failure nothing is appended to this element. */
    method AddAlternative(wanted: Properties, altProps: Properties, args: KWargs, generated: Result<string>,
                          altConstruction: Outcome, construction: Outcome,
                          innerVerdict: Outcome, outerVerdict: Outcome)
      returns (r: Result<Node>)
      requires altProps.elementId == Structure(Alternative)
      modifies this`data
      ensures !AllowGenerateId(Kind()) ==> r == Err(NotImplementedFor(props.xmltag, "generateId"))
      ensures AllowGenerateId(Kind()) && generated.Err? ==> r == Err(generated.error)
      ensures r.Ok? <==> AllowGenerateId(Kind()) && generated.Ok? && altConstruction.Pass? && construction.Pass?
                         && innerVerdict.Pass? && outerVerdict.Pass?
      ensures r.Err? ==> data == old(data)
      ensures r.Ok? ==> |data| == |old(data)| + 1 && data[..|old(data)|] == old(data)
      ensures r.Ok? ==> var alt := data[|old(data)|];
                        fresh(alt) && alt.Kind() == Structure(Alternative) && alt.id == generated.value
                        && alt.parent == this && alt.data == [r.value] && r.value.parent == alt
                        && fresh(r.value) && r.value.props == wanted && r.value.id == Arg(args, "id")
    {
      var id := GenerateId("alt", generated);
      if id.Err? {
        return Err(id.error);
      }
      if altConstruction.Fail? {
        return Err(altConstruction.error);
      }
      var alt := new Node(altProps, map["id" := id.value]);
      assert id.value == generated.value;
      var res := alt.AddAnnotation(wanted, args, construction, innerVerdict);
      if res.Err? {
        return res;
      }
      var appended := Append(alt, outerVerdict);
      if appended.Err? {
        return Err(appended.error);
      }
      r := res;
    }

    /** `addAlternative<F>()`: the same with no arguments. */
    method AddAlternativeNoArgs(wanted: Properties, altProps: Properties, generated: Result<string>,
                                altConstruction: Outcome, construction: Outcome,
                                innerVerdict: Outcome, outerVerdict: Outcome)
      returns (r: Result<Node>)
      requires altProps.elementId == Structure(Alternative)
      modifies this`data
      ensures !AllowGenerateId(Kind()) ==> r == Err(NotImplementedFor(props.xmltag, "generateId"))
      ensures AllowGenerateId(Kind()) && generated.Err? ==> r == Err(generated.error)
      ensures r.Ok? <==> AllowGenerateId(Kind()) && generated.Ok? && altConstruction.Pass? && construction.Pass?
                         && innerVerdict.Pass? && outerVerdict.Pass?
      ensures r.Err? ==> data == old(data)
      ensures r.Ok? ==> |data| == |old(data)| + 1 && data[..|old(data)|] == old(data)
      ensures r.Ok? ==> var alt := data[|old(data)|];
                        fresh(alt) && alt.Kind() == Structure(Alternative) && alt.id == generated.value
                        && alt.parent == this && alt.data == [r.value] && r.value.parent == alt
                        && fresh(r.value) && r.value.props == wanted && r.value.id == ""
    {
      r := AddAlternative(wanted, altProps, map[], generated, altConstruction, construction,
                          innerVerdict, outerVerdict);
    }

    /** `correct(o, n, args)`: NOT_IMPLEMENTED unless the class mixes in
        AllowCorrection, which answers `correct(o, n, [], args)`. */
    function CorrectPair(o: Node?, nw: Node?, args: KWargs, correct4: Correct4): (r: Result<Node>)
      ensures !AllowCorrection(Kind()) ==> r == Err(NotImplementedFor(props.xmltag, "correct"))
      ensures AllowCorrection(Kind()) ==> r == correct4(o, nw, [], args)
    {
      if AllowCorrection(Kind()) then correct4(o, nw, [], args)
      else Err(NotImplementedFor(props.xmltag, "correct"))
    }
  }

  /** `dynamic_cast<F*>(e)` decided on tags: `e` itself when its class is F or derives from F. */
  function Cast(e: Node, wanted: ElementType): (r: Node?)
    ensures r != null <==> IsSubKind(e.Kind(), wanted)
    ensures r != null ==> r == e
  {
    if IsSubKind(e.Kind(), wanted) then e else null
  }

  /** The casts of a sequence of elements, element by element. */
  function Casts(tmp: seq<Node>, wanted: ElementType): seq<Node?>
  {
    if tmp == [] then [] else Casts(tmp[..|tmp| - 1], wanted) + [Cast(tmp[|tmp| - 1], wanted)]
  }

  /** `Casts` keeps the length and casts every position on its own. */
  lemma {:induction false} CastsLength(tmp: seq<Node>, wanted: ElementType)
    ensures |Casts(tmp, wanted)| == |tmp|
    ensures forall i :: 0 <= i < |tmp| ==> Casts(tmp, wanted)[i] == Cast(tmp[i], wanted)
  {
    if tmp != [] {
      var init := tmp[..|tmp| - 1];
      CastsLength(init, wanted);
      forall i | 0 <= i < |tmp|
        ensures Casts(tmp, wanted)[i] == Cast(tmp[i], wanted)
      {
        if i < |tmp| - 1 {
          assert tmp[i] == init[i];
        }
      }
    }
  }

  /** A sequence that casts every position of `tmp` is `Casts(tmp)`. */
  lemma CastsPointwise(tmp: seq<Node>, wanted: ElementType, res: seq<Node?>)
    requires |res| == |tmp|
    requires forall i :: 0 <= i < |res| ==> res[i] == Cast(tmp[i], wanted)
    ensures res == Casts(tmp, wanted)
  {
    CastsLength(tmp, wanted);
  }

  /** When the walk finds only elements of F's class (or subclasses), no cast fails. */
  lemma CastsOfMatchingKinds(tmp: seq<Node>, wanted: ElementType)
    requires forall i :: 0 <= i < |tmp| ==> IsSubKind(tmp[i].Kind(), wanted)
    ensures Casts(tmp, wanted) == tmp
  {
    CastsLength(tmp, wanted);
  }

  /** The argument of the NoSuchAnnotation thrown by `annotations`. */
  function MissingAnnotation(classname: string, s: string): string {
    if s == "" then classname else classname + " for set='" + s + "'"
  }

  /** The decision of `annotations<F>(s)` given whether the element allows annotations
      and the casted selection `sel`. */
  function Lookup(allow: bool, xmltag: string, classname: string, s: string, sel: seq<Node?>)
    : Result<seq<Node?>>
  {
    if !allow then Err(NotImplementedFor(xmltag, "annotations"))
    else if |sel| >= 1 then Ok(sel)
    else Err(NoSuchAnnotation(MissingAnnotation(classname, s)))
  }

  /** The catch of `hasannotation`. */
  function Has(v: Result<seq<Node?>>): Result<bool> {
    match v
    case Ok(_) => Ok(true)
    case Err(NoSuchAnnotation(_)) => Ok(false)
    case Err(e) => Err(e)
  }

  /** `annotation`'s `v[0]`. */
  function First(v: Result<seq<Node?>>): Result<Node?> {
    match v
    case Ok(sel) => if |sel| >= 1 then Ok(sel[0]) else Err(KeyError)
    case Err(e) => Err(e)
  }

  /** `annotations` returns the whole selection exactly when the element allows
      annotations and the selection is non-empty; an element without AllowAnnotation
      signals NotImplemented; an empty selection signals NoSuchAnnotation naming F, and
      the set when one was asked for. */
  lemma LookupCases(allow: bool, xmltag: string, classname: string, s: string, sel: seq<Node?>)
    ensures Lookup(allow, xmltag, classname, s, sel).Ok? <==> allow && |sel| >= 1
    ensures Lookup(allow, xmltag, classname, s, sel).Ok? ==> Lookup(allow, xmltag, classname, s, sel).value == sel
    ensures !allow ==> Lookup(allow, xmltag, classname, s, sel).error.What()
                       == NotImplementedPrefix + xmltag + "::annotations"
    ensures allow && sel == [] && s == "" ==>
              Lookup(allow, xmltag, classname, s, sel).error.What() == NoSuchAnnotationPrefix + classname
    ensures allow && sel == [] && s != "" ==>
              Lookup(allow, xmltag, classname, s, sel).error.What()
              == NoSuchAnnotationPrefix + classname + " for set='" + s + "'"
  {
    var r := Lookup(allow, xmltag, classname, s, sel);
    if !allow {
      assert r == Err(NotImplementedFor(xmltag, "annotations"));
    } else if sel == [] {
      assert r == Err(NoSuchAnnotation(MissingAnnotation(classname, s)));
      if s != "" {
        MissingAnnotationMessage(classname, s);
      }
    }
  }

  /** The message of a NoSuchAnnotation for a named set. */
  lemma MissingAnnotationMessage(classname: string, s: string)
    requires s != ""
    ensures NoSuchAnnotation(MissingAnnotation(classname, s)).What()
            == NoSuchAnnotationPrefix + classname + " for set='" + s + "'"
  {
    var m := classname + " for set='" + s + "'";
    assert NoSuchAnnotation(m).What() == NoSuchAnnotationPrefix + m;
  }

  /** `hasannotation` is true exactly when `annotations` succeeds, false exactly when
      it signals NoSuchAnnotation, and otherwise propagates the same error. */
  lemma {:induction false} HasAnnotationIff(allow: bool, xmltag: string, classname: string, s: string, sel: seq<Node?>)
    ensures Has(Lookup(allow, xmltag, classname, s, sel)) == Ok(true) <==> allow && |sel| >= 1
    ensures Has(Lookup(allow, xmltag, classname, s, sel)) == Ok(false) <==> allow && |sel| == 0
    ensures !allow ==> Has(Lookup(allow, xmltag, classname, s, sel)) == Err(NotImplementedFor(xmltag, "annotations"))
  {
    var v := Lookup(allow, xmltag, classname, s, sel);
    LookupCases(allow, xmltag, classname, s, sel);
    if !allow {
      assert v == Err(NotImplementedFor(xmltag, "annotations"));
    }
  }

  /** `annotation` never reaches past the end: it fails exactly when `annotations`
      fails, with the same error, and otherwise returns element 0 of the selection. */
  lemma {:induction false} AnnotationIsFirst(allow: bool, xmltag: string, classname: string, s: string, sel: seq<Node?>)
    ensures First(Lookup(allow, xmltag, classname, s, sel)).Ok? <==> Lookup(allow, xmltag, classname, s, sel).Ok?
    ensures First(Lookup(allow, xmltag, classname, s, sel)).Ok? ==>
              First(Lookup(allow, xmltag, classname, s, sel)).value == sel[0]
    ensures First(Lookup(allow, xmltag, classname, s, sel)).Err? ==>
              First(Lookup(allow, xmltag, classname, s, sel)).error == Lookup(allow, xmltag, classname, s, sel).error
  {
    LookupCases(allow, xmltag, classname, s, sel);
  }

  /** `len(e)`: the number of children of `e`. */
  function Len(e: Node): (n: nat)
    reads e`data
    ensures n == |e.data|
  {
    e.Size()
  }

  /** `isinstance(e, t)`: an element of exactly class `t`, which a cast to `t`
      therefore keeps. */
  predicate IsInstanceOf(e: Node, t: ElementType)
    ensures IsInstanceOf(e, t) <==> t == e.props.elementId
    ensures IsInstanceOf(e, t) ==> Cast(e, t) == e
  {
    IsInstance(e.Kind(), t)
  }

  /** `text(cls)` of an element: LineBreak always answers "". */
  function NodeText(e: Node, cls: string, reconstruct: Reconstruct): (r: Result<string>)
    ensures e.Kind() == Structure(LineBreak) ==> r == Ok("")
    ensures e.Kind() != Structure(LineBreak) ==> r == reconstruct(e, cls)
  {
    if e.Kind() == Structure(LineBreak) then Ok("") else reconstruct(e, cls)
  }

  const EmptyElementText: string := "text() for empty element"

  /** The free function `text(e, cls)`: a null element is a ValueError. */
  function Text(e: Node?, cls: string, reconstruct: Reconstruct): (r: Result<string>)
    ensures e == null ==> r == Err(ValueError(EmptyElementText)) && r.error.What() == EmptyElementText
    ensures e != null ==> r == NodeText(e, cls, reconstruct)
  {
    if e == null then Err(ValueError(EmptyElementText)) else NodeText(e, cls, reconstruct)
  }

  /** The classes whose `getTextDelimiter` is declared without showing its body:
      Word, Quote and Correction declare it, and PlaceHolder inherits Word's. */
  predicate HasDelimiterOverride(k: ElementType) {
    k == Structure(Word) || k == PlaceHolder || k == Structure(Quote) || k == Token(Correction)
  }

  /** The class whose declared `getTextDelimiter` an element of class `k` runs. */
  function OverridingClass(k: ElementType): (c: ElementType)
    requires HasDelimiterOverride(k)
    ensures c != PlaceHolder && HasDelimiterOverride(c) && IsSubKind(k, c)
  {
    if k == PlaceHolder then Structure(Word) else k
  }

  /** `getTextDelimiter(retaintok)`: the text-markup classes and XmlText use the
      empty delimiter whatever `retaintok` is; Word, Quote and Correction use their
      own declared one (`own` of that class and `retaintok`), which PlaceHolder
      inherits from Word; every other class uses what FoliaImpl computes for it
      (`inherited`). */
  function TextDelimiter(k: ElementType, retaintok: bool, own: (ElementType, bool) -> string,
                         inherited: (ElementType, bool) -> string): (r: string)
    ensures IsSubKind(k, Abstract(AbstractTextMarkup)) || k == Plain(XmlText) ==> r == ""
    ensures HasDelimiterOverride(k) ==> r == own(OverridingClass(k), retaintok)
    ensures !IsSubKind(k, Abstract(AbstractTextMarkup)) && k != Plain(XmlText) && !HasDelimiterOverride(k)
            ==> r == inherited(k, retaintok)
  {
    if IsSubKind(k, Abstract(AbstractTextMarkup)) || k == Plain(XmlText) then ""
    else if HasDelimiterOverride(k) then own(OverridingClass(k), retaintok)
    else inherited(k, retaintok)
  }

  /** The classes with a delimiter override are neither markup nor XmlText, so the
      overrides never compete. */
  lemma OwnDelimitersAreNotMarkup(k: ElementType)
    requires HasDelimiterOverride(k)
    ensures !IsSubKind(k, Abstract(AbstractTextMarkup)) && k != Plain(XmlText)
  {
    assert Depth(k) == 1 || Depth(k) == 2;
    if k == PlaceHolder {
      assert IsSubKind(Structure(Word), Abstract(AbstractTextMarkup)) == false;
    }
  }

  /** A PlaceHolder, which derives from Word without overriding getTextDelimiter,
      delimits exactly as a Word does. */
  lemma PlaceHolderDelimitsAsWord(retaintok: bool, own: (ElementType, bool) -> string,
                                  inherited: (ElementType, bool) -> string)
    ensures TextDelimiter(PlaceHolder, retaintok, own, inherited)
            == TextDelimiter(Structure(Word), retaintok, own, inherited)
            == own(Structure(Word), retaintok)
  {
    OwnDelimitersAreNotMarkup(PlaceHolder);
    OwnDelimitersAreNotMarkup(Structure(Word));
  }
}
