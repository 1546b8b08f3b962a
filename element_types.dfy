/** The closed set of element kinds of folia_impl.h and how they relate.

    libfolia answers "is this a kind of X" in two ways that the model keeps apart:
    - `has_base(e)`: each concrete class lists its bases by hand (the default answers
      false); the answers are not closed under the C++ class hierarchy;
    - virtual dispatch through the C++ class hierarchy, which decides which
      capability mixins (AllowAnnotation, AllowGenerateID, AllowCorrection) a kind has
      and which overrides (text delimiter, text) apply.
    An element tag is the group of classes sharing a C++ base class together with
    the class within that group. `Parent` records the C++ base class of every tagged
    class, `Mixins` the mixins a class lists itself, and `Capabilities` what it
    inherits. */
module ElementTypes {
  import opened FoliaUtils

  /** The abstract classes, which are never instantiated as nodes. */
  datatype AbstractClass =
    | AbstractStructureElement | AbstractAnnotation | AbstractTokenAnnotation | AbstractSpanAnnotation
    | AbstractTextMarkup | AbstractAnnotationLayer | AbstractCorrectionChild

  /** The classes deriving from AbstractTextMarkup. */
  datatype MarkupClass = TextMarkupGap | TextMarkupString | TextMarkupCorrection | TextMarkupError | TextMarkupStyle

  /** The classes deriving from AbstractStructureElement. */
  datatype StructureClass =
    | Head | TableHead | Table | Row | Cell | Division | LineBreak | WhiteSpace | Word | Part | Sentence
    | Speech | Text | Utterance | Event | Caption | Label | Item | List | Figure | Paragraph | Alternative
    | Quote | Note | Definition | Term | Example | Entry | Reference | Morpheme

  /** The classes deriving from AbstractTokenAnnotation. */
  datatype TokenClass =
    | String | PosAnnotation | LemmaAnnotation | LangAnnotation | Phoneme | DomainAnnotation
    | SenseAnnotation | SubjectivityAnnotation | Correction | ErrorDetection

  /** The classes deriving from Feature. */
  datatype FeatureClass =
    | BeginDateTimeFeature | EndDateTimeFeature | SynsetFeature | ActorFeature | HeadFeature
    | ValueFeature | FunctionFeature | TimeFeature | LevelFeature | ModalityFeature

  /** The classes deriving from AbstractSpanAnnotation. */
  datatype SpanClass =
    | SyntacticUnit | Chunk | Entity | Headwords | DependencyDependent | Dependency | CoreferenceLink
    | CoreferenceChain | SemanticRole | TimeSegment

  /** The classes deriving from AbstractCorrectionChild. */
  datatype CorrectionChildClass = New | Current | Original | Suggestion

  /** The classes deriving from AbstractAnnotationLayer. */
  datatype LayerClass =
    | SyntaxLayer | ChunkingLayer | EntitiesLayer | TimingLayer | MorphologyLayer | PhonologyLayer
    | DependenciesLayer | CoreferenceLayer | SemanticRolesLayer

  /** The classes deriving from FoliaImpl directly, and BASE. */
  datatype PlainClass =
    | BASE | TextContent | PhonContent | FoLiA | DCOI | Gap | Content | Metric | AlternativeLayers
    | Feature | WordReference | Alignment | AlignReference | Description | XmlComment | XmlText | External

  /** One tag per class of folia_impl.h (the ElementType enumeration), grouped by
      the class each derives from. */
  datatype ElementType =
    | Abstract(abstractClass: AbstractClass)
    | Markup(markupClass: MarkupClass)
    | Structure(structureClass: StructureClass)
    | PlaceHolder
    | Token(tokenClass: TokenClass)
    | FeatureOf(featureClass: FeatureClass)
    | Span(spanClass: SpanClass)
    | CorrectionChild(childClass: CorrectionChildClass)
    | Layer(layerClass: LayerClass)
    | Plain(plainClass: PlainClass)

  /** The annotation types a declaration can name. */
  datatype AnnotationType =
    | NO_ANN | TEXT | TOKEN | DIVISION | PARAGRAPH | LIST | FIGURE | WHITESPACE | LINEBREAK | SENTENCE
    | POS | LEMMA | DOMAIN | SENSE | SYNTAX | CHUNKING | ENTITY | SUBJECTIVITY | CORRECTION
    | ERRORDETECTION | PHON | SEMROLE | COREFERENCE | DEPENDENCY | TIMESEGMENT | MORPHOLOGICAL
    | ALTERNATIVE | STRING | TABLE | NOTE | PART | METRIC | GAP | LANG | EVENT | TERM | DEFINITION
    | EXAMPLE | ENTRY | REFERENCE

  datatype AnnotatorType = UNDEFINED | AUTO | MANUAL | GENERATOR | DATASOURCE

  /** The mixins of folia_impl.h:701-742. */
  datatype Capability = CanGenerateId | CanAnnotate | CanCorrect

  /** `has_base(e)` of the class tagged `k`: FoliaImpl answers false, and each
      class that overrides it names its bases one by one. */
  predicate HasBase(k: ElementType, e: ElementType)
    ensures HasBase(k, e) ==> Parent(k).Some? && e != k
  {
    match k
    case Markup(_) => e == Abstract(AbstractTextMarkup)
    case Structure(_) => e == Abstract(AbstractStructureElement)
    case PlaceHolder => e == Structure(Word) || e == Abstract(AbstractStructureElement)
    case Token(_) => e == Abstract(AbstractTokenAnnotation)
    case FeatureOf(_) => e == Plain(Feature)
    case Span(_) => e == Abstract(AbstractSpanAnnotation)
    case CorrectionChild(_) => e == Abstract(AbstractCorrectionChild)
    case Layer(_) => e == Abstract(AbstractAnnotationLayer)
    case Abstract(_) => false
    case Plain(_) => false
  }

  /** `isinstance(et)`: true exactly for the element's own tag, which the class is a
      kind of and which has_base never answers. */
  predicate IsInstance(k: ElementType, et: ElementType)
    ensures IsInstance(k, et) ==> IsSubKind(k, et) && !HasBase(k, et)
  {
    et == k
  }

  /** The C++ class the class tagged `k` derives from, when that class has a tag
      (FoliaImpl itself and the mixins have none). */
  function Parent(k: ElementType): Option<ElementType> {
    match k
    case Abstract(a) =>
      if a == AbstractTokenAnnotation || a == AbstractSpanAnnotation || a == AbstractTextMarkup
      then Some(Abstract(AbstractAnnotation)) else None
    case Markup(_) => Some(Abstract(AbstractTextMarkup))
    case Structure(_) => Some(Abstract(AbstractStructureElement))
    case PlaceHolder => Some(Structure(Word))
    case Token(_) => Some(Abstract(AbstractTokenAnnotation))
    case FeatureOf(_) => Some(Plain(Feature))
    case Span(_) => Some(Abstract(AbstractSpanAnnotation))
    case CorrectionChild(_) => Some(Abstract(AbstractCorrectionChild))
    case Layer(_) => Some(Abstract(AbstractAnnotationLayer))
    case Plain(_) => None
  }

  /** How many tagged classes lie above `k`. */
  function Depth(k: ElementType): (d: nat)
    ensures Parent(k).None? <==> d == 0
  {
    match k
    case Markup(_) | PlaceHolder | Token(_) | Span(_) => 2
    case Abstract(_) => if Parent(k).Some? then 1 else 0
    case Plain(_) => 0
    case _ => 1
  }

  lemma ParentIsShallower(k: ElementType)
    requires Parent(k).Some?
    ensures Depth(Parent(k).value) < Depth(k)
  {
  }

  /** The mixins a class lists among its own bases (folia_impl.h:744-747, 788-790,
      803-806, 1266-1269, 2207-2210). */
  function Mixins(k: ElementType): set<Capability> {
    match k
    case Abstract(a) =>
      if a == AbstractStructureElement || a == AbstractSpanAnnotation || a == AbstractAnnotationLayer
      then {CanGenerateId, CanAnnotate, CanCorrect}
      else if a == AbstractTokenAnnotation then {CanGenerateId}
      else {}
    case Token(t) => if t == String then {CanAnnotate, CanCorrect} else {}
    case _ => {}
  }

  /** What the class tagged `k` inherits: its own mixins and those of its ancestors. */
  function Capabilities(k: ElementType): (caps: set<Capability>)
    decreases Depth(k)
    ensures Mixins(k) <= caps
    ensures Parent(k).Some? ==> Capabilities(Parent(k).value) <= caps
  {
    match Parent(k)
    case None => Mixins(k)
    case Some(p) =>
      ParentIsShallower(k);
      Mixins(k) + Capabilities(p)
  }

  /** Whether class `k` is `a` or derives from it in C++. */
  predicate IsSubKind(k: ElementType, a: ElementType)
    decreases Depth(k)
  {
    k == a || match Parent(k)
              case None => false
              case Some(p) => ParentIsShallower(k); IsSubKind(p, a)
  }

  /** `allowannotations()`: false by default (folia_impl.h:188), true through AllowAnnotation (735). */
  predicate AllowAnnotations(k: ElementType) {
    CanAnnotate in Capabilities(k)
  }

  /** Whether `generateId` reaches AllowGenerateID::generateId instead of NOT_IMPLEMENTED. */
  predicate AllowGenerateId(k: ElementType) {
    CanGenerateId in Capabilities(k)
  }

  /** Whether `correct(...)` reaches AllowCorrection instead of NOT_IMPLEMENTED. */
  predicate AllowCorrection(k: ElementType) {
    CanCorrect in Capabilities(k)
  }

  /** has_base answers only for tags of classes the element really derives from,
      and never for the element's own tag. */
  lemma HasBaseNamesAnAncestor(k: ElementType, e: ElementType)
    requires HasBase(k, e)
    ensures !IsInstance(k, e) && IsSubKind(k, e)
  {
    assert Parent(k).Some?;
    if k == PlaceHolder && e == Abstract(AbstractStructureElement) {
      assert Parent(Structure(Word)) == Some(Abstract(AbstractStructureElement));
    }
  }

  /** has_base is not closed under the class hierarchy: a part-of-speech annotation
      derives (through AbstractTokenAnnotation) from AbstractAnnotation, but does not
      answer it. */
  lemma HasBaseIsNotInheritance()
    ensures HasBase(Token(PosAnnotation), Abstract(AbstractTokenAnnotation))
    ensures IsSubKind(Token(PosAnnotation), Abstract(AbstractAnnotation))
    ensures !HasBase(Token(PosAnnotation), Abstract(AbstractAnnotation))
  {
    assert IsSubKind(Abstract(AbstractTokenAnnotation), Abstract(AbstractAnnotation));
  }

  /** Only a PlaceHolder answers for a concrete class (Word), and Word itself does not. */
  lemma PlaceHolderBases()
    ensures HasBase(PlaceHolder, Structure(Word)) && HasBase(PlaceHolder, Abstract(AbstractStructureElement))
    ensures HasBase(Structure(Word), Abstract(AbstractStructureElement)) && !HasBase(Structure(Word), Structure(Word))
  {
  }

  /** Classes that keep FoliaImpl's has_base answer false for every tag. */
  lemma NoOverrideHasNoBase(k: ElementType, e: ElementType)
    requires k.Plain? || k.Abstract?
    ensures !HasBase(k, e)
  {
  }

  /** The capabilities of every kind written out group by group, without walking
      the class hierarchy. */
  function FlatCapabilities(k: ElementType): set<Capability> {
    match k
    case Structure(_) | PlaceHolder | Span(_) | Layer(_) => {CanGenerateId, CanAnnotate, CanCorrect}
    case Token(t) => if t == String then {CanGenerateId, CanAnnotate, CanCorrect} else {CanGenerateId}
    case Markup(_) | FeatureOf(_) | CorrectionChild(_) | Plain(_) => {}
    case Abstract(_) => Mixins(k)
  }

  /** A class that lists no mixin of its own has exactly its base's capabilities. */
  lemma InheritsFrom(k: ElementType, base: ElementType)
    requires Parent(k) == Some(base) && Mixins(k) == {}
    ensures Capabilities(k) == Capabilities(base)
  {
  }

  /** What a kind inherits through its C++ bases is the flat table. */
  lemma {:induction false} CapabilitiesAreFlat(k: ElementType)
    ensures Capabilities(k) == FlatCapabilities(k)
  {
    var all := {CanGenerateId, CanAnnotate, CanCorrect};
    var root := Abstract(AbstractAnnotation);
    assert Capabilities(root) == {};
    match k
    case Structure(_) =>
      assert Capabilities(Abstract(AbstractStructureElement)) == all;
      InheritsFrom(k, Abstract(AbstractStructureElement));
    case PlaceHolder =>
      assert Capabilities(Abstract(AbstractStructureElement)) == all;
      InheritsFrom(Structure(Word), Abstract(AbstractStructureElement));
      InheritsFrom(k, Structure(Word));
    case Token(_) =>
      assert Capabilities(Abstract(AbstractTokenAnnotation)) == {CanGenerateId};
    case Span(_) =>
      assert Capabilities(Abstract(AbstractSpanAnnotation)) == all;
      InheritsFrom(k, Abstract(AbstractSpanAnnotation));
    case Layer(_) =>
      assert Capabilities(Abstract(AbstractAnnotationLayer)) == all;
      InheritsFrom(k, Abstract(AbstractAnnotationLayer));
    case Markup(_) =>
      InheritsFrom(Abstract(AbstractTextMarkup), root);
      InheritsFrom(k, Abstract(AbstractTextMarkup));
    case FeatureOf(_) =>
      InheritsFrom(k, Plain(Feature));
    case CorrectionChild(_) =>
      InheritsFrom(k, Abstract(AbstractCorrectionChild));
    case Plain(_) =>
    case Abstract(_) =>
  }

  /** The kinds that allow annotations are exactly AllowAnnotation's users and the
      kinds that answer one of their tags through has_base. */
  lemma {:induction false} AnnotatableKinds(k: ElementType)
    ensures AllowAnnotations(k) <==>
      k == Abstract(AbstractStructureElement) || k == Abstract(AbstractSpanAnnotation)
      || k == Abstract(AbstractAnnotationLayer) || k == Token(String)
      || HasBase(k, Abstract(AbstractStructureElement)) || HasBase(k, Abstract(AbstractSpanAnnotation))
      || HasBase(k, Abstract(AbstractAnnotationLayer))
  {
    CapabilitiesAreFlat(k);
  }

  /** Token annotations other than String get identifiers but take no annotations
      and no corrections. */
  lemma {:induction false} TokenAnnotationCapabilities(k: ElementType)
    requires HasBase(k, Abstract(AbstractTokenAnnotation)) && k != Token(String)
    ensures AllowGenerateId(k) && !AllowAnnotations(k) && !AllowCorrection(k)
  {
    CapabilitiesAreFlat(k);
  }

  /** Whatever allows annotations or corrections also generates identifiers. */
  lemma {:induction false} CapabilitiesNest(k: ElementType)
    ensures AllowAnnotations(k) ==> AllowGenerateId(k)
    ensures AllowCorrection(k) <==> AllowAnnotations(k)
  {
    CapabilitiesAreFlat(k);
  }

  /** The kinds that reach AllowGenerateID::generateId: the structure elements, the
      token and span annotations and the annotation layers (each answering its
      abstract tag through has_base), and those abstract classes themselves. */
  lemma {:induction false} IdGeneratingKinds(k: ElementType)
    ensures AllowGenerateId(k) <==>
      k == Abstract(AbstractStructureElement) || k == Abstract(AbstractTokenAnnotation)
      || k == Abstract(AbstractSpanAnnotation) || k == Abstract(AbstractAnnotationLayer)
      || HasBase(k, Abstract(AbstractStructureElement)) || HasBase(k, Abstract(AbstractTokenAnnotation))
      || HasBase(k, Abstract(AbstractSpanAnnotation)) || HasBase(k, Abstract(AbstractAnnotationLayer))
  {
    CapabilitiesAreFlat(k);
  }
}
