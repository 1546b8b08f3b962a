# libfolia core in Dafny

This project models the core of libfolia, the C++ library for FoLiA documents (linguistically annotated XML). It covers what the three public headers state outright:

- **Exceptions** (`folia_utils.dfy`, module `FoliaUtils`). libfolia has eleven exception classes: eight prefix their argument with a fixed text, two (ValueError and DuplicateAnnotationError) pass it through unchanged, and KeyError has a fixed message. The model gives them one `Error` datatype.
  - `What()` is the message the exception reports.
  - `Parse` recovers the exception from its message. It is proved to be an inverse for every kind except the two whose message is their argument unchanged.
  - The `KWargs` attribute map is here too.
- **Element kinds** (`element_types.dfy`, module `ElementTypes`). This is the closed set of element tags. Each tag is a group of classes sharing a C++ base class (structure elements, token annotations, span annotations, layers, …) together with the class within that group, e.g. `Structure(Word)` or `Token(PosAnnotation)`.
  - `HasBase` is the hand-written `has_base` answer of each class.
  - `Parent` is the C++ base class of each class, and `Mixins` / `Capabilities` are the mixins each class lists or inherits (AllowGenerateID, AllowAnnotation, AllowCorrection). These decide whether `generateId`, `annotations` and `correct` are implemented or throw NotImplemented.
  - Proved: `has_base` only ever names a real ancestor, but it is not closed under inheritance. The inherited capabilities also equal a flat per-group table.
- **The element node** (`folia_impl.dfy`, module `FoliaImpl`). `Node` is a class holding the FoliaImpl fields that inline members touch: children, parent, id/class/set/annotator/n, annotator type, auth flag and reference count. Its methods are:
  - the inline setters and `increfcount`;
  - `select<F>` as a loop of casts;
  - the lookup rules `annotations` / `hasannotation` / `annotation`, proved against the pure decision function `Lookup`;
  - the all-or-nothing builders `addAnnotation` and `addAlternative`.

  The inline free functions `text(e)`, `len(e)` and `isinstance(e, t)`, the text-delimiter overrides and the `correct(o, n, args)` forwarding are modelled as functions.
- **The document** (`folia_document.dfy`, module `FoliaDocument`). It contains:
  - `Pattern::size`;
  - processors and the provenance tree, with `get_processor` proved complete for the tree's identifiers;
  - the four mode bits, with their independence proved;
  - the `Document` class: id index and insertion list, deferred offset-validation buffers, keep-for-deletion set, externals, sub-metadata map, debug level and declaration table;
  - the declaration/default rules, with the document built by the library's smoke test (`src/simpletest.cxx`) as a method whose outcome is proved.

The headers only declare many operations; their bodies are in source files that are not part of this model. Most such operations are inputs of the model; the few rules the model chooses for a body it cannot see are listed under "Left out". The inputs:
- the traversal behind `select(ElementType, …)` is a function parameter (`Walk`);
- whether constructing an element or `append` succeeds is an `Outcome` parameter;
- what IDgen produces, an identifier or the error it throws, is a `Result` parameter;
- text reconstruction and the four-argument `correct` are function parameters.

## Model

| member | source | states |
|---|---|---|
| FoliaUtils.Error.What | include/libfolia/folia_utils.h:51-105 | KeyError always reports "key out of range"; ValueError and DuplicateAnnotationError report their argument unchanged; every other kind reports its fixed prefix followed by exactly its argument |
| FoliaUtils.NotImplementedFor | include/libfolia/folia_impl.h:63-65 | the NOT_IMPLEMENTED macro throws a NotImplementedError whose message is "NOT IMPLEMENTED: " + xmltag + "::" + function name |
| FoliaUtils.Parse | include/libfolia/folia_utils.h:51-105 | whatever exception it recovers from a message is a prefixed kind whose message is exactly that text |
| FoliaUtils.ParseWhat | include/libfolia/folia_utils.h:51-105 | every prefixed exception is recovered from its own message (Parse inverts What), so the prefixes never overlap |
| FoliaUtils.WhatIdentifies | include/libfolia/folia_utils.h:51-105 | two prefixed exceptions have the same message if and only if they are the same exception |
| FoliaUtils.PassThroughIsAmbiguous | include/libfolia/folia_utils.h:67-100 | a ValueError or DuplicateAnnotationError can carry exactly the message of a NoSuchText or DuplicateIDError |
| ElementTypes.Capabilities | include/libfolia/folia_impl.h:744-824 | a class has its own mixins and everything its C++ base class has |
| ElementTypes.HasBase | include/libfolia/folia_impl.h:461 | has_base answers true only on a class that has a tagged C++ base class, and never for the class's own tag |
| ElementTypes.IsInstance | include/libfolia/folia_impl.h:467-469 | isinstance(et) holds only for a tag the class is a kind of, and has_base never answers that tag |
| ElementTypes.HasBaseNamesAnAncestor | include/libfolia/folia_impl.h:1288-1305 | has_base answers true only for a tag of a class the element really derives from, and never for its own tag (which isinstance answers) |
| ElementTypes.HasBaseIsNotInheritance | include/libfolia/folia_impl.h:1593-1609 | a PosAnnotation answers AbstractTokenAnnotation but not AbstractAnnotation, although it derives from both |
| ElementTypes.PlaceHolderBases | include/libfolia/folia_impl.h:1302-1304 | a PlaceHolder answers both Word and AbstractStructureElement; a Word answers AbstractStructureElement but not Word |
| ElementTypes.NoOverrideHasNoBase | include/libfolia/folia_impl.h:461 | the abstract classes and the classes deriving from FoliaImpl directly keep FoliaImpl's has_base, which answers false for every tag |
| ElementTypes.CapabilitiesAreFlat | include/libfolia/folia_impl.h:744-824 | the capabilities inherited through the class hierarchy equal a flat table written out per group of classes |
| ElementTypes.AnnotatableKinds | include/libfolia/folia_impl.h:733-742 | allowannotations() is true exactly for AbstractStructureElement, AbstractSpanAnnotation, AbstractAnnotationLayer, String and the classes answering one of those three abstract tags |
| ElementTypes.TokenAnnotationCapabilities | include/libfolia/folia_impl.h:788-801 | a token annotation other than String generates identifiers but allows neither annotations nor corrections |
| ElementTypes.CapabilitiesNest | include/libfolia/folia_impl.h:744-747 | a class allows corrections exactly when it allows annotations, and either implies it generates identifiers |
| ElementTypes.IdGeneratingKinds | include/libfolia/folia_impl.h:701-711 | generateId is implemented exactly for the four abstract classes mixing in AllowGenerateID and the classes answering their tags |
| FoliaImpl.Node.constructor | include/libfolia/folia_impl.h:441-460 | a new element has no children and no parent, and takes id, class, set, annotator and n from its arguments |
| FoliaImpl.Node.Kind | include/libfolia/folia_impl.h:365 | element_id() is the tag in the class's static properties; isinstance answers it and has_base never does |
| FoliaImpl.Node.Size | include/libfolia/folia_impl.h:463 | size() counts every child, as often as it occurs, and is 0 exactly when there are no children; Append raises it by one |
| FoliaImpl.Node.SetParent | include/libfolia/folia_impl.h:477-478 | setParent replaces the parent and nothing else |
| FoliaImpl.Node.SetAnnotator | include/libfolia/folia_impl.h:523-524 | annotator(a) replaces the annotator and nothing else |
| FoliaImpl.Node.SetAnnotatorType | include/libfolia/folia_impl.h:525-526 | annotatortype(t) replaces the annotator type and nothing else |
| FoliaImpl.Node.SetAuth | include/libfolia/folia_impl.h:634 | setAuth replaces the auth flag and nothing else |
| FoliaImpl.Node.IncRefCount | include/libfolia/folia_impl.h:630-631 | increfcount raises the reference count by exactly one and changes no other field |
| FoliaImpl.Node.Append | include/libfolia/folia_impl.h:98 | an accepted child becomes the last child, gets this element as parent and raises size() by one; a refused child leaves children and parent as they were and its error propagates. The header only declares append; that an accepted child is always re-parented is this model's assumption |
| FoliaImpl.Node.GenerateId | include/libfolia/folia_impl.h:701-711 | NotImplemented ("…::generateId") unless the class mixes in AllowGenerateID, otherwise IDgen's identifier, or IDgen's error when it fails |
| FoliaImpl.Node.Select | include/libfolia/folia_impl.h:116-131 | select<F> returns one entry per element the node-level select finds, in order, each the element cast to F or null |
| FoliaImpl.Node.Annotations | include/libfolia/folia_impl.h:205-220 | annotations<F>(s) is the Lookup decision over the casted selection of F in set s that skips the ignored subtrees |
| FoliaImpl.Node.HasAnnotation | include/libfolia/folia_impl.h:222-231 | hasannotation<F>(st) is annotations<F>(st) with only NoSuchAnnotation caught |
| FoliaImpl.Node.Annotation | include/libfolia/folia_impl.h:233-237 | annotation<F>(st) is element 0 of annotations<F>(st) |
| FoliaImpl.Node.AddAnnotation | include/libfolia/folia_impl.h:239-251 | succeeds exactly when construction and append succeed, returning a fresh F whose id, class, set, annotator and n come from the arguments and that is now the last child; on failure the error propagates and the children are unchanged |
| FoliaImpl.Node.AddAlternative | include/libfolia/folia_impl.h:1568-1585 | fails with NotImplemented before building anything on a class without AllowGenerateID, and with IDgen's error when IDgen fails; succeeds exactly when IDgen and every later step do; on success exactly one Alternative is appended, carrying the generated id and holding the returned annotation as its only child; on failure nothing is appended |
| FoliaImpl.Node.AddAlternativeNoArgs | include/libfolia/folia_impl.h:1587-1591 | everything addAlternative states, with empty arguments: NotImplemented before anything is built on a class without AllowGenerateID, IDgen's error when it fails; succeeds exactly when IDgen and every later step do; on success one fresh Alternative carrying the generated id is appended and holds the fresh annotation, whose id is empty, as its only child; on failure nothing is appended |
| FoliaImpl.Node.CorrectPair | include/libfolia/folia_impl.h:720-725 | correct(o, n, args) is NotImplemented without AllowCorrection and otherwise equals correct(o, n, [], args) |
| FoliaImpl.Cast | include/libfolia/folia_impl.h:126-128 | a cast to F yields the element itself exactly when its class is F or derives from F, and null otherwise |
| FoliaImpl.CastsLength | include/libfolia/folia_impl.h:116-131 | casting a selection keeps its length and casts every position on its own |
| FoliaImpl.CastsPointwise | include/libfolia/folia_impl.h:126-128 | any sequence built by casting each position is the cast selection |
| FoliaImpl.CastsOfMatchingKinds | include/libfolia/folia_impl.h:116-131 | when the node-level select finds only elements of F's class or its subclasses, no cast fails and the selection is unchanged |
| FoliaImpl.LookupCases | include/libfolia/folia_impl.h:205-220 | annotations succeeds exactly when annotations are allowed and the selection is non-empty, returning the whole selection; otherwise the message is "NOT IMPLEMENTED: <xmltag>::annotations", or "no such annotation: " + F's class name with " for set='s'" when a set was asked for |
| FoliaImpl.HasAnnotationIff | include/libfolia/folia_impl.h:222-231 | hasannotation is true exactly when annotations succeeds, false exactly when it signals NoSuchAnnotation, and NotImplemented propagates |
| FoliaImpl.AnnotationIsFirst | include/libfolia/folia_impl.h:233-237 | annotation fails exactly when annotations does, with the same error, and otherwise returns element 0 of the selection |
| FoliaImpl.NodeText | include/libfolia/folia_impl.h:1167-1170 | a LineBreak's text is always "", any other element's is its reconstructed text |
| FoliaImpl.Text | include/libfolia/folia_impl.h:687-693 | text(null) is a ValueError whose message is "text() for empty element"; text(e) is e's own text |
| FoliaImpl.Len | include/libfolia/folia_impl.h:676-677 | len(e) is the number of children of e |
| FoliaImpl.IsInstanceOf | include/libfolia/folia_impl.h:698-699 | isinstance(e, t) holds exactly when t is e's own tag, and then a cast of e to t keeps e |
| FoliaImpl.TextDelimiter | include/libfolia/folia_impl.h:843 | the text-markup classes and XmlText use the empty delimiter; Word, Quote and Correction use their own declared delimiter for the given `retaintok`, and PlaceHolder uses Word's; every other class uses the inherited one for its class and `retaintok` |
| FoliaImpl.OwnDelimitersAreNotMarkup | include/libfolia/folia_impl.h:1235 | the classes running a declared getTextDelimiter (Word, PlaceHolder, Quote, Correction) are neither text markup nor XmlText, so no two overrides compete |
| FoliaImpl.PlaceHolderDelimitsAsWord | include/libfolia/folia_impl.h:1288 | a PlaceHolder, deriving from Word without its own getTextDelimiter, gets exactly Word's delimiter |
| FoliaDocument.Pattern.Size | include/libfolia/folia_document.h:62 | size() is the number of tokens in the pattern |
| FoliaDocument.Processor.Annotator | include/libfolia/folia_document.h:91 | annotator() is the processor's name |
| FoliaDocument.Processor.AnnotatorType | include/libfolia/folia_document.h:94 | annotatortype() is the processor's type |
| FoliaDocument.Find | include/libfolia/folia_document.h:130 | the search finds a processor exactly when the identifier occurs somewhere in the provenance tree, and what it finds has that identifier |
| FoliaDocument.Provenance.GetProcessor | include/libfolia/folia_document.h:130 | get_processor(s) is non-null exactly when a processor with identifier s exists in the tree, and then has identifier s |
| FoliaDocument.Provenance.Subscript | include/libfolia/folia_document.h:134-137 | operator[](s) is get_processor(s) |
| FoliaDocument.Provenance.Index | include/libfolia/folia_document.h:138-141 | index(s) is get_processor(s) |
| FoliaDocument.ModeRoundTrip | include/libfolia/folia_document.h:154 | every combination of the four flags is exactly one mode and every mode is exactly one combination |
| FoliaDocument.FlagsAreIndependent | include/libfolia/folia_document.h:284-291 | setting one mode bit changes the answer of its own query only |
| FoliaDocument.Document.Permissive | include/libfolia/folia_document.h:284 | permissive() holds exactly when the PERMISSIVE bit is already part of the mode |
| FoliaDocument.Document.CheckText | include/libfolia/folia_document.h:285-287 | checktext() holds exactly when the CHECKTEXT bit is already part of the mode |
| FoliaDocument.Document.FixText | include/libfolia/folia_document.h:288-290 | fixtext() holds exactly when the FIXTEXT bit is already part of the mode |
| FoliaDocument.Document.Strip | include/libfolia/folia_document.h:291 | strip() holds exactly when the STRIP bit is already part of the mode |
| FoliaDocument.WithDeclaration | include/libfolia/folia_document.h:268-270 | declaring a new entry appends it after the type's earlier entries, which are all kept; an identical declaration is kept once; every other type is left alone |
| FoliaDocument.DefaultSetIsTheOnlySet | include/libfolia/folia_document.h:252 | defaultset succeeds exactly when one set is declared for the type, and returns that set |
| FoliaDocument.DefaultAnnotatorIsTheOnlyAnnotator | include/libfolia/folia_document.h:254-255 | defaultannotator succeeds exactly when the selected declarations name one annotator, and returns that annotator |
| FoliaDocument.SingleDeclaration | include/libfolia/folia_document.h:252-255 | a type with a single declaration defaults to its set and to its annotator, with or without the set named |
| FoliaDocument.DeclareOnFreshType | src/simpletest.cxx:51-57 | after declaring a set with an annotator for a type that had none, defaultset and defaultannotator return them and the set counts as declared |
| FoliaDocument.DeclareIdempotent | include/libfolia/folia_document.h:268-270 | declaring the same thing twice is declaring it once |
| FoliaDocument.SecondSetHasNoDefault | include/libfolia/folia_document.h:252 | once two different sets are declared for a type, defaultset signals NoDefaultError |
| FoliaDocument.Document.constructor | include/libfolia/folia_document.h:361-376 | a new document has an empty index, insertion list, declaration table, buffers, keep-for-deletion set, externals and sub-metadata, debug level 0 and the given id and mode |
| FoliaDocument.Document.KeepForDeletion | include/libfolia/folia_document.h:280 | keepForDeletion adds the element to the set, keeping it again changes nothing, and no other field changes |
| FoliaDocument.Document.AddExternal | include/libfolia/folia_document.h:281 | addExternal appends exactly one External at the end of the list |
| FoliaDocument.Document.CacheTextContent | include/libfolia/folia_document.h:322-324 | cache_textcontent appends one entry at the end of the text buffer and leaves the phon buffer unchanged |
| FoliaDocument.Document.CachePhonContent | include/libfolia/folia_document.h:325-327 | cache_phoncontent appends one entry at the end of the phon buffer and leaves the text buffer unchanged |
| FoliaDocument.Document.SetDebug | include/libfolia/folia_document.h:312 | setdebug returns the previous level and leaves the new one set |
| FoliaDocument.Document.GetSubmetadata | include/libfolia/folia_document.h:314-321 | null for a key that is not in the map, otherwise the stored record |
| FoliaDocument.Document.SubmetadataNullIff | include/libfolia/folia_document.h:314-321 | with no null stored, get_submetadata answers null exactly for unknown keys |
| FoliaDocument.Document.Index | include/libfolia/folia_document.h:222 | index(s) is the element indexed under s, or null; while the document is valid nothing is found under the empty identifier |
| FoliaDocument.Document.Subscript | include/libfolia/folia_document.h:223 | operator[](s) is index(s) |
| FoliaDocument.Document.AddDocIndex | include/libfolia/folia_document.h:217 | an empty id is not indexed; a taken id is a DuplicateIDError and changes nothing; otherwise the element is found under the id, is last in the insertion list, and every other id still finds what it found |
| FoliaDocument.Document.DelDocIndex | include/libfolia/folia_document.h:218 | the id no longer finds anything, the element leaves the insertion list, and every other id still finds what it found |
| FoliaDocument.WithoutKeepsOrder | include/libfolia/folia_document.h:218 | removing an element from the insertion list keeps the order of the rest: removal distributes over concatenation |
| FoliaDocument.Document.Declare | include/libfolia/folia_document.h:268-270 | declare(at, set, args) records the set with the annotator, annotator type and date named in args |
| FoliaDocument.Document.Declared | include/libfolia/folia_document.h:236-239 | declared(at, s) is isDeclared(at, s) |
| FoliaDocument.Document.IsDeclared | include/libfolia/folia_document.h:234-235 | isDeclared(at, s) holds exactly when some declaration of at is recorded, with set s when s is given |
| FoliaDocument.Document.DefaultSet | include/libfolia/folia_document.h:252 | defaultset(at) succeeds exactly when one set is declared for at and returns it; otherwise NoDefaultError |
| FoliaDocument.Document.DefaultAnnotator | include/libfolia/folia_document.h:254-255 | defaultannotator(at, s) succeeds exactly when the declarations of at (of set s when given) name one annotator and returns it; otherwise NoDefaultError |
| FoliaDocument.DeclareExampleSet | src/simpletest.cxx:51-57 | after declaring set "adhocset" with annotator "proycon" for tokens on a fresh document, defaultset(TOKEN) is "adhocset" and defaultannotator(TOKEN) is "proycon" |
| FoliaDocument.AddExampleWords | src/simpletest.cxx:66-75 | adding the five words of the example sentence with addAnnotation<Word> grows the sentence by exactly five children |
| FoliaDocument.SimpleDocument | src/simpletest.cxx:50-76 | in the smoke test's document, defaultset(TOKEN) is "adhocset", defaultannotator(TOKEN) is "proycon", and the sentence found under "<text id>.s.1" has size 5 after five words are added |

The decision functions these contracts are stated against are defined once:
- `ElementTypes.HasBase`, `Parent`, `IsSubKind` and `AllowAnnotations` / `AllowGenerateId` / `AllowCorrection`;
- `FoliaImpl.Casts`, `Lookup`, `Has` and `First`;
- `FoliaDocument.FlagsOf` / `ModeOf`, `DefaultSetOf`, `DefaultAnnotatorOf` / `AnnotatorsOf` and `IsDeclaredIn`.


## Left out

- XML reading and writing, the libxml2 namespaces, and ICU `UnicodeString` (strings are `seq<char>`, with no normalisation or case folding).
- Regular expressions: `Pattern::match` and the pattern constructors are not modelled; only `Pattern::size` is.
- `confidence` (a double), date/time parsing, metadata (IMDI, foreign metadata) and styles. These are adapters to other libraries or floating point.
- Thread setup (`initMT`) and the `isSubClass` functions. A `dynamic_cast` is decided on tags (`Cast`, through `IsSubKind`).
- Operations whose bodies live in the library's `.cxx` files are inputs, not rules:
  - `acceptable`, `addable` and `append`'s acceptance are `Outcome` parameters;
  - `setAttributes` validation during construction is an `Outcome` parameter;
  - the node-level `select` traversal is `Walk`;
  - IDgen's result, an identifier or an error, is a `Result` parameter;
  - text reconstruction is `Reconstruct`, and the four-argument `correct` is `Correct4`.
- The contents of `default_ignore_annotations` are defined in a `.cxx` file and are not part of this model; `annotations` takes the set as a parameter.
- `remove`, `replace`, `findreplacables`, `splitWord`, `mergewords`, `validate_offsets`, `un_declare`, aliases, processors in declarations, the five-argument `isDeclared`, `defaultannotatortype` / `defaultdatetime` / `defaultprocessor`, the `set_*` mode setters, `setmode`, the version functions, `Document::append`, `addText` and `addWord`. Their bodies are not part of this model.
- The element's document back-pointer (`mydoc`), `href`, `src`, date/time fields and the speech attributes. `addAnnotation` and `addAlternative` hand `doc()` to the elements they construct; the model does not record that document, nor any index registration the constructors make through it.
- FoliaImpl.Node.GenerateId: IDgen (folia_impl.h:709) has no body in the headers; its outcome is an input, and the per-tag `maxid` map of AllowGenerateID (folia_impl.h:710), with `setMaxId` / `getMaxId`, is not modelled, so nothing is promised about which identifier is produced or that two calls give distinct ones.
- FoliaImpl.Node.constructor: which argument keys feed which field, the initial reference count (0), the auth flag (true) and the annotator type (UNDEFINED) are set in the `.cxx` constructor and `setAttributes`, which are not part of this model; they are stated, not derived.
- FoliaDocument.Document.constructor: the initial debug level 0 and the empty tables are set in the `.cxx` constructor, which is not part of this model; they are stated, not derived.
- FoliaImpl.TextDelimiter: the delimiters of Word, Quote and Correction (folia_impl.h:1235, 1739, 2559) are declared without a body; the model takes them as the parameter `own`, per class and `retaintok` flag, and FoliaImpl's own computation as `inherited`; PlaceHolder (folia_impl.h:1288) uses Word's.
- FoliaImpl.Node.IncRefCount: the reference count is an unbounded integer, so the overflow of the C++ `int` is not modelled.
- FoliaImpl.Node.Select: the model keeps the source's null entries for failed casts instead of filtering them out; `annotations` counts them as the source does.
- FoliaDocument.Document.Index: the `.cxx` body is not part of this model; a missing id gives null, as `get_submetadata` does.
- FoliaDocument.Document.AddDocIndex: the duplicate-id error, the skipping of empty ids and the append to the insertion list are this model's assumption; the `.cxx` body is not part of this model.
- FoliaDocument.Document.Declare: the header's `declare` takes its arguments as one string; the model takes the map that `getArgs` (folia_utils.h:120, body not part of this model) would produce from it.
- FoliaDocument.Document.DelDocIndex: removes every occurrence of the element from the insertion list; the `.cxx` body is not part of this model.
- FoliaDocument.DefaultSetIsTheOnlySet: the argument text of the model's NoDefaultError is the function's name.
- FoliaDocument.DefaultSetOf: the header only declares `defaultset`; "Ok when every declaration of the type has one set, else NoDefaultError" is this model's chosen rule for a `.cxx` body that is not part of this model.
- FoliaDocument.DefaultAnnotatorOf: the header only declares `defaultannotator`; "Ok when the selected declarations name one annotator, else NoDefaultError" and the selection by set are this model's chosen rules for a `.cxx` body that is not part of this model.
- FoliaDocument.IsDeclaredIn: the header only declares the two-argument `isDeclared`; matching any declaration of the type, or one with the given set, is this model's chosen rule for a `.cxx` body that is not part of this model.
- FoliaDocument.WithDeclaration: the declaration table is a list of (set, annotator, annotator type, date) entries per type; alias validation and reference counting of declarations are not modelled.
- FoliaDocument.Provenance.GetProcessor: the search order (each processor before its sub-processors, those before later siblings) is an assumption; the `.cxx` body is not part of this model.
- FoliaDocument.SimpleDocument: `addText`, IDgen's "<parent>.s.1" identifier and `addWord` are written out as `AddDocIndex`, an explicit identifier and `AddAnnotation` of a Word; the reconstructed text "De site staat online ." is not modelled.
