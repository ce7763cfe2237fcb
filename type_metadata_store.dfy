/**
 * Gradle's `DefaultTypeMetadataStore`: it classifies the annotated properties
 * of a task or bean type. Each property gets an effective property type (its
 * role annotation, or `@InputFiles` for a bare `@Classpath`/`@CompileClasspath`
 * normalization), the handler registered for that type, and checks of its
 * modifier annotations. Every rule it breaks is reported as a validation
 * problem, and only the properties whose handler is relevant are kept. The
 * result is memoized per type.
 *
 * Classes, annotations and reflection are abstracted as tags. What the code
 * obtains through reflection or from collaborators that are not part of this
 * model comes in as functions fixed when the store is built: the annotation
 * metadata of a type, the unpacking of a generated subclass, and the
 * handlers' own validations.
 */
module TypeMetadataStore {
  import opened Wrappers
  import opened Text

  /** A Java class, by its name. */
  type ClassName = string

  /** An annotation class: its qualified and its simple name. */
  datatype AnnotationType = AnnotationType(qualifiedName: string, simpleName: string)

  const Classpath := AnnotationType("org.gradle.api.tasks.Classpath", "Classpath")
  const CompileClasspath := AnnotationType("org.gradle.api.tasks.CompileClasspath", "CompileClasspath")
  const InputFiles := AnnotationType("org.gradle.api.tasks.InputFiles", "InputFiles")

  /** The category of a property annotation: the role (`TYPE`) or a modifier category such as `NORMALIZATION`. */
  datatype AnnotationCategory = TypeCategory | ModifierCategory(name: string)

  const Normalization := ModifierCategory("NORMALIZATION")

  /**
   * The annotations found on one property, category by category, in the
   * iteration order of the map the metadata store hands out.
   */
  datatype PropertyAnnotationMetadata =
    PropertyAnnotationMetadata(propertyName: string, annotations: seq<(AnnotationCategory, AnnotationType)>)

  /** `annotations.get(category)`: the annotation recorded for a category, if any. */
  function AnnotationFor(annotations: seq<(AnnotationCategory, AnnotationType)>, category: AnnotationCategory): (r: Option<AnnotationType>)
    ensures r.None? <==> forall i :: 0 <= i < |annotations| ==> annotations[i].0 != category
    ensures r.Some? ==> exists i :: 0 <= i < |annotations| && annotations[i] == (category, r.value)
  {
    if annotations == [] then None
    else if annotations[0].0 == category then
      assert annotations[0] == (category, annotations[0].1);
      Some(annotations[0].1)
    else
      var r := AnnotationFor(annotations[1..], category);
      assert r.Some? ==> exists i :: 0 <= i < |annotations| && annotations[i] == (category, r.value) by {
        if r.Some? {
          var i :| 0 <= i < |annotations[1..]| && annotations[1..][i] == (category, r.value);
          assert annotations[i + 1] == (category, r.value);
        }
      }
      r
  }

  datatype ProblemId = MissingAnnotation | AnnotationInvalidInContext | IncompatibleAnnotations | OtherProblem(name: string)

  datatype Severity = Warning | Error

  /** A validation problem as it is reported: the texts the problem builder is given. */
  datatype ProblemReport = ProblemReport(
    id: ProblemId,
    property: Option<string>,
    severity: Severity,
    description: string,
    reason: string,
    longDescription: Option<string>,
    solutions: seq<string>,
    documentation: (string, string))

  /**
   * A validation problem as recorded. The problems this store raises keep
   * what was found; their texts are built from it on demand, as the
   * suppliers handed to the problem builder do. Problems from collaborators
   * arrive as reports.
   */
  datatype Problem =
    | MissingAnnotationProblem(property: string, displayName: string)
    | InvalidPropertyTypeProblem(property: string, propertyType: AnnotationType, handledTypesListing: string)
    | IncompatibleAnnotationsProblem(property: string, annotationType: AnnotationType, propertyType: AnnotationType,
                                     allowedModifiersListing: string)
    | InvalidModifierProblem(property: string, annotationType: AnnotationType, allowedModifiersListing: string)
    | ReportedProblem(report: ProblemReport)

  /** The documentation anchor of a problem id the store raises. */
  function Anchor(id: ProblemId): string
  {
    match id
    case MissingAnnotation => "missing_annotation"
    case AnnotationInvalidInContext => "annotation_invalid_in_context"
    case IncompatibleAnnotations => "incompatible_annotations"
    case OtherProblem(name) => name
  }

  /**
   * The id a problem is reported under: MISSING_ANNOTATION for a property
   * without a role, INCOMPATIBLE_ANNOTATIONS for a modifier its handler
   * refuses, ANNOTATION_INVALID_IN_CONTEXT for a role or a modifier the store
   * does not handle.
   */
  function ReportedId(p: Problem): (r: ProblemId)
    ensures p.MissingAnnotationProblem? <==> r == MissingAnnotation && !p.ReportedProblem?
    ensures p.IncompatibleAnnotationsProblem? <==> r == IncompatibleAnnotations && !p.ReportedProblem?
    ensures p.InvalidPropertyTypeProblem? || p.InvalidModifierProblem? <==> r == AnnotationInvalidInContext && !p.ReportedProblem?
  {
    match p
    case MissingAnnotationProblem(_, _) => MissingAnnotation
    case InvalidPropertyTypeProblem(_, _, _) => AnnotationInvalidInContext
    case IncompatibleAnnotationsProblem(_, _, _, _) => IncompatibleAnnotations
    case InvalidModifierProblem(_, _, _) => AnnotationInvalidInContext
    case ReportedProblem(report) => report.id
  }

  /** The description a problem this store raises is reported with. */
  function Description(p: Problem): string
    requires !p.ReportedProblem?
  {
    match p
    case MissingAnnotationProblem(_, displayName) => "is missing " + displayName
    case InvalidPropertyTypeProblem(_, propertyType, _) => "is annotated with invalid property type @" + propertyType.simpleName
    case IncompatibleAnnotationsProblem(_, annotationType, propertyType, _) =>
      "is annotated with @" + annotationType.simpleName + " but that is not allowed for '" + propertyType.simpleName + "' properties"
    case InvalidModifierProblem(_, annotationType, _) => "is annotated with invalid modifier @" + annotationType.simpleName
  }

  /** The reason a problem this store raises is reported with. */
  function Reason(p: Problem): string
    requires !p.ReportedProblem?
  {
    match p
    case MissingAnnotationProblem(_, _) => "A property without annotation isn't considered during up-to-date checking"
    case InvalidPropertyTypeProblem(_, propertyType, _) =>
      "The '@" + propertyType.simpleName + "' annotation cannot be used in this context"
    case IncompatibleAnnotationsProblem(_, _, propertyType, _) =>
      "This modifier is used in conjunction with a property of type '" + propertyType.simpleName + "' but this doesn't have semantics"
    case InvalidModifierProblem(_, annotationType, _) =>
      "The '@" + annotationType.simpleName + "' annotation cannot be used in this context"
  }

  /** The long description: only INCOMPATIBLE_ANNOTATIONS has one. */
  function LongDescription(p: Problem): Option<string>
    requires !p.ReportedProblem?
  {
    match p
    case IncompatibleAnnotationsProblem(_, _, propertyType, allowedModifiersListing) =>
      Some("The list of allowed modifiers for '" + propertyType.simpleName + "' is " + allowedModifiersListing)
    case _ => None
  }

  /** The solutions offered for a problem this store raises. */
  function Solutions(p: Problem): seq<string>
    requires !p.ReportedProblem?
  {
    match p
    case MissingAnnotationProblem(_, displayName) => ["Add " + displayName, "Mark it as @Internal"]
    case InvalidPropertyTypeProblem(_, _, handledTypesListing) =>
      ["Remove the property", "Use a different annotation, e.g one of " + handledTypesListing]
    case IncompatibleAnnotationsProblem(_, annotationType, _, _) => ["Remove the '@" + annotationType.simpleName + "' annotation"]
    case InvalidModifierProblem(_, _, allowedModifiersListing) =>
      ["Remove the annotation", "Use a different annotation, e.g one of " + allowedModifiersListing]
  }

  /**
   * The report of a problem: its id, property, severity and texts. The
   * problems this store raises are errors about their property, documented
   * under the anchor of their id.
   */
  function Report(p: Problem): (r: ProblemReport)
    ensures r.id == ReportedId(p)
    ensures p.ReportedProblem? ==> r == p.report
    ensures !p.ReportedProblem? ==> r.property == Some(p.property) && r.severity == Error
    ensures !p.ReportedProblem? ==> r.documentation == ("validation_problems", Anchor(r.id))
  {
    if p.ReportedProblem? then p.report
    else
      ProblemReport(ReportedId(p), Some(p.property), Error, Description(p), Reason(p), LongDescription(p), Solutions(p),
                    ("validation_problems", Anchor(ReportedId(p))))
  }

  /** A property annotation handler: its annotation, the modifier categories it accepts, and whether it keeps the property. */
  datatype PropertyHandler = PropertyHandler(
    annotationType: AnnotationType,
    allowedModifiers: set<AnnotationCategory>,
    propertyRelevant: bool,
    isOutput: bool)

  /** A type annotation handler, checking types that carry its annotation. */
  datatype TypeHandler = TypeHandler(annotationType: AnnotationType)

  /** `DefaultPropertyMetadata`: a classified property. */
  datatype PropertyMetadata = PropertyMetadata(propertyType: AnnotationType, annotationMetadata: PropertyAnnotationMetadata)

  /** What the type annotation metadata store reports for a type. */
  datatype TypeAnnotationMetadata = TypeAnnotationMetadata(
    annotations: set<AnnotationType>,
    validationFailures: seq<Problem>,
    properties: seq<PropertyAnnotationMetadata>)

  /** `DefaultTypeMetadata`: the kept properties, the problems found, and the handler table. */
  datatype TypeMetadata = TypeMetadata(
    propertiesMetadata: seq<PropertyMetadata>,
    validationProblems: seq<Problem>,
    annotationHandlers: map<AnnotationType, PropertyHandler>)
  {
    /** `hasAnnotatedProperties`. */
    function HasAnnotatedProperties(): (r: bool)
      ensures r <==> exists p :: p in propertiesMetadata
    {
      assert |propertiesMetadata| > 0 ==> propertiesMetadata[0] in propertiesMetadata;
      |propertiesMetadata| > 0
    }

    /** `getAnnotationHandlerFor`: the handler registered for the property's type, if any. */
    function GetAnnotationHandlerFor(property: PropertyMetadata): (r: Option<PropertyHandler>)
      ensures r.Some? <==> property.propertyType in annotationHandlers
      ensures r.Some? ==> r.value == annotationHandlers[property.propertyType]
    {
      if property.propertyType in annotationHandlers then Some(annotationHandlers[property.propertyType]) else None
    }
  }

  /** `determinePropertyType`: the role annotation if there is one, else `@InputFiles` for a classpath normalization. */
  function DeterminePropertyType(typeAnnotation: Option<AnnotationType>, normalizationAnnotation: Option<AnnotationType>): (r: Option<AnnotationType>)
    ensures typeAnnotation.Some? ==> r == typeAnnotation
    ensures typeAnnotation.None? ==>
      (r.Some? <==> normalizationAnnotation == Some(Classpath) || normalizationAnnotation == Some(CompileClasspath))
    ensures typeAnnotation.None? && r.Some? ==> r.value == InputFiles
  {
    if typeAnnotation.Some? then typeAnnotation
    else if normalizationAnnotation.Some?
      && (normalizationAnnotation.value == Classpath || normalizationAnnotation.value == CompileClasspath)
    then Some(InputFiles)
    else None
  }

  /** The effective property type of a property, from its annotations. */
  function PropertyTypeOf(annotations: PropertyAnnotationMetadata): Option<AnnotationType>
  {
    DeterminePropertyType(AnnotationFor(annotations.annotations, TypeCategory), AnnotationFor(annotations.annotations, Normalization))
  }

  /** `forDisplay`: "", the one element, or "a, b or c": from the first name to " or " and the last. */
  function ForDisplay(xs: seq<string>): (r: string)
    ensures xs == [] ==> r == ""
    ensures |xs| == 1 ==> r == xs[0]
    ensures xs != [] ==> xs[0] <= r
    ensures |xs| >= 2 ==> var tail := " or " + xs[|xs| - 1]; |tail| <= |r| && r[|r| - |tail|..] == tail
  {
    if |xs| == 0 then ""
    else if |xs| == 1 then xs[0]
    else Join(xs[..|xs| - 1], ", ") + " or " + xs[|xs| - 1]
  }

  /** Two names are joined by "or". */
  lemma ForDisplayPair(a: string, b: string)
    ensures ForDisplay([a, b]) == a + " or " + b
  {
    assert [a, b][..1] == [a];
  }

  /** Before the last two names, each name is followed by ", ". */
  lemma ForDisplayPrepend(x: string, xs: seq<string>)
    requires |xs| >= 2
    ensures ForDisplay([x] + xs) == x + ", " + ForDisplay(xs)
  {
    var ys := [x] + xs;
    assert ys[..|ys| - 1] == [x] + xs[..|xs| - 1];
    assert ([x] + xs[..|xs| - 1])[1..] == xs[..|xs| - 1];
    assert Join(ys[..|ys| - 1], ", ") == x + ", " + Join(xs[..|xs| - 1], ", ");
    assert ys[|ys| - 1] == xs[|xs| - 1];
  }

  /** How `toListOfAnnotations` names an annotation class: "@" and its simple name. */
  function AnnotationName(t: AnnotationType): string
  {
    "@" + t.simpleName
  }

  /** The names `toListOfAnnotations` lists, one per annotation class, in order. */
  function AnnotationNames(classes: seq<AnnotationType>): (r: seq<string>)
    ensures |r| == |classes|
    ensures forall i :: 0 <= i < |classes| ==> r[i] == AnnotationName(classes[i])
  {
    if classes == [] then [] else [AnnotationName(classes[0])] + AnnotationNames(classes[1..])
  }

  /** `toListOfAnnotations`: the annotation names, sorted, for display. */
  function ToListOfAnnotations(classes: seq<AnnotationType>): (r: string)
    ensures classes == [] ==> r == ""
    ensures |classes| == 1 ==> r == "@" + classes[0].simpleName
  {
    ForDisplay(Sort(Lexicographic, AnnotationNames(classes)))
  }

  /** The names of a concatenation are the concatenated names. */
  lemma {:induction false} AnnotationNamesAppend(xs: seq<AnnotationType>, ys: seq<AnnotationType>)
    ensures AnnotationNames(xs + ys) == AnnotationNames(xs) + AnnotationNames(ys)
  {
    if xs == [] {
      assert xs + ys == ys;
    } else {
      assert (xs + ys)[1..] == xs[1..] + ys;
      AnnotationNamesAppend(xs[1..], ys);
    }
  }

  /** A sequence is what comes before index `j`, the element there, and what comes after. */
  lemma SplitAt<A>(ys: seq<A>, j: nat)
    requires j < |ys|
    ensures ys == ys[..j] + ([ys[j]] + ys[j + 1..])
  {
  }

  /** Taking the element at `j` out of a sequence takes it out of its multiset. */
  lemma MultisetRemove<A>(ys: seq<A>, j: nat)
    requires j < |ys|
    ensures multiset(ys[..j] + ys[j + 1..]) == multiset(ys) - multiset{ys[j]}
  {
    assert ys == ys[..j] + [ys[j]] + ys[j + 1..];
  }

  /** When `ys[j]` is the head of its rearrangement `xs`, the rest of `ys` rearranges the tail of `xs`. */
  lemma TailPermutation<A>(xs: seq<A>, ys: seq<A>, j: nat)
    requires multiset(xs) == multiset(ys) && xs != [] && j < |ys| && ys[j] == xs[0]
    ensures multiset(xs[1..]) == multiset(ys[..j] + ys[j + 1..])
  {
    MultisetRemove(ys, j);
    assert xs == [xs[0]] + xs[1..];
  }

  /** Taking one class out of a sequence takes its name out of the names. */
  lemma AnnotationNamesRemove(ys: seq<AnnotationType>, j: nat)
    requires j < |ys|
    ensures multiset(AnnotationNames(ys)) == multiset(AnnotationNames(ys[..j] + ys[j + 1..])) + multiset{AnnotationName(ys[j])}
  {
    var before, after := ys[..j], ys[j + 1..];
    assert AnnotationNames(ys) == AnnotationNames(before) + ([AnnotationName(ys[j])] + AnnotationNames(after)) by {
      SplitAt(ys, j);
      AnnotationNamesAppend(before, [ys[j]] + after);
    }
    assert AnnotationNames(before + after) == AnnotationNames(before) + AnnotationNames(after) by {
      AnnotationNamesAppend(before, after);
    }
  }

  /** The step of the permutation proof: matching the head of `xs` with `ys[j]`. */
  lemma AnnotationNamesStep(xs: seq<AnnotationType>, ys: seq<AnnotationType>, j: nat)
    requires xs != [] && j < |ys| && ys[j] == xs[0]
    requires multiset(AnnotationNames(xs[1..])) == multiset(AnnotationNames(ys[..j] + ys[j + 1..]))
    ensures multiset(AnnotationNames(xs)) == multiset(AnnotationNames(ys))
  {
    AnnotationNamesRemove(ys, j);
    assert AnnotationNames(xs) == [AnnotationName(xs[0])] + AnnotationNames(xs[1..]);
  }

  /** The names of a rearrangement are a rearrangement of the names. */
  lemma {:induction false} AnnotationNamesPermutation(xs: seq<AnnotationType>, ys: seq<AnnotationType>)
    requires multiset(xs) == multiset(ys)
    ensures multiset(AnnotationNames(xs)) == multiset(AnnotationNames(ys))
    decreases |xs|
  {
    if xs == [] {
      assert |ys| == |multiset(ys)| == 0;
    } else {
      assert xs[0] in multiset(ys) by {
        assert xs[0] in multiset(xs);
      }
      var j :| 0 <= j < |ys| && ys[j] == xs[0];
      TailPermutation(xs, ys, j);
      AnnotationNamesPermutation(xs[1..], ys[..j] + ys[j + 1..]);
      AnnotationNamesStep(xs, ys, j);
    }
  }

  /** The listing does not depend on the order the annotation classes come in. */
  lemma ToListOfAnnotationsForgetsOrder(xs: seq<AnnotationType>, ys: seq<AnnotationType>)
    requires multiset(xs) == multiset(ys)
    ensures ToListOfAnnotations(xs) == ToListOfAnnotations(ys)
  {
    AnnotationNamesPermutation(xs, ys);
    SortForgetsOrder(AnnotationNames(xs), AnnotationNames(ys));
  }

  /** No element occurs twice. */
  predicate Distinct<T(==)>(xs: seq<T>)
  {
    forall i, j :: 0 <= i < j < |xs| ==> xs[i] != xs[j]
  }

  /** An element appended keeps a sequence distinct exactly when it is new. */
  lemma DistinctSnoc<T>(xs: seq<T>, x: T)
    ensures Distinct(xs + [x]) <==> Distinct(xs) && x !in xs
  {
    var ys := xs + [x];
    if Distinct(ys) {
      forall i, j | 0 <= i < j < |xs| ensures xs[i] != xs[j] {
        assert xs[i] == ys[i] && xs[j] == ys[j];
      }
      forall i | 0 <= i < |xs| ensures xs[i] != x {
        assert ys[i] == xs[i] && ys[|xs|] == x;
      }
    }
  }

  /**
   * `ImmutableSet.copyOf`: the elements in order of first occurrence, each
   * once (the order is `DedupPrefix`).
   */
  function Dedup<T(==)>(xs: seq<T>): (r: seq<T>)
    ensures forall i :: 0 <= i < |xs| ==> xs[i] in r
    ensures forall i :: 0 <= i < |r| ==> r[i] in xs
    ensures Distinct(r)
  {
    if xs == [] then []
    else
      var n := |xs| - 1;
      var init := Dedup(xs[..n]);
      assert forall i :: 0 <= i < n ==> xs[i] == xs[..n][i];
      if xs[n] in init then init else init + [xs[n]]
  }

  /**
   * The copy of a prefix of `xs` is a prefix of the copy of `xs`: elements
   * keep the order of their first occurrences.
   */
  lemma {:induction false} DedupPrefix<T>(xs: seq<T>, m: nat)
    requires m <= |xs|
    ensures Dedup(xs[..m]) <= Dedup(xs)
  {
    if m < |xs| {
      var n := |xs| - 1;
      assert xs[..n][..m] == xs[..m];
      DedupPrefix(xs[..n], m);
    } else {
      assert xs[..m] == xs;
    }
  }

  /** A sequence without duplicates is its own set copy. */
  lemma {:induction false} DedupOfDistinct<T>(xs: seq<T>)
    requires Distinct(xs)
    ensures Dedup(xs) == xs
  {
    if xs != [] {
      DedupOfDistinct(xs[..|xs| - 1]);
      assert xs[|xs| - 1] !in xs[..|xs| - 1];
      assert xs == xs[..|xs| - 1] + [xs[|xs| - 1]];
    }
  }

  /** The handlers' annotation types, in order: the key set of the handler table. */
  function HandledTypes(handlers: seq<PropertyHandler>): (r: seq<AnnotationType>)
    ensures |r| == |handlers|
    ensures forall i :: 0 <= i < |handlers| ==> r[i] == handlers[i].annotationType
  {
    seq(|handlers|, i requires 0 <= i < |handlers| => handlers[i].annotationType)
  }

  /**
   * `Maps.uniqueIndex(handlers, getAnnotationType)`: the handlers by annotation
   * type, or the first annotation type registered twice (Guava throws then).
   */
  function UniqueIndex(handlers: seq<PropertyHandler>): (r: Result<map<AnnotationType, PropertyHandler>, AnnotationType>)
    ensures r.Success? ==> forall t :: t in r.value ==> r.value[t].annotationType == t
    ensures r.Failure? ==> exists i :: 0 <= i < |handlers| && handlers[i].annotationType == r.error
  {
    if handlers == [] then Success(map[])
    else
      var last := handlers[|handlers| - 1];
      match UniqueIndex(handlers[..|handlers| - 1])
      case Failure(t) => Failure(t)
      case Success(index) =>
        if last.annotationType in index then Failure(last.annotationType)
        else Success(index[last.annotationType := last])
  }

  /** On success, the table holds every handler under its annotation type and nothing else. */
  lemma {:induction false} UniqueIndexContents(handlers: seq<PropertyHandler>)
    requires UniqueIndex(handlers).Success?
    ensures forall t :: t in UniqueIndex(handlers).value <==> t in HandledTypes(handlers)
    ensures forall i :: 0 <= i < |handlers| ==> UniqueIndex(handlers).value[handlers[i].annotationType] == handlers[i]
  {
    if handlers != [] {
      var init := handlers[..|handlers| - 1];
      UniqueIndexContents(init);
      assert forall i :: 0 <= i < |init| ==> handlers[i] == init[i];
    }
  }

  /** The index is built exactly when no annotation type is handled twice. */
  lemma {:induction false} UniqueIndexSucceedsIffDistinct(handlers: seq<PropertyHandler>)
    ensures UniqueIndex(handlers).Success? <==> Distinct(HandledTypes(handlers))
  {
    if handlers != [] {
      var n := |handlers| - 1;
      var init := handlers[..n];
      UniqueIndexSucceedsIffDistinct(init);
      assert HandledTypes(handlers) == HandledTypes(init) + [handlers[n].annotationType];
      DistinctSnoc(HandledTypes(init), handlers[n].annotationType);
      if UniqueIndex(init).Success? {
        UniqueIndexContents(init);
      }
    }
  }

  /** A failure names an annotation type that two handlers share. */
  lemma {:induction false} UniqueIndexFailureWitness(handlers: seq<PropertyHandler>)
    requires UniqueIndex(handlers).Failure?
    ensures exists i, j ::
      0 <= i < j < |handlers| && handlers[i].annotationType == handlers[j].annotationType == UniqueIndex(handlers).error
  {
    var n := |handlers| - 1;
    var init := handlers[..n];
    var t := UniqueIndex(handlers).error;
    if UniqueIndex(init).Failure? {
      UniqueIndexFailureWitness(init);
      var i, j :| 0 <= i < j < |init| && init[i].annotationType == init[j].annotationType == t;
      assert handlers[i] == init[i] && handlers[j] == init[j];
    } else {
      UniqueIndexContents(init);
      var i :| 0 <= i < n && HandledTypes(init)[i] == handlers[n].annotationType;
      assert handlers[i].annotationType == handlers[n].annotationType == t;
    }
  }

  /** `calculateDisplayName`: whether any handler is an output handler decides the wording. */
  method CalculateDisplayName(handlers: seq<PropertyHandler>) returns (name: string)
    ensures name == "an input or output annotation" || name == "an input annotation"
    ensures name == "an input or output annotation" <==> exists i :: 0 <= i < |handlers| && handlers[i].isOutput
  {
    for i := 0 to |handlers|
      invariant forall j :: 0 <= j < i ==> !handlers[j].isOutput
    {
      if handlers[i].isOutput {
        return "an input or output annotation";
      }
    }
    return "an input annotation";
  }

  /** The problems and the kept properties of classifying some properties. */
  datatype Classification = Classification(problems: seq<Problem>, effective: seq<PropertyMetadata>)

  /**
   * The state of a store once built: the handlers and modifiers it was given
   * (as the immutable copies it makes of them), its display name, and the
   * collaborators it consults.
   */
  datatype Configuration = Configuration(
    typeAnnotationHandlers: seq<TypeHandler>,
    propertyAnnotationHandlers: map<AnnotationType, PropertyHandler>,
    handledTypes: seq<AnnotationType>,
    allowedPropertyModifiers: seq<AnnotationType>,
    handledTypesListing: string,
    allowedModifiersListing: string,
    displayName: string,
    typeAnnotationMetadataStore: ClassName -> TypeAnnotationMetadata,
    unpack: ClassName -> ClassName,
    validateTypeMetadata: (TypeHandler, ClassName) -> seq<Problem>,
    validatePropertyMetadata: (PropertyHandler, PropertyMetadata) -> seq<Problem>)
  {
    /** The problem, if any, that one annotation of a handled property raises. */
    function ModifierProblem(property: PropertyAnnotationMetadata, propertyType: AnnotationType, handler: PropertyHandler,
                             entry: (AnnotationCategory, AnnotationType)): seq<Problem>
    {
      if entry.0 == TypeCategory then []
      else if entry.0 !in handler.allowedModifiers then
        [IncompatibleAnnotationsProblem(property.propertyName, entry.1, propertyType, allowedModifiersListing)]
      else if entry.1 !in allowedPropertyModifiers then
        [InvalidModifierProblem(property.propertyName, entry.1, allowedModifiersListing)]
      else []
    }

    /** The problems the annotations `entries` of a handled property raise, in order. */
    function ModifierProblems(property: PropertyAnnotationMetadata, propertyType: AnnotationType, handler: PropertyHandler,
                              entries: seq<(AnnotationCategory, AnnotationType)>): seq<Problem>
    {
      if entries == [] then []
      else
        ModifierProblems(property, propertyType, handler, entries[..|entries| - 1])
        + ModifierProblem(property, propertyType, handler, entries[|entries| - 1])
    }

    /**
     * What one property contributes: its problems, and itself when it is
     * kept. A property without problems has a registered effective type.
     */
    function ClassifyProperty(property: PropertyAnnotationMetadata): (r: Classification)
      ensures |r.effective| <= 1
      ensures forall p :: p in r.effective <==> p.annotationMetadata == property && Kept(this, p)
      ensures r.problems == [] ==> PropertyTypeOf(property).Some? && PropertyTypeOf(property).value in propertyAnnotationHandlers
    {
      match PropertyTypeOf(property)
      case None => Classification([MissingAnnotationProblem(property.propertyName, displayName)], [])
      case Some(propertyType) =>
        if propertyType !in propertyAnnotationHandlers then
          Classification([InvalidPropertyTypeProblem(property.propertyName, propertyType, handledTypesListing)], [])
        else
          var handler := propertyAnnotationHandlers[propertyType];
          var metadata := PropertyMetadata(propertyType, property);
          Classification(
            ModifierProblems(property, propertyType, handler, property.annotations)
              + validatePropertyMetadata(handler, metadata),
            if handler.propertyRelevant then [metadata] else [])
    }

    /** The properties classified one after the other: at most one kept property per property, each of them `Kept`. */
    function Classify(properties: seq<PropertyAnnotationMetadata>): (r: Classification)
      ensures |r.effective| <= |properties|
      ensures forall i :: 0 <= i < |r.effective| ==> Kept(this, r.effective[i])
    {
      if properties == [] then Classification([], [])
      else
        var before := Classify(properties[..|properties| - 1]);
        var last := ClassifyProperty(properties[|properties| - 1]);
        Classification(before.problems + last.problems, before.effective + last.effective)
    }

    /** The problems of the type handlers whose annotation the type carries, in handler order; none when it carries none. */
    function TypeProblems(publicType: ClassName, metadata: TypeAnnotationMetadata, handlers: seq<TypeHandler>): (r: seq<Problem>)
      ensures (forall i :: 0 <= i < |handlers| ==> handlers[i].annotationType !in metadata.annotations) ==> r == []
    {
      if handlers == [] then []
      else
        var last := handlers[|handlers| - 1];
        TypeProblems(publicType, metadata, handlers[..|handlers| - 1])
        + (if last.annotationType in metadata.annotations then validateTypeMetadata(last, publicType) else [])
    }

    /**
     * The metadata `createTypeMetadata` builds for a type: only kept
     * properties, the metadata store's failures first in the log, and the
     * store's handler table.
     */
    function TypeMetadataOf(cls: ClassName): (r: TypeMetadata)
      ensures r.annotationHandlers == propertyAnnotationHandlers
      ensures forall i :: 0 <= i < |r.propertiesMetadata| ==> Kept(this, r.propertiesMetadata[i])
      ensures var failures := typeAnnotationMetadataStore(unpack(cls)).validationFailures;
        |failures| <= |r.validationProblems| && r.validationProblems[..|failures|] == failures
    {
      var publicType := unpack(cls);
      var metadata := typeAnnotationMetadataStore(publicType);
      var classification := Classify(metadata.properties);
      TypeMetadata(
        classification.effective,
        metadata.validationFailures + TypeProblems(publicType, metadata, typeAnnotationHandlers) + classification.problems,
        propertyAnnotationHandlers)
    }
  }

  /** A property is kept exactly when it has an effective type whose handler is registered and relevant. */
  predicate Kept(c: Configuration, property: PropertyMetadata)
  {
    PropertyTypeOf(property.annotationMetadata) == Some(property.propertyType)
    && property.propertyType in c.propertyAnnotationHandlers
    && c.propertyAnnotationHandlers[property.propertyType].propertyRelevant
  }

  /** A property without an effective type raises one MISSING_ANNOTATION problem and nothing else, and is dropped. */
  lemma MissingTypeSingleProblem(c: Configuration, property: PropertyAnnotationMetadata)
    requires PropertyTypeOf(property).None?
    ensures c.ClassifyProperty(property).effective == []
    ensures |c.ClassifyProperty(property).problems| == 1
    ensures c.ClassifyProperty(property).problems[0] == MissingAnnotationProblem(property.propertyName, c.displayName)
    ensures Report(c.ClassifyProperty(property).problems[0]).id == MissingAnnotation
    ensures Report(c.ClassifyProperty(property).problems[0]).description == "is missing " + c.displayName
    ensures Report(c.ClassifyProperty(property).problems[0]).property == Some(property.propertyName)
  {
  }

  /** A property whose type has no handler raises one ANNOTATION_INVALID_IN_CONTEXT problem, its modifiers unchecked, and is dropped. */
  lemma UnhandledTypeSingleProblem(c: Configuration, property: PropertyAnnotationMetadata)
    requires PropertyTypeOf(property).Some? && PropertyTypeOf(property).value !in c.propertyAnnotationHandlers
    ensures c.ClassifyProperty(property).effective == []
    ensures |c.ClassifyProperty(property).problems| == 1
    ensures c.ClassifyProperty(property).problems[0]
         == InvalidPropertyTypeProblem(property.propertyName, PropertyTypeOf(property).value, c.handledTypesListing)
    ensures Report(c.ClassifyProperty(property).problems[0]).id == AnnotationInvalidInContext
    ensures Report(c.ClassifyProperty(property).problems[0]).property == Some(property.propertyName)
  {
  }

  /** Annotations of a category other than the role one. */
  function ModifierCount(entries: seq<(AnnotationCategory, AnnotationType)>): nat
  {
    if entries == [] then 0
    else ModifierCount(entries[..|entries| - 1]) + (if entries[|entries| - 1].0 == TypeCategory then 0 else 1)
  }

  /**
   * Each modifier annotation raises at most one problem and the role
   * annotation none; each problem is about the property, and is either
   * INCOMPATIBLE_ANNOTATIONS or ANNOTATION_INVALID_IN_CONTEXT.
   */
  lemma {:induction false} AtMostOneProblemPerModifier(c: Configuration, property: PropertyAnnotationMetadata, propertyType: AnnotationType,
                                                      handler: PropertyHandler, entries: seq<(AnnotationCategory, AnnotationType)>)
    ensures |c.ModifierProblems(property, propertyType, handler, entries)| <= ModifierCount(entries)
    ensures forall p :: p in c.ModifierProblems(property, propertyType, handler, entries) ==>
      !p.ReportedProblem? && p.property == property.propertyName
      && (ReportedId(p) == IncompatibleAnnotations || ReportedId(p) == AnnotationInvalidInContext)
  {
    if entries != [] {
      AtMostOneProblemPerModifier(c, property, propertyType, handler, entries[..|entries| - 1]);
    }
  }

  /**
   * The problem one annotation raises: INCOMPATIBLE_ANNOTATIONS when the
   * handler does not accept its category, else ANNOTATION_INVALID_IN_CONTEXT
   * when it is not a property modifier, else none; the role annotation never
   * raises one.
   */
  lemma ModifierProblemRules(c: Configuration, property: PropertyAnnotationMetadata, propertyType: AnnotationType,
                             handler: PropertyHandler, entry: (AnnotationCategory, AnnotationType))
    ensures entry.0 == TypeCategory ==> c.ModifierProblem(property, propertyType, handler, entry) == []
    ensures entry.0 != TypeCategory && entry.0 !in handler.allowedModifiers ==>
      |c.ModifierProblem(property, propertyType, handler, entry)| == 1
      && c.ModifierProblem(property, propertyType, handler, entry)[0]
         == IncompatibleAnnotationsProblem(property.propertyName, entry.1, propertyType, c.allowedModifiersListing)
    ensures entry.0 != TypeCategory && entry.0 in handler.allowedModifiers && entry.1 !in c.allowedPropertyModifiers ==>
      |c.ModifierProblem(property, propertyType, handler, entry)| == 1
      && c.ModifierProblem(property, propertyType, handler, entry)[0]
         == InvalidModifierProblem(property.propertyName, entry.1, c.allowedModifiersListing)
    ensures c.ModifierProblem(property, propertyType, handler, entry) == [] <==>
      entry.0 == TypeCategory || (entry.0 in handler.allowedModifiers && entry.1 in c.allowedPropertyModifiers)
  {
  }

  /** The kept properties are exactly the given properties that are `Kept`, in both directions. */
  lemma {:induction false} EffectivePropertiesAreTheKeptOnes(c: Configuration, properties: seq<PropertyAnnotationMetadata>, p: PropertyMetadata)
    ensures p in c.Classify(properties).effective <==> p.annotationMetadata in properties && Kept(c, p)
  {
    if properties != [] {
      var init := properties[..|properties| - 1];
      var last := properties[|properties| - 1];
      EffectivePropertiesAreTheKeptOnes(c, init, p);
      assert properties == init + [last];
      assert p in c.ClassifyProperty(last).effective <==> p.annotationMetadata == last && Kept(c, p);
    }
  }

  /**
   * Modifier problems and the handlers' own validations never drop a property:
   * the kept properties do not depend on the modifier whitelist or on what the
   * handlers report.
   */
  lemma {:induction false} EffectiveIgnoresProblems(c: Configuration, properties: seq<PropertyAnnotationMetadata>,
                                                   allowed: seq<AnnotationType>, validate: (PropertyHandler, PropertyMetadata) -> seq<Problem>)
    ensures c.(allowedPropertyModifiers := allowed, validatePropertyMetadata := validate).Classify(properties).effective
         == c.Classify(properties).effective
  {
    if properties != [] {
      EffectiveIgnoresProblems(c, properties[..|properties| - 1], allowed, validate);
    }
  }

  /** Every kept property has a relevant handler, and the metadata hands it out. */
  lemma KeptPropertiesHaveRelevantHandlers(c: Configuration, cls: ClassName, p: PropertyMetadata)
    requires p in c.TypeMetadataOf(cls).propertiesMetadata
    ensures c.TypeMetadataOf(cls).GetAnnotationHandlerFor(p).Some?
    ensures c.TypeMetadataOf(cls).GetAnnotationHandlerFor(p).value.propertyRelevant
  {
    EffectivePropertiesAreTheKeptOnes(c, c.typeAnnotationMetadataStore(c.unpack(cls)).properties, p);
  }

  /** A type with no property is reported as having no annotated property, and vice versa for a kept one. */
  lemma HasAnnotatedPropertiesIffKept(c: Configuration, cls: ClassName)
    ensures c.TypeMetadataOf(cls).HasAnnotatedProperties() <==>
      exists p: PropertyMetadata :: p.annotationMetadata in c.typeAnnotationMetadataStore(c.unpack(cls)).properties && Kept(c, p)
  {
    var properties := c.typeAnnotationMetadataStore(c.unpack(cls)).properties;
    forall p: PropertyMetadata ensures p in c.TypeMetadataOf(cls).propertiesMetadata <==> p.annotationMetadata in properties && Kept(c, p) {
      EffectivePropertiesAreTheKeptOnes(c, properties, p);
    }
  }

  /** A generated subclass and its public type have the same metadata. */
  lemma SameUnpackedTypeSameMetadata(c: Configuration, cls1: ClassName, cls2: ClassName)
    requires c.unpack(cls1) == c.unpack(cls2)
    ensures c.TypeMetadataOf(cls1) == c.TypeMetadataOf(cls2)
  {
  }

  /** The store: its configuration and the per-type cache. */
  class DefaultTypeMetadataStore {
    const configuration: Configuration
    var cache: map<ClassName, TypeMetadata>

    /** Every cached entry is what `createTypeMetadata` builds for its type. */
    predicate Valid()
      reads this
    {
      forall cls :: cls in cache ==> cache[cls] == configuration.TypeMetadataOf(cls)
    }

    /** Builds the store; Guava's `uniqueIndex` throws on two handlers for one annotation, so that is excluded. */
    constructor (typeAnnotationHandlers: seq<TypeHandler>, propertyAnnotationHandlers: seq<PropertyHandler>,
                 allowedPropertyModifiers: seq<AnnotationType>,
                 typeAnnotationMetadataStore: ClassName -> TypeAnnotationMetadata,
                 unpack: ClassName -> ClassName,
                 validateTypeMetadata: (TypeHandler, ClassName) -> seq<Problem>,
                 validatePropertyMetadata: (PropertyHandler, PropertyMetadata) -> seq<Problem>)
      requires UniqueIndex(propertyAnnotationHandlers).Success?
      ensures Valid() && cache == map[]
      ensures configuration.typeAnnotationHandlers == Dedup(typeAnnotationHandlers)
      ensures configuration.propertyAnnotationHandlers == UniqueIndex(propertyAnnotationHandlers).value
      ensures configuration.handledTypes == HandledTypes(propertyAnnotationHandlers)
      ensures configuration.allowedPropertyModifiers == Dedup(allowedPropertyModifiers)
      ensures configuration.handledTypesListing == ToListOfAnnotations(HandledTypes(propertyAnnotationHandlers))
      ensures configuration.allowedModifiersListing == ToListOfAnnotations(Dedup(allowedPropertyModifiers))
      ensures configuration.displayName == "an input or output annotation" <==>
        exists i :: 0 <= i < |propertyAnnotationHandlers| && propertyAnnotationHandlers[i].isOutput
      ensures configuration.displayName == "an input or output annotation" || configuration.displayName == "an input annotation"
      ensures configuration.typeAnnotationMetadataStore == typeAnnotationMetadataStore && configuration.unpack == unpack
      ensures configuration.validateTypeMetadata == validateTypeMetadata
      ensures configuration.validatePropertyMetadata == validatePropertyMetadata
    {
      var displayName := CalculateDisplayName(propertyAnnotationHandlers);
      configuration := Configuration(
        Dedup(typeAnnotationHandlers),
        UniqueIndex(propertyAnnotationHandlers).value,
        HandledTypes(propertyAnnotationHandlers),
        Dedup(allowedPropertyModifiers),
        ToListOfAnnotations(HandledTypes(propertyAnnotationHandlers)),
        ToListOfAnnotations(Dedup(allowedPropertyModifiers)),
        displayName,
        typeAnnotationMetadataStore, unpack, validateTypeMetadata, validatePropertyMetadata);
      cache := map[];
    }

    /** The loop over the annotations of a handled property. */
    method CheckModifiers(property: PropertyAnnotationMetadata, propertyType: AnnotationType, handler: PropertyHandler)
      returns (problems: seq<Problem>)
      ensures problems == configuration.ModifierProblems(property, propertyType, handler, property.annotations)
    {
      var entries := property.annotations;
      problems := [];
      for i := 0 to |entries|
        invariant problems == configuration.ModifierProblems(property, propertyType, handler, entries[..i])
      {
        assert entries[..i + 1][..i] == entries[..i];
        var (category, annotationType) := entries[i];
        if category == TypeCategory {
          continue;
        }
        if category !in handler.allowedModifiers {
          problems := problems
            + [IncompatibleAnnotationsProblem(property.propertyName, annotationType, propertyType, configuration.allowedModifiersListing)];
        } else if annotationType !in configuration.allowedPropertyModifiers {
          problems := problems
            + [InvalidModifierProblem(property.propertyName, annotationType, configuration.allowedModifiersListing)];
        }
      }
      assert entries[..|entries|] == entries;
    }

    /** One pass of the property loop of `createTypeMetadata`. */
    method ClassifyProperty(property: PropertyAnnotationMetadata) returns (problems: seq<Problem>, effective: seq<PropertyMetadata>)
      ensures Classification(problems, effective) == configuration.ClassifyProperty(property)
    {
      var typeAnnotation := AnnotationFor(property.annotations, TypeCategory);
      var normalizationAnnotation := AnnotationFor(property.annotations, Normalization);
      var propertyType := DeterminePropertyType(typeAnnotation, normalizationAnnotation);
      if propertyType.None? {
        return [MissingAnnotationProblem(property.propertyName, configuration.displayName)], [];
      }
      var handlers := configuration.propertyAnnotationHandlers;
      if propertyType.value !in handlers {
        return [InvalidPropertyTypeProblem(property.propertyName, propertyType.value, configuration.handledTypesListing)], [];
      }
      var handler := handlers[propertyType.value];
      problems := CheckModifiers(property, propertyType.value, handler);
      var metadata := PropertyMetadata(propertyType.value, property);
      problems := problems + configuration.validatePropertyMetadata(handler, metadata);
      effective := if handler.propertyRelevant then [metadata] else [];
    }

    /** The type-handler loop of `createTypeMetadata`. */
    method CheckTypeAnnotations(publicType: ClassName, metadata: TypeAnnotationMetadata) returns (problems: seq<Problem>)
      ensures problems == configuration.TypeProblems(publicType, metadata, configuration.typeAnnotationHandlers)
    {
      var handlers := configuration.typeAnnotationHandlers;
      problems := [];
      for i := 0 to |handlers|
        invariant problems == configuration.TypeProblems(publicType, metadata, handlers[..i])
      {
        assert handlers[..i + 1][..i] == handlers[..i];
        if handlers[i].annotationType in metadata.annotations {
          problems := problems + configuration.validateTypeMetadata(handlers[i], publicType);
        }
      }
      assert handlers[..|handlers|] == handlers;
    }

    /** The property loop of `createTypeMetadata`. */
    method ClassifyProperties(properties: seq<PropertyAnnotationMetadata>) returns (problems: seq<Problem>, effective: seq<PropertyMetadata>)
      ensures Classification(problems, effective) == configuration.Classify(properties)
    {
      problems := [];
      effective := [];
      for i := 0 to |properties|
        invariant Classification(problems, effective) == configuration.Classify(properties[..i])
      {
        assert properties[..i + 1][..i] == properties[..i];
        var propertyProblems, kept := ClassifyProperty(properties[i]);
        problems := problems + propertyProblems;
        effective := effective + kept;
      }
      assert properties[..|properties|] == properties;
    }

    /** `createTypeMetadata`. */
    method CreateTypeMetadata(cls: ClassName) returns (r: TypeMetadata)
      ensures r == configuration.TypeMetadataOf(cls)
    {
      var publicType := configuration.unpack(cls);
      var annotationMetadata := configuration.typeAnnotationMetadataStore(publicType);
      var typeProblems := CheckTypeAnnotations(publicType, annotationMetadata);
      var propertyProblems, effective := ClassifyProperties(annotationMetadata.properties);
      r := TypeMetadata(effective, annotationMetadata.validationFailures + typeProblems + propertyProblems,
                        configuration.propertyAnnotationHandlers);
    }

    /** `getTypeMetadata`: the cached metadata of the type, built and cached on first request. */
    method GetTypeMetadata(cls: ClassName) returns (r: TypeMetadata)
      requires Valid()
      modifies this
      ensures Valid()
      ensures r == configuration.TypeMetadataOf(cls)
      ensures cache == old(cache)[cls := r]
      ensures cls in old(cache) ==> cache == old(cache)
    {
      if cls in cache {
        r := cache[cls];
      } else {
        r := CreateTypeMetadata(cls);
        cache := cache[cls := r];
      }
    }
  }

  /**
   * The constructor as a caller meets it: Guava's `uniqueIndex` throws when two
   * property handlers share an annotation type, naming the first repeated one;
   * otherwise the store is built, with an empty cache.
   */
  method NewDefaultTypeMetadataStore(typeAnnotationHandlers: seq<TypeHandler>, propertyAnnotationHandlers: seq<PropertyHandler>,
                                     allowedPropertyModifiers: seq<AnnotationType>,
                                     typeAnnotationMetadataStore: ClassName -> TypeAnnotationMetadata,
                                     unpack: ClassName -> ClassName,
                                     validateTypeMetadata: (TypeHandler, ClassName) -> seq<Problem>,
                                     validatePropertyMetadata: (PropertyHandler, PropertyMetadata) -> seq<Problem>)
    returns (r: Result<DefaultTypeMetadataStore, AnnotationType>)
    ensures r.Failure? <==> !Distinct(HandledTypes(propertyAnnotationHandlers))
    ensures r.Failure? ==>
      exists i, j :: 0 <= i < j < |propertyAnnotationHandlers|
        && propertyAnnotationHandlers[i].annotationType == propertyAnnotationHandlers[j].annotationType == r.error
    ensures r.Success? ==> fresh(r.value) && r.value.Valid() && r.value.cache == map[]
    ensures r.Success? ==>
      UniqueIndex(propertyAnnotationHandlers).Success?
      && r.value.configuration.propertyAnnotationHandlers == UniqueIndex(propertyAnnotationHandlers).value
    ensures r.Success? ==> r.value.configuration.allowedPropertyModifiers == Dedup(allowedPropertyModifiers)
    ensures r.Success? ==> r.value.configuration.typeAnnotationHandlers == Dedup(typeAnnotationHandlers)
  {
    UniqueIndexSucceedsIffDistinct(propertyAnnotationHandlers);
    var index := UniqueIndex(propertyAnnotationHandlers);
    if index.Failure? {
      UniqueIndexFailureWitness(propertyAnnotationHandlers);
      return Failure(index.error);
    }
    var store := new DefaultTypeMetadataStore(typeAnnotationHandlers, propertyAnnotationHandlers, allowedPropertyModifiers,
                                              typeAnnotationMetadataStore, unpack, validateTypeMetadata, validatePropertyMetadata);
    r := Success(store);
  }
}
