# A Dafny model of property classification, catalog parsing and friends

This project models, and proves properties of, six pieces of an Android app
repository that ships a Gradle 7.5 distribution alongside its own TypeScript
sources.

- **Property classification** (`DefaultTypeMetadataStore`, module
  `TypeMetadataStore`). Gradle classifies the annotated properties of a task
  type. Each property gets an effective property type: its role annotation, or
  `@InputFiles` for a bare `@Classpath`/`@CompileClasspath` normalization. It
  also gets the handler registered for that type, and each of its modifier
  annotations is checked against the handler's allowed categories and against
  the global whitelist of property modifiers. Every rule a property breaks is
  logged as a validation problem. Only properties with a relevant handler are
  kept. The result is memoized per requested type. The store is a class with
  a cache field, and the loops of `createTypeMetadata` are methods proved
  against specification functions.
- **Version catalog parsing** (`TomlCatalogFileParser`, module `TomlCatalog`).
  These are the checks Gradle makes on a parsed `libs.versions.toml` tree:
  - parse errors, the format version and unknown top-level elements;
  - the colon notations of libraries, plugins and modules;
  - allowed keys and non-empty values;
  - the order in which aliases are read: by length, bundles lexicographically.
  The registrations go to a catalog builder object, and the first problem
  stops the parse.
- **Zip-slip guard** (`ZipSlip`, module `ZipSlip`). It decides which archive
  entry names are unsafe to extract.
- **Test fork settings** (`Test`, module `TestForkSettings`). This is a class
  holding a `Test` task's `forkEvery`, `maxParallelForks`, debug flag, executable,
  toolchain launcher and include and exclude patterns, with the setters'
  argument checks, the debug overrides, the no-match reasons and the choice of
  the java executable.
- **Favourites** (`favourites.ts`, module `Favourites`). This is the app's
  key-to-text store. It derives a key from a text, and it adds, reads, deletes
  and clears favourites.
- **Spelling tables** (`charsMap.ts`, module `CharsMap`). These are the NATO
  letter words, number words, symbol words and their merged table.

`Wrappers` holds `Option`, `Result`, `Outcome` and the Java exceptions the
code throws. `Text` holds the string operations the code relies on: Guava's
`Splitter` with `trimResults`, `String.join`, `contains`, `compareTo` and the
stable sort of `Stream.sorted`, with their proofs. A split inverts a join. A
sort is a sorted permutation of its input. A lexicographic sort forgets the
input order, while the sort by length keeps the input order among strings of
the same length.

Two behaviours of the classification engine are worth stating:

- The cache is keyed by the type as requested. The generated subclass is
  unpacked only inside `createTypeMetadata`
  (`DefaultTypeMetadataStore.java:88-93`). So a generated subclass and its
  public type get two cache entries, not one shared entry. Their values are
  equal (`SameUnpackedTypeSameMetadata`).
- The long description of an INCOMPATIBLE_ANNOTATIONS problem lists the
  global allowed property modifiers, not those of the property's role
  (`DefaultTypeMetadataStore.java:153`).

## Model

| member | source | states |
|---|---|---|
| TypeMetadataStore.AnnotationFor | android/gradle/wrapper/dists/gradle-7.5-all/6qsw290k5lz422uaf8jf6m7co/gradle-7.5/src/core/org/gradle/api/internal/tasks/properties/DefaultTypeMetadataStore.java:106-108 | `annotations.get(category)`: none exactly when no entry has the category, else an entry recorded under it |
| TypeMetadataStore.DeterminePropertyType | android/gradle/wrapper/dists/gradle-7.5-all/6qsw290k5lz422uaf8jf6m7co/gradle-7.5/src/core/org/gradle/api/internal/tasks/properties/DefaultTypeMetadataStore.java:189-199 | the role annotation when there is one; otherwise `@InputFiles` exactly for a `@Classpath` or `@CompileClasspath` normalization, and no type in every other case |
| TypeMetadataStore.ReportedId | android/gradle/wrapper/dists/gradle-7.5-all/6qsw290k5lz422uaf8jf6m7co/gradle-7.5/src/core/org/gradle/api/internal/tasks/properties/DefaultTypeMetadataStore.java:110-166 | MISSING_ANNOTATION for a property without a role, ANNOTATION_INVALID_IN_CONTEXT for an unhandled role or a modifier outside the whitelist, INCOMPATIBLE_ANNOTATIONS for a category the handler refuses, each in both directions |
| TypeMetadataStore.Report | android/gradle/wrapper/dists/gradle-7.5-all/6qsw290k5lz422uaf8jf6m7co/gradle-7.5/src/core/org/gradle/api/internal/tasks/properties/DefaultTypeMetadataStore.java:111-166 | the problems the store raises are ERRORs about their property, documented under `validation_problems` and the anchor of their id; problems from collaborators are passed on unchanged |
| TypeMetadataStore.ForDisplay | android/gradle/wrapper/dists/gradle-7.5-all/6qsw290k5lz422uaf8jf6m7co/gradle-7.5/src/core/org/gradle/api/internal/tasks/properties/DefaultTypeMetadataStore.java:284-295 | no names give "", one name is itself, otherwise the text starts with the first name and ends with " or " and the last |
| TypeMetadataStore.ForDisplayPair | android/gradle/wrapper/dists/gradle-7.5-all/6qsw290k5lz422uaf8jf6m7co/gradle-7.5/src/core/org/gradle/api/internal/tasks/properties/DefaultTypeMetadataStore.java:284-295 | two names are rendered "a or b" |
| TypeMetadataStore.ForDisplayPrepend | android/gradle/wrapper/dists/gradle-7.5-all/6qsw290k5lz422uaf8jf6m7co/gradle-7.5/src/core/org/gradle/api/internal/tasks/properties/DefaultTypeMetadataStore.java:284-295 | with three or more names, every name before the last two is followed by ", " |
| TypeMetadataStore.AnnotationNames | android/gradle/wrapper/dists/gradle-7.5-all/6qsw290k5lz422uaf8jf6m7co/gradle-7.5/src/core/org/gradle/api/internal/tasks/properties/DefaultTypeMetadataStore.java:180-183 | one name per annotation class, in order, each the class's simple name with "@" in front |
| TypeMetadataStore.AnnotationNamesAppend | android/gradle/wrapper/dists/gradle-7.5-all/6qsw290k5lz422uaf8jf6m7co/gradle-7.5/src/core/org/gradle/api/internal/tasks/properties/DefaultTypeMetadataStore.java:180-183 | the names of a concatenation are the concatenated names |
| TypeMetadataStore.AnnotationNamesPermutation | android/gradle/wrapper/dists/gradle-7.5-all/6qsw290k5lz422uaf8jf6m7co/gradle-7.5/src/core/org/gradle/api/internal/tasks/properties/DefaultTypeMetadataStore.java:180-183 | rearranging the annotation classes rearranges their names |
| TypeMetadataStore.ToListOfAnnotations | android/gradle/wrapper/dists/gradle-7.5-all/6qsw290k5lz422uaf8jf6m7co/gradle-7.5/src/core/org/gradle/api/internal/tasks/properties/DefaultTypeMetadataStore.java:180-186 | no classes give "", one class gives "@" and its simple name |
| TypeMetadataStore.ToListOfAnnotationsForgetsOrder | android/gradle/wrapper/dists/gradle-7.5-all/6qsw290k5lz422uaf8jf6m7co/gradle-7.5/src/core/org/gradle/api/internal/tasks/properties/DefaultTypeMetadataStore.java:180-186 | the sorted listing depends only on which annotation classes there are, not on their order |
| TypeMetadataStore.Dedup | android/gradle/wrapper/dists/gradle-7.5-all/6qsw290k5lz422uaf8jf6m7co/gradle-7.5/src/core/org/gradle/api/internal/tasks/properties/DefaultTypeMetadataStore.java:70-72 | `ImmutableSet.copyOf`: every element kept, none added, none twice |
| TypeMetadataStore.DedupPrefix | android/gradle/wrapper/dists/gradle-7.5-all/6qsw290k5lz422uaf8jf6m7co/gradle-7.5/src/core/org/gradle/api/internal/tasks/properties/DefaultTypeMetadataStore.java:70-72 | the copy of a prefix is a prefix of the copy, so the elements keep the order of their first occurrences |
| TypeMetadataStore.DedupOfDistinct | android/gradle/wrapper/dists/gradle-7.5-all/6qsw290k5lz422uaf8jf6m7co/gradle-7.5/src/core/org/gradle/api/internal/tasks/properties/DefaultTypeMetadataStore.java:70-72 | a collection without duplicates is copied unchanged |
| TypeMetadataStore.HandledTypes | android/gradle/wrapper/dists/gradle-7.5-all/6qsw290k5lz422uaf8jf6m7co/gradle-7.5/src/core/org/gradle/api/internal/tasks/properties/DefaultTypeMetadataStore.java:133 | the key set of the handler table: each handler's annotation type, in handler order |
| TypeMetadataStore.UniqueIndex | android/gradle/wrapper/dists/gradle-7.5-all/6qsw290k5lz422uaf8jf6m7co/gradle-7.5/src/core/org/gradle/api/internal/tasks/properties/DefaultTypeMetadataStore.java:71 | a built index maps each annotation type to a handler of that type; a failure names a type some handler has |
| TypeMetadataStore.UniqueIndexContents | android/gradle/wrapper/dists/gradle-7.5-all/6qsw290k5lz422uaf8jf6m7co/gradle-7.5/src/core/org/gradle/api/internal/tasks/properties/DefaultTypeMetadataStore.java:71 | a built index holds exactly the handled annotation types, each mapped to its handler |
| TypeMetadataStore.UniqueIndexSucceedsIffDistinct | android/gradle/wrapper/dists/gradle-7.5-all/6qsw290k5lz422uaf8jf6m7co/gradle-7.5/src/core/org/gradle/api/internal/tasks/properties/DefaultTypeMetadataStore.java:71 | the index is built exactly when no annotation type is handled twice |
| TypeMetadataStore.UniqueIndexFailureWitness | android/gradle/wrapper/dists/gradle-7.5-all/6qsw290k5lz422uaf8jf6m7co/gradle-7.5/src/core/org/gradle/api/internal/tasks/properties/DefaultTypeMetadataStore.java:71 | a failure names an annotation type two handlers share |
| TypeMetadataStore.CalculateDisplayName | android/gradle/wrapper/dists/gradle-7.5-all/6qsw290k5lz422uaf8jf6m7co/gradle-7.5/src/core/org/gradle/api/internal/tasks/properties/DefaultTypeMetadataStore.java:78-85 | "an input or output annotation" exactly when some handler is an output handler, "an input annotation" otherwise |
| TypeMetadataStore.MissingTypeSingleProblem | android/gradle/wrapper/dists/gradle-7.5-all/6qsw290k5lz422uaf8jf6m7co/gradle-7.5/src/core/org/gradle/api/internal/tasks/properties/DefaultTypeMetadataStore.java:109-122 | a property without an effective type raises exactly one MISSING_ANNOTATION error, described "is missing " + display name, and is dropped |
| TypeMetadataStore.UnhandledTypeSingleProblem | android/gradle/wrapper/dists/gradle-7.5-all/6qsw290k5lz422uaf8jf6m7co/gradle-7.5/src/core/org/gradle/api/internal/tasks/properties/DefaultTypeMetadataStore.java:124-137 | a property whose type has no handler raises exactly one ANNOTATION_INVALID_IN_CONTEXT error, its modifiers unchecked, and is dropped |
| TypeMetadataStore.AtMostOneProblemPerModifier | android/gradle/wrapper/dists/gradle-7.5-all/6qsw290k5lz422uaf8jf6m7co/gradle-7.5/src/core/org/gradle/api/internal/tasks/properties/DefaultTypeMetadataStore.java:139-168 | at most one problem per non-role annotation, each about the property and either INCOMPATIBLE_ANNOTATIONS or ANNOTATION_INVALID_IN_CONTEXT |
| TypeMetadataStore.ModifierProblemRules | android/gradle/wrapper/dists/gradle-7.5-all/6qsw290k5lz422uaf8jf6m7co/gradle-7.5/src/core/org/gradle/api/internal/tasks/properties/DefaultTypeMetadataStore.java:140-167 | role entries are skipped; a refused category gives INCOMPATIBLE_ANNOTATIONS, else a modifier outside the whitelist gives ANNOTATION_INVALID_IN_CONTEXT, else nothing |
| TypeMetadataStore.EffectivePropertiesAreTheKeptOnes | android/gradle/wrapper/dists/gradle-7.5-all/6qsw290k5lz422uaf8jf6m7co/gradle-7.5/src/core/org/gradle/api/internal/tasks/properties/DefaultTypeMetadataStore.java:105-176 | a property is kept exactly when it has an effective type whose handler is registered and relevant, in both directions |
| TypeMetadataStore.EffectiveIgnoresProblems | android/gradle/wrapper/dists/gradle-7.5-all/6qsw290k5lz422uaf8jf6m7co/gradle-7.5/src/core/org/gradle/api/internal/tasks/properties/DefaultTypeMetadataStore.java:139-175 | neither the modifier whitelist nor the handlers' own validations change which properties are kept |
| TypeMetadataStore.KeptPropertiesHaveRelevantHandlers | android/gradle/wrapper/dists/gradle-7.5-all/6qsw290k5lz422uaf8jf6m7co/gradle-7.5/src/core/org/gradle/api/internal/tasks/properties/DefaultTypeMetadataStore.java:173-175 | every kept property has a relevant handler, and `getAnnotationHandlerFor` returns it |
| TypeMetadataStore.HasAnnotatedPropertiesIffKept | android/gradle/wrapper/dists/gradle-7.5-all/6qsw290k5lz422uaf8jf6m7co/gradle-7.5/src/core/org/gradle/api/internal/tasks/properties/DefaultTypeMetadataStore.java:227-229 | `hasAnnotatedProperties` holds exactly when some property of the type is kept |
| TypeMetadataStore.SameUnpackedTypeSameMetadata | android/gradle/wrapper/dists/gradle-7.5-all/6qsw290k5lz422uaf8jf6m7co/gradle-7.5/src/core/org/gradle/api/internal/tasks/properties/DefaultTypeMetadataStore.java:92-95 | a generated subclass and its public type get equal metadata |
| TypeMetadataStore.Configuration.ClassifyProperty | android/gradle/wrapper/dists/gradle-7.5-all/6qsw290k5lz422uaf8jf6m7co/gradle-7.5/src/core/org/gradle/api/internal/tasks/properties/DefaultTypeMetadataStore.java:106-175 | a property is effective exactly when it is kept, at most once; a property without problems has a handled effective type |
| TypeMetadataStore.Configuration.Classify | android/gradle/wrapper/dists/gradle-7.5-all/6qsw290k5lz422uaf8jf6m7co/gradle-7.5/src/core/org/gradle/api/internal/tasks/properties/DefaultTypeMetadataStore.java:104-176 | at most one effective property per property, every one of them kept |
| TypeMetadataStore.Configuration.TypeProblems | android/gradle/wrapper/dists/gradle-7.5-all/6qsw290k5lz422uaf8jf6m7co/gradle-7.5/src/core/org/gradle/api/internal/tasks/properties/DefaultTypeMetadataStore.java:98-102 | no problems when the type carries none of the type handlers' annotations |
| TypeMetadataStore.Configuration.TypeMetadataOf | android/gradle/wrapper/dists/gradle-7.5-all/6qsw290k5lz422uaf8jf6m7co/gradle-7.5/src/core/org/gradle/api/internal/tasks/properties/DefaultTypeMetadataStore.java:92-178 | the handler table is the store's, every effective property is kept, and the log starts with the type annotation metadata's own failures |
| TypeMetadataStore.TypeMetadata.HasAnnotatedProperties | android/gradle/wrapper/dists/gradle-7.5-all/6qsw290k5lz422uaf8jf6m7co/gradle-7.5/src/core/org/gradle/api/internal/tasks/properties/DefaultTypeMetadataStore.java:227-229 | true exactly when the effective property set is non-empty |
| TypeMetadataStore.TypeMetadata.GetAnnotationHandlerFor | android/gradle/wrapper/dists/gradle-7.5-all/6qsw290k5lz422uaf8jf6m7co/gradle-7.5/src/core/org/gradle/api/internal/tasks/properties/DefaultTypeMetadataStore.java:232-234 | the handler registered for the property's type, and nothing when none is |
| TypeMetadataStore.DefaultTypeMetadataStore.constructor | android/gradle/wrapper/dists/gradle-7.5-all/6qsw290k5lz422uaf8jf6m7co/gradle-7.5/src/core/org/gradle/api/internal/tasks/properties/DefaultTypeMetadataStore.java:63-76 | the immutable copies of handlers and modifiers, the unique handler index, the listings, the display name and an empty cache |
| TypeMetadataStore.NewDefaultTypeMetadataStore | android/gradle/wrapper/dists/gradle-7.5-all/6qsw290k5lz422uaf8jf6m7co/gradle-7.5/src/core/org/gradle/api/internal/tasks/properties/DefaultTypeMetadataStore.java:63-76 | fails exactly when two property handlers share an annotation type, naming one; otherwise a fresh store with an empty cache |
| TypeMetadataStore.DefaultTypeMetadataStore.CheckModifiers | android/gradle/wrapper/dists/gradle-7.5-all/6qsw290k5lz422uaf8jf6m7co/gradle-7.5/src/core/org/gradle/api/internal/tasks/properties/DefaultTypeMetadataStore.java:139-168 | the loop over a handled property's annotations yields the modifier problems, in order |
| TypeMetadataStore.DefaultTypeMetadataStore.ClassifyProperty | android/gradle/wrapper/dists/gradle-7.5-all/6qsw290k5lz422uaf8jf6m7co/gradle-7.5/src/core/org/gradle/api/internal/tasks/properties/DefaultTypeMetadataStore.java:106-175 | one pass of the property loop yields that property's problems and, when kept, the property |
| TypeMetadataStore.DefaultTypeMetadataStore.CheckTypeAnnotations | android/gradle/wrapper/dists/gradle-7.5-all/6qsw290k5lz422uaf8jf6m7co/gradle-7.5/src/core/org/gradle/api/internal/tasks/properties/DefaultTypeMetadataStore.java:98-102 | the problems of the type handlers whose annotation the type carries, in handler order |
| TypeMetadataStore.DefaultTypeMetadataStore.ClassifyProperties | android/gradle/wrapper/dists/gradle-7.5-all/6qsw290k5lz422uaf8jf6m7co/gradle-7.5/src/core/org/gradle/api/internal/tasks/properties/DefaultTypeMetadataStore.java:104-176 | the property loop yields every property's problems and the kept properties, in order |
| TypeMetadataStore.DefaultTypeMetadataStore.CreateTypeMetadata | android/gradle/wrapper/dists/gradle-7.5-all/6qsw290k5lz422uaf8jf6m7co/gradle-7.5/src/core/org/gradle/api/internal/tasks/properties/DefaultTypeMetadataStore.java:92-178 | the metadata of a type: kept properties, then the metadata failures, type problems and property problems as the log, and the handler table |
| TypeMetadataStore.DefaultTypeMetadataStore.GetTypeMetadata | android/gradle/wrapper/dists/gradle-7.5-all/6qsw290k5lz422uaf8jf6m7co/gradle-7.5/src/core/org/gradle/api/internal/tasks/properties/DefaultTypeMetadataStore.java:88-90 | returns what `createTypeMetadata` builds for the type; the first request caches it, a later one leaves the cache unchanged |
| Text.Join | android/gradle/wrapper/dists/gradle-7.5-all/6qsw290k5lz422uaf8jf6m7co/gradle-7.5/src/core/org/gradle/api/internal/tasks/properties/DefaultTypeMetadataStore.java:293 | `String.join`: no parts give "", otherwise the text starts with the first part |
| Text.Split | android/gradle/wrapper/dists/gradle-7.5-all/6qsw290k5lz422uaf8jf6m7co/gradle-7.5/src/core/org/gradle/api/internal/catalog/parser/TomlCatalogFileParser.java:50 | `Splitter.on(':')`: one more part than separators, no part holds the separator, and joining the parts gives the text back |
| Text.SplitJoin | android/gradle/wrapper/dists/gradle-7.5-all/6qsw290k5lz422uaf8jf6m7co/gradle-7.5/src/core/org/gradle/api/internal/catalog/parser/TomlCatalogFileParser.java:50 | splitting joined separator-free parts gives the parts back |
| Text.Trim | android/gradle/wrapper/dists/gradle-7.5-all/6qsw290k5lz422uaf8jf6m7co/gradle-7.5/src/core/org/gradle/api/internal/catalog/parser/TomlCatalogFileParser.java:50 | `trimResults`: a slice of the text with only whitespace before and after it, neither end whitespace, empty exactly when the text is all whitespace |
| Text.TrimIdempotent | android/gradle/wrapper/dists/gradle-7.5-all/6qsw290k5lz422uaf8jf6m7co/gradle-7.5/src/core/org/gradle/api/internal/catalog/parser/TomlCatalogFileParser.java:50 | trimming twice is trimming once |
| Text.SplitTrim | android/gradle/wrapper/dists/gradle-7.5-all/6qsw290k5lz422uaf8jf6m7co/gradle-7.5/src/core/org/gradle/api/internal/catalog/parser/TomlCatalogFileParser.java:50 | `Splitter.on(sep).trimResults()`: one trimmed part per separator-delimited field |
| Text.Contains | android/gradle/wrapper/dists/gradle-7.5-all/6qsw290k5lz422uaf8jf6m7co/gradle-7.5/src/wrapper-shared/org/gradle/util/internal/ZipSlip.java:46-47 | `String.contains`: the pattern occurs at some index |
| Text.Sort | android/gradle/wrapper/dists/gradle-7.5-all/6qsw290k5lz422uaf8jf6m7co/gradle-7.5/src/core/org/gradle/api/internal/catalog/parser/TomlCatalogFileParser.java:149-152 | the stable `Stream.sorted`: sorted under the comparator and a permutation of its input |
| Text.LexLe | android/gradle/wrapper/dists/gradle-7.5-all/6qsw290k5lz422uaf8jf6m7co/gradle-7.5/src/core/org/gradle/api/internal/tasks/properties/DefaultTypeMetadataStore.java:184 | `compareTo(b) <= 0`: a prefix never compares greater |
| Text.LexLeFirstDifference | android/gradle/wrapper/dists/gradle-7.5-all/6qsw290k5lz422uaf8jf6m7co/gradle-7.5/src/core/org/gradle/api/internal/tasks/properties/DefaultTypeMetadataStore.java:184 | a string is at most another exactly when it is a prefix of it or has the smaller character at the first difference |
| Text.WithLength | android/gradle/wrapper/dists/gradle-7.5-all/6qsw290k5lz422uaf8jf6m7co/gradle-7.5/src/core/org/gradle/api/internal/catalog/parser/TomlCatalogFileParser.java:151 | the strings of one length, in order |
| Text.InsertStable | android/gradle/wrapper/dists/gradle-7.5-all/6qsw290k5lz422uaf8jf6m7co/gradle-7.5/src/core/org/gradle/api/internal/catalog/parser/TomlCatalogFileParser.java:151 | inserting by length into a sorted sequence places the string after every string of its length |
| Text.SortStable | android/gradle/wrapper/dists/gradle-7.5-all/6qsw290k5lz422uaf8jf6m7co/gradle-7.5/src/core/org/gradle/api/internal/catalog/parser/TomlCatalogFileParser.java:151 | the sort by length keeps the input order among the strings of each length |
| Text.SortForgetsOrder | android/gradle/wrapper/dists/gradle-7.5-all/6qsw290k5lz422uaf8jf6m7co/gradle-7.5/src/core/org/gradle/api/internal/tasks/properties/DefaultTypeMetadataStore.java:184 | sorting lexicographically gives the same sequence for any arrangement of the same strings |
| TomlCatalog.Keys | android/gradle/wrapper/dists/gradle-7.5-all/6qsw290k5lz422uaf8jf6m7co/gradle-7.5/src/core/org/gradle/api/internal/catalog/parser/TomlCatalogFileParser.java:238 | `keySet()`: the keys of the table, one per entry, in order |
| TomlCatalog.Lookup | android/gradle/wrapper/dists/gradle-7.5-all/6qsw290k5lz422uaf8jf6m7co/gradle-7.5/src/core/org/gradle/api/internal/catalog/parser/TomlCatalogFileParser.java:248 | `get(key)`: nothing exactly when the key is absent, else the value of an entry under it |
| TomlCatalog.Lookup2 | android/gradle/wrapper/dists/gradle-7.5-all/6qsw290k5lz422uaf8jf6m7co/gradle-7.5/src/core/org/gradle/api/internal/catalog/parser/TomlCatalogFileParser.java:271 | a value exactly when the outer key holds a table with the inner key, and then the value of an entry of that table |
| TomlCatalog.AsString | android/gradle/wrapper/dists/gradle-7.5-all/6qsw290k5lz422uaf8jf6m7co/gradle-7.5/src/core/org/gradle/api/internal/catalog/parser/TomlCatalogFileParser.java:204 | the typed getter: absent, the string, or a wrong type, each in both directions |
| TomlCatalog.AsTable | android/gradle/wrapper/dists/gradle-7.5-all/6qsw290k5lz422uaf8jf6m7co/gradle-7.5/src/core/org/gradle/api/internal/catalog/parser/TomlCatalogFileParser.java:86 | the typed getter: absent, the table, or a wrong type, each in both directions |
| TomlCatalog.AsArray | android/gradle/wrapper/dists/gradle-7.5-all/6qsw290k5lz422uaf8jf6m7co/gradle-7.5/src/core/org/gradle/api/internal/catalog/parser/TomlCatalogFileParser.java:222 | the typed getter: absent, the array, or a wrong type, each in both directions |
| TomlCatalog.AsBoolean | android/gradle/wrapper/dists/gradle-7.5-all/6qsw290k5lz422uaf8jf6m7co/gradle-7.5/src/core/org/gradle/api/internal/catalog/parser/TomlCatalogFileParser.java:231 | the typed getter: absent, the boolean, or a wrong type, each in both directions |
| TomlCatalog.ClassNameOf | android/gradle/wrapper/dists/gradle-7.5-all/6qsw290k5lz422uaf8jf6m7co/gradle-7.5/src/core/org/gradle/api/internal/catalog/parser/TomlCatalogFileParser.java:395 | the simple class name of each kind of value |
| TomlCatalog.ValueOf | android/gradle/wrapper/dists/gradle-7.5-all/6qsw290k5lz422uaf8jf6m7co/gradle-7.5/src/core/org/gradle/api/internal/catalog/parser/TomlCatalogFileParser.java:190-191 | `String.valueOf`: a string itself, a boolean "true" or "false", a scalar its text, a nested array or table its rendering |
| TomlCatalog.ProblemIdOf | android/gradle/wrapper/dists/gradle-7.5-all/6qsw290k5lz422uaf8jf6m7co/gradle-7.5/src/core/org/gradle/api/internal/catalog/parser/TomlCatalogFileParser.java:540-545 | each error's problem id: UNSUPPORTED_FORMAT_VERSION, INVALID_DEPENDENCY/PLUGIN/MODULE_NOTATION each exactly for its error, none for the unexpected keys and wrong types (thrown as exceptions), TOML_SYNTAX_ERROR for the rest |
| TomlCatalog.Outside | android/gradle/wrapper/dists/gradle-7.5-all/6qsw290k5lz422uaf8jf6m7co/gradle-7.5/src/core/org/gradle/api/internal/catalog/parser/TomlCatalogFileParser.java:240 | `Sets.difference`: exactly the keys not allowed |
| TomlCatalog.ExpectedKeys | android/gradle/wrapper/dists/gradle-7.5-all/6qsw290k5lz422uaf8jf6m7co/gradle-7.5/src/core/org/gradle/api/internal/catalog/parser/TomlCatalogFileParser.java:237-245 | fails exactly when the table has a key outside the allowed ones, and names those keys |
| TomlCatalog.ExpectedKeysMessage | android/gradle/wrapper/dists/gradle-7.5-all/6qsw290k5lz422uaf8jf6m7co/gradle-7.5/src/core/org/gradle/api/internal/catalog/parser/TomlCatalogFileParser.java:241-243 | starts with "On ", the context and " expected to find any of ", and ends with the unexpected keys and "." |
| TomlCatalog.ExpectedKeysWording | android/gradle/wrapper/dists/gradle-7.5-all/6qsw290k5lz422uaf8jf6m7co/gradle-7.5/src/core/org/gradle/api/internal/catalog/parser/TomlCatalogFileParser.java:241-243 | the message says "key" for one unexpected key and "keys" for several |
| TomlCatalog.NotEmpty | android/gradle/wrapper/dists/gradle-7.5-all/6qsw290k5lz422uaf8jf6m7co/gradle-7.5/src/core/org/gradle/api/internal/catalog/parser/TomlCatalogFileParser.java:432-445 | nothing stays nothing, "" fails with TOML_SYNTAX_ERROR naming alias and member, any other string is returned unchanged |
| TomlCatalog.NotEmptyPart | android/gradle/wrapper/dists/gradle-7.5-all/6qsw290k5lz422uaf8jf6m7co/gradle-7.5/src/core/org/gradle/api/internal/catalog/parser/TomlCatalogFileParser.java:252-254 | a notation part fails exactly when it is empty, and is otherwise returned unchanged |
| TomlCatalog.ExpectString | android/gradle/wrapper/dists/gradle-7.5-all/6qsw290k5lz422uaf8jf6m7co/gradle-7.5/src/core/org/gradle/api/internal/catalog/parser/TomlCatalogFileParser.java:196-207 | fails exactly on a non-string (UnexpectedType "a string") or on "" (EmptyValue); otherwise nothing exactly when absent, else the non-empty string |
| TomlCatalog.VersionString | android/gradle/wrapper/dists/gradle-7.5-all/6qsw290k5lz422uaf8jf6m7co/gradle-7.5/src/core/org/gradle/api/internal/catalog/parser/TomlCatalogFileParser.java:301-304 | `getString` inside a version table: fails exactly on a non-string (InvalidType) or on "" (EmptyValue); otherwise nothing exactly when absent, else the non-empty string |
| TomlCatalog.RejectedVersions | android/gradle/wrapper/dists/gradle-7.5-all/6qsw290k5lz422uaf8jf6m7co/gradle-7.5/src/core/org/gradle/api/internal/catalog/parser/TomlCatalogFileParser.java:305-309 | one text per array element, none empty; fails exactly when some element's text is empty |
| TomlCatalog.ConstraintOf | android/gradle/wrapper/dists/gradle-7.5-all/6qsw290k5lz422uaf8jf6m7co/gradle-7.5/src/core/org/gradle/api/internal/catalog/parser/TomlCatalogFileParser.java:462-478 | each present part is set; `rejectAll` is applied exactly when it is true |
| TomlCatalog.VersionDeclarationOf | android/gradle/wrapper/dists/gradle-7.5-all/6qsw290k5lz422uaf8jf6m7co/gradle-7.5/src/core/org/gradle/api/internal/catalog/parser/TomlCatalogFileParser.java:457-478 | a present version reference is registered alone, otherwise the constraint |
| TomlCatalog.ConstraintTable | android/gradle/wrapper/dists/gradle-7.5-all/6qsw290k5lz422uaf8jf6m7co/gradle-7.5/src/core/org/gradle/api/internal/catalog/parser/TomlCatalogFileParser.java:302-310 | succeeds exactly when every reading does, keeping the reference and each reading; a failure is a type error or an empty value about the alias |
| TomlCatalog.DeclaredVersion | android/gradle/wrapper/dists/gradle-7.5-all/6qsw290k5lz422uaf8jf6m7co/gradle-7.5/src/core/org/gradle/api/internal/catalog/parser/TomlCatalogFileParser.java:292-313 | nothing gives no version, a string its rich version; a table is key-checked, then its reference and constraints read; any other value fails with UnexpectedVersionSyntax |
| TomlCatalog.ModuleNotation | android/gradle/wrapper/dists/gradle-7.5-all/6qsw290k5lz422uaf8jf6m7co/gradle-7.5/src/core/org/gradle/api/internal/catalog/parser/TomlCatalogFileParser.java:272-285 | INVALID_MODULE_NOTATION exactly when the notation does not have two parts; else the trimmed group and name, an empty one failing |
| TomlCatalog.LibraryNotation | android/gradle/wrapper/dists/gradle-7.5-all/6qsw290k5lz422uaf8jf6m7co/gradle-7.5/src/core/org/gradle/api/internal/catalog/parser/TomlCatalogFileParser.java:249-264 | INVALID_DEPENDENCY_NOTATION exactly when the notation does not have three parts; else group, name and the rich version of the third part, an empty part failing |
| TomlCatalog.DeclaredCoordinates | android/gradle/wrapper/dists/gradle-7.5-all/6qsw290k5lz422uaf8jf6m7co/gradle-7.5/src/core/org/gradle/api/internal/catalog/parser/TomlCatalogFileParser.java:269-285 | a `module` entry overrides the `group` and `name` entries |
| TomlCatalog.ParseLibrary | android/gradle/wrapper/dists/gradle-7.5-all/6qsw290k5lz422uaf8jf6m7co/gradle-7.5/src/core/org/gradle/api/internal/catalog/parser/TomlCatalogFileParser.java:247-329 | a string is the library notation; otherwise the key check, the coordinates and the version fail in that order, then MissingGroup and MissingName; a success registers the coordinates and the declared version |
| TomlCatalog.LibraryVersionReference | android/gradle/wrapper/dists/gradle-7.5-all/6qsw290k5lz422uaf8jf6m7co/gradle-7.5/src/core/org/gradle/api/internal/catalog/parser/TomlCatalogFileParser.java:298-301 | a library whose version table holds a reference registers by that reference |
| TomlCatalog.PluginNotation | android/gradle/wrapper/dists/gradle-7.5-all/6qsw290k5lz422uaf8jf6m7co/gradle-7.5/src/core/org/gradle/api/internal/catalog/parser/TomlCatalogFileParser.java:333-347 | INVALID_PLUGIN_NOTATION exactly when the notation does not have two parts; else the id and the rich version of the second part, an empty part failing |
| TomlCatalog.ParsePlugin | android/gradle/wrapper/dists/gradle-7.5-all/6qsw290k5lz422uaf8jf6m7co/gradle-7.5/src/core/org/gradle/api/internal/catalog/parser/TomlCatalogFileParser.java:331-390 | a string is the plugin notation; otherwise the key check, the id and the version fail in that order, then MissingPluginId; a success registers the id and the declared version |
| TomlCatalog.PluginVersionReference | android/gradle/wrapper/dists/gradle-7.5-all/6qsw290k5lz422uaf8jf6m7co/gradle-7.5/src/core/org/gradle/api/internal/catalog/parser/TomlCatalogFileParser.java:366-369 | a plugin whose version table holds a reference registers by that reference |
| TomlCatalog.ParseVersion | android/gradle/wrapper/dists/gradle-7.5-all/6qsw290k5lz422uaf8jf6m7co/gradle-7.5/src/core/org/gradle/api/internal/catalog/parser/TomlCatalogFileParser.java:402-430 | an empty string fails, another string registers its rich version; a table registers its constraints or fails as they do; any other value fails with UnexpectedVersionSyntax |
| TomlCatalog.ParseBundle | android/gradle/wrapper/dists/gradle-7.5-all/6qsw290k5lz422uaf8jf6m7co/gradle-7.5/src/core/org/gradle/api/internal/catalog/parser/TomlCatalogFileParser.java:189-194 | succeeds exactly on an array, registering the text of each element in order; anything else fails with UnexpectedType "an array" |
| TomlCatalog.BundleOfStrings | android/gradle/wrapper/dists/gradle-7.5-all/6qsw290k5lz422uaf8jf6m7co/gradle-7.5/src/core/org/gradle/api/internal/catalog/parser/TomlCatalogFileParser.java:189-193 | an array of strings registers exactly those strings, in order |
| TomlCatalog.ParseAlias | android/gradle/wrapper/dists/gradle-7.5-all/6qsw290k5lz422uaf8jf6m7co/gradle-7.5/src/core/org/gradle/api/internal/catalog/parser/TomlCatalogFileParser.java:153-154 | a success registers the alias and is of the section's kind |
| TomlCatalog.SortedAliases | android/gradle/wrapper/dists/gradle-7.5-all/6qsw290k5lz422uaf8jf6m7co/gradle-7.5/src/core/org/gradle/api/internal/catalog/parser/TomlCatalogFileParser.java:149-152 | the table's keys, each once, by ascending length (bundles lexicographically); by length, aliases of equal length keep their key-set order |
| TomlCatalog.Run | android/gradle/wrapper/dists/gradle-7.5-all/6qsw290k5lz422uaf8jf6m7co/gradle-7.5/src/core/org/gradle/api/internal/catalog/parser/TomlCatalogFileParser.java:153-155 | at most one registration per alias, and all of them exactly when no problem is met |
| TomlCatalog.SectionSpec | android/gradle/wrapper/dists/gradle-7.5-all/6qsw290k5lz422uaf8jf6m7co/gradle-7.5/src/core/org/gradle/api/internal/catalog/parser/TomlCatalogFileParser.java:145-156 | an absent table registers nothing; otherwise at most one registration per entry |
| TomlCatalog.CatalogSpec | android/gradle/wrapper/dists/gradle-7.5-all/6qsw290k5lz422uaf8jf6m7co/gradle-7.5/src/core/org/gradle/api/internal/catalog/parser/TomlCatalogFileParser.java:82-104 | a file with syntax errors registers nothing and fails with them; registering anything needs no syntax errors and only known top-level keys |
| TomlCatalog.RunOrder | android/gradle/wrapper/dists/gradle-7.5-all/6qsw290k5lz422uaf8jf6m7co/gradle-7.5/src/core/org/gradle/api/internal/catalog/parser/TomlCatalogFileParser.java:153-155 | the aliases are parsed in order: all when none fails, otherwise those before the first failing one, whose problem is reported |
| TomlCatalog.RunKeepsAliases | android/gradle/wrapper/dists/gradle-7.5-all/6qsw290k5lz422uaf8jf6m7co/gradle-7.5/src/core/org/gradle/api/internal/catalog/parser/TomlCatalogFileParser.java:153-155 | the registrations carry the aliases, in the order they were read |
| TomlCatalog.SectionOrder | android/gradle/wrapper/dists/gradle-7.5-all/6qsw290k5lz422uaf8jf6m7co/gradle-7.5/src/core/org/gradle/api/internal/catalog/parser/TomlCatalogFileParser.java:145-156 | a section registers a prefix of its sorted aliases, all of them exactly when no problem is met, and otherwise stops at the alias whose problem is reported |
| TomlCatalog.SectionKinds | android/gradle/wrapper/dists/gradle-7.5-all/6qsw290k5lz422uaf8jf6m7co/gradle-7.5/src/core/org/gradle/api/internal/catalog/parser/TomlCatalogFileParser.java:100-103 | a section registers only declarations of its own kind |
| TomlCatalog.NotationParts | android/gradle/wrapper/dists/gradle-7.5-all/6qsw290k5lz422uaf8jf6m7co/gradle-7.5/src/core/org/gradle/api/internal/catalog/parser/TomlCatalogFileParser.java:50 | splitting and trimming a notation of trimmed, colon-free parts gives the parts back |
| TomlCatalog.LibraryNotationRoundTrip | android/gradle/wrapper/dists/gradle-7.5-all/6qsw290k5lz422uaf8jf6m7co/gradle-7.5/src/core/org/gradle/api/internal/catalog/parser/TomlCatalogFileParser.java:249-257 | `group:name:version` of well-formed parts registers exactly those parts |
| TomlCatalog.PluginNotationRoundTrip | android/gradle/wrapper/dists/gradle-7.5-all/6qsw290k5lz422uaf8jf6m7co/gradle-7.5/src/core/org/gradle/api/internal/catalog/parser/TomlCatalogFileParser.java:333-340 | `id:version` of well-formed parts registers exactly those parts |
| TomlCatalog.ConstraintEntriesIgnoreOtherKeys | android/gradle/wrapper/dists/gradle-7.5-all/6qsw290k5lz422uaf8jf6m7co/gradle-7.5/src/core/org/gradle/api/internal/catalog/parser/TomlCatalogFileParser.java:417-425 | the constraint entries of a version table are read by their keys only |
| TomlCatalog.VersionsTableIgnoresUnknownKey | android/gradle/wrapper/dists/gradle-7.5-all/6qsw290k5lz422uaf8jf6m7co/gradle-7.5/src/core/org/gradle/api/internal/catalog/parser/TomlCatalogFileParser.java:415-425 | a table of the `versions` section is not key-checked: an extra unknown key changes nothing |
| TomlCatalog.DeclaredVersionRefusesUnknownKey | android/gradle/wrapper/dists/gradle-7.5-all/6qsw290k5lz422uaf8jf6m7co/gradle-7.5/src/core/org/gradle/api/internal/catalog/parser/TomlCatalogFileParser.java:298-300 | the version table of a library or plugin refuses an unknown key |
| TomlCatalog.EmptyVersionString | android/gradle/wrapper/dists/gradle-7.5-all/6qsw290k5lz422uaf8jf6m7co/gradle-7.5/src/core/org/gradle/api/internal/catalog/parser/TomlCatalogFileParser.java:409-410 | "" is refused in the `versions` section but reaches the rich-version parser in a library's `version` |
| TomlCatalog.VerifyMetadata | android/gradle/wrapper/dists/gradle-7.5-all/6qsw290k5lz422uaf8jf6m7co/gradle-7.5/src/core/org/gradle/api/internal/catalog/parser/TomlCatalogFileParser.java:131-143 | no metadata or no format passes, "1.1" passes, any other format gives UNSUPPORTED_FORMAT_VERSION, a non-string format a type error |
| TomlCatalog.GetTable | android/gradle/wrapper/dists/gradle-7.5-all/6qsw290k5lz422uaf8jf6m7co/gradle-7.5/src/core/org/gradle/api/internal/catalog/parser/TomlCatalogFileParser.java:86-91 | `getTable`: fails exactly on a value that is not a table, and finds the table when there is one |
| TomlCatalog.ReadTables | android/gradle/wrapper/dists/gradle-7.5-all/6qsw290k5lz422uaf8jf6m7co/gradle-7.5/src/core/org/gradle/api/internal/catalog/parser/TomlCatalogFileParser.java:88-91 | the four `getTable` calls fail only with a type error |
| TomlCatalog.Preflight | android/gradle/wrapper/dists/gradle-7.5-all/6qsw290k5lz422uaf8jf6m7co/gradle-7.5/src/core/org/gradle/api/internal/catalog/parser/TomlCatalogFileParser.java:82-99 | parse errors come first; a success means every top-level key is known; a failure is a parse, format, type or unknown-element error |
| TomlCatalog.UnknownTopLevelElementRejected | android/gradle/wrapper/dists/gradle-7.5-all/6qsw290k5lz422uaf8jf6m7co/gradle-7.5/src/core/org/gradle/api/internal/catalog/parser/TomlCatalogFileParser.java:92-99 | a file with an unknown top-level key registers nothing and fails |
| TomlCatalog.UnsupportedFormatRejected | android/gradle/wrapper/dists/gradle-7.5-all/6qsw290k5lz422uaf8jf6m7co/gradle-7.5/src/core/org/gradle/api/internal/catalog/parser/TomlCatalogFileParser.java:131-143 | a file of another format version registers nothing and fails with UNSUPPORTED_FORMAT_VERSION |
| TomlCatalog.WellFormedFilePassesPreflight | android/gradle/wrapper/dists/gradle-7.5-all/6qsw290k5lz422uaf8jf6m7co/gradle-7.5/src/core/org/gradle/api/internal/catalog/parser/TomlCatalogFileParser.java:82-99 | a file without syntax errors, with known top-level tables and format "1.1" or none, passes every check |
| TomlCatalog.SectionSequence | android/gradle/wrapper/dists/gradle-7.5-all/6qsw290k5lz422uaf8jf6m7co/gradle-7.5/src/core/org/gradle/api/internal/catalog/parser/TomlCatalogFileParser.java:100-103 | libraries, then plugins, bundles and versions; a problem in one section stops those after it |
| TomlCatalog.CatalogBuilder.Register | android/gradle/wrapper/dists/gradle-7.5-all/6qsw290k5lz422uaf8jf6m7co/gradle-7.5/src/core/org/gradle/api/internal/catalog/parser/TomlCatalogFileParser.java:193 | `library`/`plugin`/`version`/`bundle` appends exactly one registration |
| TomlCatalog.RunAliases | android/gradle/wrapper/dists/gradle-7.5-all/6qsw290k5lz422uaf8jf6m7co/gradle-7.5/src/core/org/gradle/api/internal/catalog/parser/TomlCatalogFileParser.java:153-155 | the alias loop registers on the builder exactly what the specification registers, and returns its outcome |
| TomlCatalog.ParseSection | android/gradle/wrapper/dists/gradle-7.5-all/6qsw290k5lz422uaf8jf6m7co/gradle-7.5/src/core/org/gradle/api/internal/catalog/parser/TomlCatalogFileParser.java:145-156 | an absent table registers nothing; otherwise the sorted aliases are parsed and registered |
| TomlCatalog.Parse | android/gradle/wrapper/dists/gradle-7.5-all/6qsw290k5lz422uaf8jf6m7co/gradle-7.5/src/core/org/gradle/api/internal/catalog/parser/TomlCatalogFileParser.java:82-104 | the builder receives exactly the registrations of the checked file, sections in order, up to the first problem, which is returned |
| ZipSlip.IsUnsafeZipEntryName | android/gradle/wrapper/dists/gradle-7.5-all/6qsw290k5lz422uaf8jf6m7co/gradle-7.5/src/wrapper-shared/org/gradle/util/internal/ZipSlip.java:42-48 | unsafe exactly when empty, starting with `/` or `\`, holding two adjacent dots, or holding a colon on Windows, stated index by index |
| ZipSlip.ContainsAdjacentDots | android/gradle/wrapper/dists/gradle-7.5-all/6qsw290k5lz422uaf8jf6m7co/gradle-7.5/src/wrapper-shared/org/gradle/util/internal/ZipSlip.java:46 | `contains("..")` exactly when two adjacent characters are dots |
| ZipSlip.ContainsColon | android/gradle/wrapper/dists/gradle-7.5-all/6qsw290k5lz422uaf8jf6m7co/gradle-7.5/src/wrapper-shared/org/gradle/util/internal/ZipSlip.java:47 | `contains(":")` exactly when some character is a colon |
| ZipSlip.SafeZipEntryName | android/gradle/wrapper/dists/gradle-7.5-all/6qsw290k5lz422uaf8jf6m7co/gradle-7.5/src/wrapper-shared/org/gradle/util/internal/ZipSlip.java:35-40 | the name unchanged exactly when it is safe, else IllegalArgumentException with the name in its message |
| ZipSlip.EmptyNameUnsafe | android/gradle/wrapper/dists/gradle-7.5-all/6qsw290k5lz422uaf8jf6m7co/gradle-7.5/src/wrapper-shared/org/gradle/util/internal/ZipSlip.java:43 | the empty name is unsafe |
| ZipSlip.AbsoluteNameUnsafe | android/gradle/wrapper/dists/gradle-7.5-all/6qsw290k5lz422uaf8jf6m7co/gradle-7.5/src/wrapper-shared/org/gradle/util/internal/ZipSlip.java:44-45 | a name starting with `/` or `\` is unsafe |
| ZipSlip.ParentSegmentUnsafe | android/gradle/wrapper/dists/gradle-7.5-all/6qsw290k5lz422uaf8jf6m7co/gradle-7.5/src/wrapper-shared/org/gradle/util/internal/ZipSlip.java:46 | a name containing `..` is unsafe |
| ZipSlip.WindowsIsStricter | android/gradle/wrapper/dists/gradle-7.5-all/6qsw290k5lz422uaf8jf6m7co/gradle-7.5/src/wrapper-shared/org/gradle/util/internal/ZipSlip.java:42-48 | every name unsafe elsewhere is unsafe on Windows |
| ZipSlip.ColonOnlyMattersOnWindows | android/gradle/wrapper/dists/gradle-7.5-all/6qsw290k5lz422uaf8jf6m7co/gradle-7.5/src/wrapper-shared/org/gradle/util/internal/ZipSlip.java:47-52 | a colon alone makes a name unsafe on Windows and on no other system |
| ZipSlip.NoColonSameEverywhere | android/gradle/wrapper/dists/gradle-7.5-all/6qsw290k5lz422uaf8jf6m7co/gradle-7.5/src/wrapper-shared/org/gradle/util/internal/ZipSlip.java:47 | without a colon the operating system makes no difference |
| TestForkSettings.CollectionToString | android/gradle/wrapper/dists/gradle-7.5-all/6qsw290k5lz422uaf8jf6m7co/gradle-7.5/src/testing-jvm/org/gradle/api/tasks/testing/Test.java:714 | a set's text: brackets around its elements joined by ", " |
| TestForkSettings.TestTask.constructor | android/gradle/wrapper/dists/gradle-7.5-all/6qsw290k5lz422uaf8jf6m7co/gradle-7.5/src/testing-jvm/org/gradle/api/tasks/testing/Test.java:176-177 | no fork limit, one process at a time, no debugging, no executable nor launcher, no patterns |
| TestForkSettings.TestTask.GetForkEvery | android/gradle/wrapper/dists/gradle-7.5-all/6qsw290k5lz422uaf8jf6m7co/gradle-7.5/src/testing-jvm/org/gradle/api/tasks/testing/Test.java:1156-1158 | 0 while debugging, the stored limit otherwise, never negative |
| TestForkSettings.TestTask.SetForkEvery | android/gradle/wrapper/dists/gradle-7.5-all/6qsw290k5lz422uaf8jf6m7co/gradle-7.5/src/testing-jvm/org/gradle/api/tasks/testing/Test.java:1168-1173 | a negative value fails with IllegalArgumentException and changes nothing; null stores 0, any other value is stored; nothing else changes |
| TestForkSettings.TestTask.GetMaxParallelForks | android/gradle/wrapper/dists/gradle-7.5-all/6qsw290k5lz422uaf8jf6m7co/gradle-7.5/src/testing-jvm/org/gradle/api/tasks/testing/Test.java:1190-1192 | 1 while debugging, the stored count otherwise, never below 1 |
| TestForkSettings.TestTask.SetMaxParallelForks | android/gradle/wrapper/dists/gradle-7.5-all/6qsw290k5lz422uaf8jf6m7co/gradle-7.5/src/testing-jvm/org/gradle/api/tasks/testing/Test.java:1202-1207 | a count below 1 fails with IllegalArgumentException and changes nothing; any other count is stored; nothing else changes |
| TestForkSettings.TestTask.SetDebug | android/gradle/wrapper/dists/gradle-7.5-all/6qsw290k5lz422uaf8jf6m7co/gradle-7.5/src/testing-jvm/org/gradle/api/tasks/testing/Test.java:499-501 | sets the debug flag and nothing else |
| TestForkSettings.TestTask.SetExecutable | android/gradle/wrapper/dists/gradle-7.5-all/6qsw290k5lz422uaf8jf6m7co/gradle-7.5/src/testing-jvm/org/gradle/api/tasks/testing/Test.java:301-303 | sets or clears the executable and nothing else |
| TestForkSettings.TestTask.SetJavaLauncher | android/gradle/wrapper/dists/gradle-7.5-all/6qsw290k5lz422uaf8jf6m7co/gradle-7.5/src/testing-jvm/org/gradle/api/tasks/testing/Test.java:1249-1251 | sets or clears the launcher and nothing else |
| TestForkSettings.TestTask.Include | android/gradle/wrapper/dists/gradle-7.5-all/6qsw290k5lz422uaf8jf6m7co/gradle-7.5/src/testing-jvm/org/gradle/api/tasks/testing/Test.java:729-732 | adds a new include pattern at the end, keeps a known one once, and changes nothing else |
| TestForkSettings.TestTask.Exclude | android/gradle/wrapper/dists/gradle-7.5-all/6qsw290k5lz422uaf8jf6m7co/gradle-7.5/src/testing-jvm/org/gradle/api/tasks/testing/Test.java:769-772 | adds a new exclude pattern at the end, keeps a known one once, and changes nothing else |
| TestForkSettings.TestTask.GetNoMatchingTestErrorReasons | android/gradle/wrapper/dists/gradle-7.5-all/6qsw290k5lz422uaf8jf6m7co/gradle-7.5/src/testing-jvm/org/gradle/api/tasks/testing/Test.java:710-721 | the include reason if there are includes, then the exclude reason if there are excludes, then the superclass reasons |
| TestForkSettings.TestTask.ValidateToolchainConfiguration | android/gradle/wrapper/dists/gradle-7.5-all/6qsw290k5lz422uaf8jf6m7co/gradle-7.5/src/testing-jvm/org/gradle/api/tasks/testing/Test.java:649-653 | fails with IllegalStateException exactly when both a launcher and an executable are set |
| TestForkSettings.TestTask.GetEffectiveExecutable | android/gradle/wrapper/dists/gradle-7.5-all/6qsw290k5lz422uaf8jf6m7co/gradle-7.5/src/testing-jvm/org/gradle/api/tasks/testing/Test.java:1253-1260 | the launcher's executable, else the configured executable, else the current JVM's java |
| TestForkSettings.TestTask.EffectiveExecutableHonoursConfiguration | android/gradle/wrapper/dists/gradle-7.5-all/6qsw290k5lz422uaf8jf6m7co/gradle-7.5/src/testing-jvm/org/gradle/api/tasks/testing/Test.java:1253-1260 | under a valid toolchain configuration, whichever of launcher and executable is set is the one used |
| Favourites.DashWhitespace | src/utils/favourites.ts:39 | `replace(/\s/g, '-')`: same length, each whitespace character a dash, every other character kept |
| Favourites.ToLowerCase | src/utils/favourites.ts:39 | `toLowerCase`: same length, each character lowered |
| Favourites.DerivedKey | src/utils/favourites.ts:39 | the derived key has the text's length, no whitespace and no capital, and differs only there |
| Favourites.DerivedKeyFixedPoints | src/utils/favourites.ts:39 | a text is its own derived key exactly when it has no whitespace and no capital |
| Favourites.DerivedKeyIdempotent | src/utils/favourites.ts:39 | deriving a key from a derived key changes nothing |
| Favourites.FavouriteKey | src/utils/favourites.ts:39 | a non-empty name is the key; a missing or empty name gives the derived key |
| Favourites.UnnamedTextIsNotItsKey | src/utils/favourites.ts:28-39 | a text with whitespace or a capital saved without a name is not stored under itself, so `isTextInFavourites` does not find it |
| Favourites.FavouritesStore.constructor | src/utils/favourites.ts:3-6 | the store opens over what it already holds |
| Favourites.FavouritesStore.AllKeys | src/utils/favourites.ts:9 | every stored key exactly once |
| Favourites.FavouritesStore.GetFavourites | src/utils/favourites.ts:8-10 | exactly the stored keys, each once |
| Favourites.FavouritesStore.GetFavouritesWithContent | src/utils/favourites.ts:12-23 | one row per stored key, titled by the key and holding its text |
| Favourites.FavouritesStore.GetFavouriteByKey | src/utils/favourites.ts:25-26 | the text stored under the key, and nothing exactly when the key is absent |
| Favourites.FavouritesStore.IsTextInFavourites | src/utils/favourites.ts:28-30 | true exactly when the text is a key; stored texts are not searched |
| Favourites.FavouritesStore.AddFavourite | src/utils/favourites.ts:32-42 | stores the text under its key; `getFavouriteByKey` then returns it and every other key is unchanged |
| Favourites.FavouritesStore.DeleteFavouriteByKey | src/utils/favourites.ts:44-45 | removes exactly that key; every other key is unchanged |
| Favourites.FavouritesStore.DeleteAllFavourites | src/utils/favourites.ts:47-53 | empties the store when confirmed, changes nothing otherwise |
| CharsMap.ObjectKeys | src/constants/charsMap.ts:1-28 | the keys of an object literal are the keys written in it |
| CharsMap.Spread | src/constants/charsMap.ts:67-72 | `{...a, ...b}`: the keys of both, the later object winning on a shared key |
| CharsMap.SpreadIsConcatenation | src/constants/charsMap.ts:67-72 | spreading two literals is the literal of their pairs one after the other |
| CharsMap.LetterKeysInOrder | src/constants/charsMap.ts:1-28 | `letters` lists A to Z, in order |
| CharsMap.LetterKeys | src/constants/charsMap.ts:1-28 | `letters` has exactly the upper-case letters A to Z as keys |
| CharsMap.LettersSpellTheirKey | src/constants/charsMap.ts:1-28 | every letter word starts with its letter |
| CharsMap.LetterWordsDistinct | src/constants/charsMap.ts:1-28 | the 26 letter words are pairwise distinct |
| CharsMap.NumberKeysInOrder | src/constants/charsMap.ts:30-43 | `numbers` lists the ten digits, then "00" and "000" |
| CharsMap.NumberKeys | src/constants/charsMap.ts:30-43 | `numbers` has exactly the keys '0' to '9', '00' and '000' |
| CharsMap.ExtraSpellingExtendsNumbers | src/constants/charsMap.ts:30-57 | `numbersExtraSpelling` has the keys of `numbers`, and each of its words starts with the plain word |
| CharsMap.SymbolKeys | src/constants/charsMap.ts:59-65 | `symbols` has exactly the keys '-', '.', ',' and '_' |
| CharsMap.SymbolsAreDashed | src/constants/charsMap.ts:59-65 | every symbol word has the form "- ... -" |
| CharsMap.PartsDisjoint | src/constants/charsMap.ts:67-72 | letters, numbers, symbols and the space share no key |
| CharsMap.CharsMapIsDisjointUnion | src/constants/charsMap.ts:67-72 | `charsMap` is the union of the three tables and ' ' -> '- break -', no spread overriding anything |
| CharsMap.CharsKeys | src/constants/charsMap.ts:67-72 | `charsMap` spells exactly the upper-case letters, the number keys, the symbols and the space |

## Left out

- Reflection, meaning `Class`, `Annotation` and `Method`: classes and annotations are tags (their qualified and simple names).
- The collaborators of the classification engine are functions fixed when the store is built: `GeneratedSubclasses.unpack`, the `TypeAnnotationMetadataStore`, and the handlers' own `validateTypeMetadata` and `validatePropertyMetadata`, whose bodies are not part of this model.
- `ReplayingTypeValidationContext` is the sequence of problems logged, in order. Replaying it into another context under an owner property path (`visitValidationFailures`) is not modelled.
- The problem texts are built from the problem record when it is reported (`Report`), as the suppliers passed to the problem builder are. The builder itself is not part of this model.
- `CrossBuildInMemoryCache` is a map field. Its thread safety, its weak references and the class cache factory are not modelled.
- The effective-properties `ImmutableSet` is a sequence. Each `DefaultPropertyMetadata` is a new object with identity equality, so the set never merges two of them.
- `DefaultPropertyMetadata`'s getters and `toString` are not modelled, nor `getPropertiesMetadata`.
- TypeMetadataStore.DefaultTypeMetadataStore.constructor: requires the property handlers to have distinct annotation types. Guava's `uniqueIndex` throws otherwise; that case is modelled by `NewDefaultTypeMetadataStore`, which returns the repeated annotation type as a failure.
- `Toml.parse` (tomlj) and the `InputStream` are not modelled: the parser receives the parse result as a value (error count and root table). Tables keep their entries in the order their key sets iterate.
- `StrictVersionParser` and the text of nested arrays and tables inside arrays (`String.valueOf`) are function parameters (`Collaborators`). `oxfordListOf` is a parameter of `ExpectedKeysMessage`.
- `VersionCatalogBuilder` is the `CatalogBuilder` class, recording the registrations it receives. Its own checks of aliases and the `version` and `versionRef` actions of its alias builders are not part of this model; the declared version is recorded as a `VersionDeclaration`.
- `maybeThrowError` is not part of this model; it is taken to throw for every problem, so the first problem ends the parse.
- Problems are kept as structured `CatalogError` values with what they report about. The texts of the catalog problems (short description, reason, solutions) are not rendered, except for the `expectedKeys` message.
- Where a type getter meets a value of another type outside a `try`, tomlj throws `TomlInvalidTypeException`. That happens for `getTable`, for `format.version`, and for the strings of a version table, and the model reports it as `InvalidType(key)`.
- TomlCatalog.Lookup: a TOML table never holds a key twice, but `Entries` does not rule it out; when a key repeats, `Lookup` returns the first entry under it and `Keys` lists the key twice.
- TypeMetadataStore.AnnotationFor: the annotations of a property are a map from category to annotation; the model holds them as a sequence of pairs, which does not rule out a repeated category. When one repeats, `AnnotationFor` returns the first entry, while the modifier checks visit every entry.
- TomlCatalog.Lookup2: tomlj parses `alias + "." + element` as a dotted key path. The model looks the alias up as one key, so an alias that itself contains dots or quotes is not modelled.
- Text.LexLe: `String.compareTo` compares UTF-16 code units. The model compares Dafny characters (Unicode scalar values), so the order of characters outside the Basic Multilingual Plane is not modelled.
- The rest of `Test.java` is not modelled: fork-option delegation, test execution, workers, previous failures, test framework selection and JVM version detection.
- The `Spec`, `Closure` and `Iterable` overloads of `include` and `exclude` are not modelled; patterns are added one at a time. `setExecutable(Object)` is not modelled.
- `getIncludes()` and `getExcludes()` are not modelled. They are the pattern set's `LinkedHashSet`s, held as sequences without duplicates in insertion order.
- The toolchain launcher is only its executable path. The current JVM's java executable (`Jvm.current()`) is a parameter of `GetEffectiveExecutable`. The superclass's no-match reasons are a parameter of `GetNoMatchingTestErrorReasons`.
- `os.name` is not read: whether the system is Windows is the parameter `isWindows`.
- MMKV persistence and encryption and the `async`/`Promise` wrapping of the favourites functions are not modelled. The store is a map field, and the order of `getAllKeys()` is left open.
- Favourites.ToLowerCase: lowers the ASCII letters only. JavaScript's `toLowerCase` also lowers other scripts.
- `replaceCharWithSpellWord` and `isBreak`, which look characters up in the spelling tables, are not part of this model. Neither are the screens, components and hooks of the app.
- The `as const` typing of `charsMap` and the `CharsMap` type are not modelled.
