/**
 * Gradle's `TomlCatalogFileParser`: the checks and registrations it makes on
 * a version catalog once the TOML text has been parsed. It checks the
 * top-level elements and the format version, then reads the `libraries`,
 * `plugins`, `bundles` and `versions` tables alias by alias and registers
 * each declaration with the catalog builder. The first problem found stops
 * the parse; what was registered before it stays registered.
 *
 * The TOML tree is a value given to the parser. Its tables keep their keys in
 * the order the TOML parser's key sets iterate them. The rich-version parser
 * and the text of nested arrays and tables are collaborators, passed in as
 * functions. The catalog builder records the registrations it receives.
 */
module TomlCatalog {
  import opened Wrappers
  import opened Text

  /** A TOML value: a string, a boolean, an array, a table, or any other scalar. */
  datatype TomlValue =
    | TString(s: string)
    | TBool(b: bool)
    | TArray(items: seq<TomlValue>)
    | TTable(entries: seq<(string, TomlValue)>)
    | TOther(className: string, text: string)

  /** The entries of a table, in key-set order. */
  type Entries = seq<(string, TomlValue)>

  /** `keySet()`: the keys of a table, in order. */
  function Keys(entries: Entries): (r: seq<string>)
    ensures |r| == |entries|
    ensures forall i :: 0 <= i < |entries| ==> r[i] == entries[i].0
  {
    if entries == [] then [] else [entries[0].0] + Keys(entries[1..])
  }

  /** `get(key)`: the value stored under a key, if any. */
  function Lookup(entries: Entries, key: string): (r: Option<TomlValue>)
    ensures r.None? <==> key !in Keys(entries)
    ensures r.Some? ==> exists i :: 0 <= i < |entries| && entries[i] == (key, r.value)
  {
    if entries == [] then None
    else if entries[0].0 == key then
      assert entries[0] == (key, entries[0].1);
      Some(entries[0].1)
    else
      var r := Lookup(entries[1..], key);
      assert r.Some? ==> exists i :: 0 <= i < |entries| && entries[i] == (key, r.value) by {
        if r.Some? {
          var i :| 0 <= i < |entries[1..]| && entries[1..][i] == (key, r.value);
          assert entries[i + 1] == (key, r.value);
        }
      }
      r
  }

  /** `get(outer + "." + inner)`: a dotted lookup; through anything but a table there is nothing. */
  function Lookup2(entries: Entries, outer: string, inner: string): (r: Option<TomlValue>)
    ensures r.Some? <==> Lookup(entries, outer).Some? && Lookup(entries, outer).value.TTable?
                         && inner in Keys(Lookup(entries, outer).value.entries)
    ensures r.Some? ==> exists i, j :: 0 <= i < |entries| && entries[i].0 == outer && entries[i].1.TTable?
                         && 0 <= j < |entries[i].1.entries| && entries[i].1.entries[j] == (inner, r.value)
  {
    match Lookup(entries, outer)
    case Some(TTable(nested)) => Lookup(nested, inner)
    case _ => None
  }

  /** What a typed getter of the TOML parser finds: nothing, a value of the type, or a value of another type (it throws). */
  datatype Typed<+T> = Absent | Present(value: T) | WrongType

  function AsString(v: Option<TomlValue>): (r: Typed<string>)
    ensures r.Absent? <==> v.None?
    ensures r.Present? <==> v.Some? && v.value.TString?
    ensures r.Present? ==> r.value == v.value.s
  {
    match v
    case None => Absent
    case Some(TString(s)) => Present(s)
    case Some(_) => WrongType
  }

  function AsTable(v: Option<TomlValue>): (r: Typed<Entries>)
    ensures r.Absent? <==> v.None?
    ensures r.Present? <==> v.Some? && v.value.TTable?
    ensures r.Present? ==> r.value == v.value.entries
  {
    match v
    case None => Absent
    case Some(TTable(entries)) => Present(entries)
    case Some(_) => WrongType
  }

  function AsArray(v: Option<TomlValue>): (r: Typed<seq<TomlValue>>)
    ensures r.Absent? <==> v.None?
    ensures r.Present? <==> v.Some? && v.value.TArray?
    ensures r.Present? ==> r.value == v.value.items
  {
    match v
    case None => Absent
    case Some(TArray(items)) => Present(items)
    case Some(_) => WrongType
  }

  function AsBoolean(v: Option<TomlValue>): (r: Typed<bool>)
    ensures r.Absent? <==> v.None?
    ensures r.Present? <==> v.Some? && v.value.TBool?
    ensures r.Present? ==> r.value == v.value.b
  {
    match v
    case None => Absent
    case Some(TBool(b)) => Present(b)
    case Some(_) => WrongType
  }

  /** `getClass().getSimpleName()` of a value the TOML parser hands out. */
  function ClassNameOf(v: TomlValue): (r: string)
    ensures v.TString? ==> r == "String"
    ensures v.TBool? ==> r == "Boolean"
    ensures v.TArray? ==> r == "MutableTomlArray"
    ensures v.TTable? ==> r == "MutableTomlTable"
    ensures v.TOther? ==> r == v.className
  {
    match v
    case TString(_) => "String"
    case TBool(_) => "Boolean"
    case TArray(_) => "MutableTomlArray"
    case TTable(_) => "MutableTomlTable"
    case TOther(className, _) => className
  }

  /** The result of `StrictVersionParser.parse`: the parts of a rich version, each possibly absent. */
  datatype RichVersion = RichVersion(require: Option<string>, strictly: Option<string>, prefer: Option<string>)

  /** The collaborators of the parser that are not part of this model. */
  datatype Collaborators = Collaborators(
    strictVersionParser: string -> RichVersion,
    nestedToString: TomlValue -> string)

  /** `String.valueOf` on an element of a TOML array. */
  function ValueOf(c: Collaborators, v: TomlValue): (r: string)
    ensures v.TString? ==> r == v.s
    ensures v.TBool? ==> (r == "true" <==> v.b) && (r == "false" <==> !v.b)
    ensures v.TOther? ==> r == v.text
    ensures v.TArray? || v.TTable? ==> r == c.nestedToString(v)
  {
    match v
    case TString(s) => s
    case TBool(b) => if b then "true" else "false"
    case TOther(_, text) => text
    case _ => c.nestedToString(v)
  }

  /** The declarations whose `expectedKeys` check can fail, naming the alias. */
  datatype KeysContext =
    | LibraryDeclarationContext(alias: string)
    | PluginDeclarationContext(alias: string)
    | VersionDeclarationContext(alias: string)

  /** The `context` text of an `expectedKeys` call. */
  function ContextText(context: KeysContext): string
  {
    match context
    case LibraryDeclarationContext(alias) => "library declaration '" + alias + "'"
    case PluginDeclarationContext(alias) => "plugin declaration '" + alias + "'"
    case VersionDeclarationContext(alias) => "version declaration of alias '" + alias + "'"
  }

  /** A problem of the TOML file, recorded with what it is reported about. */
  datatype CatalogError =
    | ParseFailed(errorCount: nat)
    | UnsupportedFormatVersion(format: string)
    | UnknownTopLevelElements(keys: seq<string>)
    | InvalidDependencyNotation(alias: string, notation: string)
    | InvalidPluginNotation(alias: string, notation: string)
    | InvalidModuleNotation(alias: string, moduleNotation: string)
    | EmptyValue(alias: string, member: string)
    | UnexpectedType(kind: string, name: string, typeLabel: string)
    | UnexpectedVersionSyntax(alias: string, className: string)
    | MissingGroup(alias: string)
    | MissingName(alias: string)
    | MissingPluginId(alias: string)
    | UnexpectedKeys(context: KeysContext, allowed: seq<string>, unexpected: seq<string>)
    | InvalidType(key: string)

  /** The catalog problem ids. */
  datatype ProblemId = TomlSyntaxError | UnsupportedFormatVersionId | InvalidDependencyNotationId
                     | InvalidPluginNotationId | InvalidModuleNotationId

  /**
   * The problem id an error is reported under. The unexpected keys and the
   * values of the wrong type inside version tables are not catalog problems:
   * they surface as the exceptions `InvalidUserDataException` and
   * `TomlInvalidTypeException`.
   */
  function ProblemIdOf(e: CatalogError): (r: Option<ProblemId>)
    ensures r.None? <==> e.UnexpectedKeys? || e.InvalidType?
    ensures r == Some(UnsupportedFormatVersionId) <==> e.UnsupportedFormatVersion?
    ensures r == Some(InvalidDependencyNotationId) <==> e.InvalidDependencyNotation?
    ensures r == Some(InvalidPluginNotationId) <==> e.InvalidPluginNotation?
    ensures r == Some(InvalidModuleNotationId) <==> e.InvalidModuleNotation?
  {
    match e
    case UnsupportedFormatVersion(_) => Some(UnsupportedFormatVersionId)
    case InvalidDependencyNotation(_, _) => Some(InvalidDependencyNotationId)
    case InvalidPluginNotation(_, _) => Some(InvalidPluginNotationId)
    case InvalidModuleNotation(_, _) => Some(InvalidModuleNotationId)
    case UnexpectedKeys(_, _, _) => None
    case InvalidType(_) => None
    case _ => Some(TomlSyntaxError)
  }

  const CurrentVersion := "1.1"
  const TopLevelElements := ["metadata", "libraries", "bundles", "versions", "plugins"]
  const PluginCoordinates := ["id", "version"]
  const LibraryCoordinates := ["group", "name", "version", "module"]
  const VersionKeys := ["ref", "require", "strictly", "prefer", "reject", "rejectAll"]

  /** The keys of `keys` outside `allowed`, in order. */
  function Outside(keys: seq<string>, allowed: seq<string>): (r: seq<string>)
    ensures forall k :: k in r <==> k in keys && k !in allowed
  {
    if keys == [] then []
    else (if keys[0] in allowed then [] else [keys[0]]) + Outside(keys[1..], allowed)
  }

  /** `expectedKeys`: a table may hold only the allowed keys. */
  function ExpectedKeys(entries: Entries, allowed: seq<string>, context: KeysContext): (r: Outcome<CatalogError>)
    ensures r.Pass? <==> forall k :: k in Keys(entries) ==> k in allowed
    ensures r.Fail? ==> r.error == UnexpectedKeys(context, allowed, Outside(Keys(entries), allowed))
    ensures r.Fail? ==> Outside(Keys(entries), allowed) != []
  {
    var unexpected := Outside(Keys(entries), allowed);
    if unexpected == [] then Pass
    else
      assert unexpected[0] in unexpected;
      Fail(UnexpectedKeys(context, allowed, unexpected))
  }

  /**
   * The message of the exception `expectedKeys` throws; `oxfordListOf` is the
   * list rendering of the problem reporting utilities.
   */
  function ExpectedKeysMessage(e: CatalogError, oxfordListOf: (seq<string>, string) -> string): (r: string)
    requires e.UnexpectedKeys?
    ensures "On " + ContextText(e.context) + " expected to find any of " <= r
    ensures var tail := oxfordListOf(e.unexpected, "and") + "."; |tail| <= |r| && r[|r| - |tail|..] == tail
  {
    "On " + ContextText(e.context) + " expected to find any of " + oxfordListOf(e.allowed, "or")
    + " but found unexpected key" + (if |e.unexpected| > 1 then "s " else " ") + oxfordListOf(e.unexpected, "and") + "."
  }

  /** One unexpected key is named a "key", several are named "keys". */
  lemma ExpectedKeysWording(entries: Entries, allowed: seq<string>, context: KeysContext,
                            oxfordListOf: (seq<string>, string) -> string)
    requires ExpectedKeys(entries, allowed, context).Fail?
    ensures var e := ExpectedKeys(entries, allowed, context).error;
      var head := "On " + ContextText(context) + " expected to find any of " + oxfordListOf(allowed, "or")
                  + " but found unexpected ";
      ExpectedKeysMessage(e, oxfordListOf)
        == head + (if |e.unexpected| == 1 then "key " else "keys ") + oxfordListOf(e.unexpected, "and") + "."
  {
  }

  /** `notEmpty`: nothing stays nothing, the empty string is refused, any other string is kept. */
  function NotEmpty(value: Option<string>, member: string, alias: string): (r: Result<Option<string>, CatalogError>)
    ensures r.Failure? <==> value == Some("")
    ensures r.Failure? ==> r.error == EmptyValue(alias, member)
    ensures r.Success? ==> r.value == value
  {
    if value == Some("") then Failure(EmptyValue(alias, member)) else Success(value)
  }

  /** `notEmpty` on a part of a colon notation, which is never absent. */
  function NotEmptyPart(part: string, member: string, alias: string): (r: Result<string, CatalogError>)
    ensures r.Failure? <==> part == ""
    ensures r.Failure? ==> r.error == EmptyValue(alias, member)
    ensures r.Success? ==> r.value == part
  {
    if part == "" then Failure(EmptyValue(alias, member)) else Success(part)
  }

  /** `expectString(kind, name, table, element)`: the string under `name.element`, checked non-empty. */
  function ExpectString(kind: string, name: string, table: Entries, element: string): (r: Result<Option<string>, CatalogError>)
    ensures var v := Lookup2(table, name, element);
      (r.Failure? <==> (v.Some? && !v.value.TString?) || v == Some(TString("")))
      && (v.Some? && !v.value.TString? ==> r == Failure(UnexpectedType(kind, name, "a string")))
      && (v == Some(TString("")) ==> r == Failure(EmptyValue(name, element)))
      && (r.Success? ==> (r.value.None? <==> v.None?) && (r.value.Some? ==> v == Some(TString(r.value.value)) && r.value.value != ""))
  {
    match AsString(Lookup2(table, name, element))
    case WrongType => Failure(UnexpectedType(kind, name, "a string"))
    case Absent => Success(None)
    case Present(s) => NotEmpty(Some(s), element, name)
  }

  /** `notEmpty(table.getString(key), member, alias)` on the value under `key` of a version table; a wrong type is not caught. */
  function VersionString(value: Option<TomlValue>, key: string, member: string, alias: string): (r: Result<Option<string>, CatalogError>)
    ensures r.Failure? <==> (value.Some? && !value.value.TString?) || value == Some(TString(""))
    ensures value.Some? && !value.value.TString? ==> r == Failure(InvalidType(key))
    ensures value == Some(TString("")) ==> r == Failure(EmptyValue(alias, member))
    ensures r.Success? ==> (r.value.None? <==> value.None?) && (r.value.Some? ==> value == Some(TString(r.value.value)) && r.value.value != "")
  {
    match AsString(value)
    case WrongType => Failure(InvalidType(key))
    case Absent => Success(None)
    case Present(s) => NotEmpty(Some(s), member, alias)
  }

  /** The rejected versions of an array: each element's text, none of them empty. */
  function RejectedVersions(c: Collaborators, items: seq<TomlValue>, alias: string): (r: Result<seq<string>, CatalogError>)
    ensures r.Success? ==> |r.value| == |items| && forall i :: 0 <= i < |items| ==> r.value[i] == ValueOf(c, items[i]) != ""
    ensures r.Failure? <==> exists i :: 0 <= i < |items| && ValueOf(c, items[i]) == ""
    ensures r.Failure? ==> r.error == EmptyValue(alias, "rejected version")
  {
    if items == [] then Success([])
    else
      var v := ValueOf(c, items[0]);
      var rest := RejectedVersions(c, items[1..], alias);
      assert forall i :: 1 <= i < |items| ==> items[i] == items[1..][i - 1];
      if v == "" then Failure(EmptyValue(alias, "rejected version"))
      else if rest.Failure? then rest
      else
        assert forall i :: 1 <= i < |items| ==> ValueOf(c, items[i]) == rest.value[i - 1];
        Success([v] + rest.value)
  }

  /** What the calls made on the version constraint builder record, in the order they are made. */
  datatype VersionSpec = VersionSpec(
    require: Option<string>,
    strictly: Option<string>,
    prefer: Option<string>,
    reject: Option<seq<string>>,
    rejectAll: bool)

  /** How a library or plugin alias is given its version: by reference, or by a constraint. */
  datatype VersionDeclaration = ByReference(ref: string) | ByConstraint(spec: VersionSpec)

  /** The locals the parse methods gather before they register. */
  datatype VersionFields = VersionFields(
    versionRef: Option<string>,
    require: Option<string>,
    strictly: Option<string>,
    prefer: Option<string>,
    rejectedVersions: Option<seq<string>>,
    rejectAll: Option<bool>)

  const NoVersion := VersionFields(None, None, None, None, None, None)

  /** A registration made on the catalog builder. */
  datatype Registration =
    | LibraryAlias(alias: string, group: string, name: string, version: VersionDeclaration)
    | PluginAlias(alias: string, id: string, version: VersionDeclaration)
    | VersionAlias(alias: string, spec: VersionSpec)
    | BundleAlias(alias: string, members: seq<string>)

  /** The body of the version action: each present part is set, and `rejectAll` only when it is true. */
  function ConstraintOf(f: VersionFields): (r: VersionSpec)
    ensures r.require == f.require && r.strictly == f.strictly && r.prefer == f.prefer
    ensures r.reject == f.rejectedVersions
    ensures r.rejectAll <==> f.rejectAll == Some(true)
  {
    VersionSpec(f.require, f.strictly, f.prefer, f.rejectedVersions, f.rejectAll == Some(true))
  }

  /** What `registerDependency` and `registerPlugin` register: a present reference wins over every constraint part. */
  function VersionDeclarationOf(f: VersionFields): (r: VersionDeclaration)
    ensures f.versionRef.Some? <==> r.ByReference?
    ensures r.ByReference? ==> r.ref == f.versionRef.value
    ensures r.ByConstraint? ==> r.spec == ConstraintOf(f)
  {
    if f.versionRef.Some? then ByReference(f.versionRef.value) else ByConstraint(ConstraintOf(f))
  }

  /** The version given by a rich-version string. */
  function RichFields(c: Collaborators, version: string): VersionFields
  {
    var rich := c.strictVersionParser(version);
    VersionFields(None, rich.require, rich.strictly, rich.prefer, None, None)
  }

  /** The entries of a version table that give its constraints. */
  datatype ConstraintEntries = ConstraintEntries(
    require: Option<TomlValue>,
    prefer: Option<TomlValue>,
    strictly: Option<TomlValue>,
    reject: Option<TomlValue>,
    rejectAll: Option<TomlValue>)

  function ConstraintEntriesOf(table: Entries): ConstraintEntries
  {
    ConstraintEntries(Lookup(table, "require"), Lookup(table, "prefer"), Lookup(table, "strictly"),
                      Lookup(table, "reject"), Lookup(table, "rejectAll"))
  }

  /** The `require`, `prefer`, `strictly`, `reject` and `rejectAll` entries of a version table, read in that order. */
  function ConstraintTable(c: Collaborators, alias: string, e: ConstraintEntries, versionRef: Option<string>): (r: Result<VersionFields, CatalogError>)
    ensures var require := VersionString(e.require, "require", "required version", alias);
      var prefer := VersionString(e.prefer, "prefer", "preferred version", alias);
      var strictly := VersionString(e.strictly, "strictly", "strict version", alias);
      var reject := AsArray(e.reject);
      var rejectAll := AsBoolean(e.rejectAll);
      (r.Success? <==> require.Success? && prefer.Success? && strictly.Success? && !reject.WrongType?
                       && (reject.Present? ==> RejectedVersions(c, reject.value, alias).Success?) && !rejectAll.WrongType?)
      && (r.Success? ==> r.value.versionRef == versionRef && r.value.require == require.value
                         && r.value.prefer == prefer.value && r.value.strictly == strictly.value
                         && (r.value.rejectedVersions.Some? <==> reject.Present?)
                         && (reject.Present? ==> r.value.rejectedVersions.value == RejectedVersions(c, reject.value, alias).value)
                         && (r.value.rejectAll.Some? <==> rejectAll.Present?)
                         && (rejectAll.Present? ==> r.value.rejectAll.value == rejectAll.value))
    ensures r.Failure? ==> r.error.InvalidType? || r.error == UnexpectedType("alias", alias, "an array")
                           || r.error == UnexpectedType("alias", alias, "a boolean")
                           || (r.error.EmptyValue? && r.error.alias == alias)
  {
    var require :- VersionString(e.require, "require", "required version", alias);
    var prefer :- VersionString(e.prefer, "prefer", "preferred version", alias);
    var strictly :- VersionString(e.strictly, "strictly", "strict version", alias);
    var rejected :- match AsArray(e.reject)
      case WrongType => Failure(UnexpectedType("alias", alias, "an array"))
      case Absent => Success(None)
      case Present(items) =>
        var versions :- RejectedVersions(c, items, alias);
        Success(Some(versions));
    var rejectAll :- match AsBoolean(e.rejectAll)
      case WrongType => Failure(UnexpectedType("alias", alias, "a boolean"))
      case Absent => Success(None)
      case Present(b) => Success(Some(b));
    Success(VersionFields(versionRef, require, strictly, prefer, rejected, rejectAll))
  }

  /** The `version` of a library or plugin table: a rich-version string, a version table, or nothing. */
  function DeclaredVersion(c: Collaborators, alias: string, version: Option<TomlValue>): (r: Result<VersionFields, CatalogError>)
    ensures version.None? ==> r == Success(NoVersion)
    ensures version.Some? && version.value.TString? ==> r == Success(RichFields(c, version.value.s))
    ensures version.Some? && version.value.TTable? ==>
      var table := version.value.entries;
      var keys := ExpectedKeys(table, VersionKeys, VersionDeclarationContext(alias));
      var versionRef := VersionString(Lookup(table, "ref"), "ref", "version reference", alias);
      (keys.Fail? ==> r == Failure(keys.error))
      && (keys.Pass? && versionRef.Failure? ==> r == Failure(versionRef.error))
      && (keys.Pass? && versionRef.Success? ==> r == ConstraintTable(c, alias, ConstraintEntriesOf(table), versionRef.value))
      && (r.Success? ==> forall k :: k in Keys(table) ==> k in VersionKeys)
    ensures version.Some? && !version.value.TString? && !version.value.TTable? ==>
      r == Failure(UnexpectedVersionSyntax(alias, ClassNameOf(version.value)))
  {
    match version
    case None => Success(NoVersion)
    case Some(TString(s)) => Success(RichFields(c, s))
    case Some(TTable(table)) =>
      :- ExpectedKeys(table, VersionKeys, VersionDeclarationContext(alias));
      var versionRef :- VersionString(Lookup(table, "ref"), "ref", "version reference", alias);
      ConstraintTable(c, alias, ConstraintEntriesOf(table), versionRef)
    case Some(other) => Failure(UnexpectedVersionSyntax(alias, ClassNameOf(other)))
  }

  /** The group and name a `module` notation gives: exactly two parts, neither empty. */
  function ModuleNotation(alias: string, notation: string): (r: Result<(string, string), CatalogError>)
    ensures r == Failure(InvalidModuleNotation(alias, notation)) <==> CountChar(notation, ':') != 1
    ensures CountChar(notation, ':') == 1 ==>
      var parts := SplitTrim(notation, ':');
      (parts[0] == "" ==> r == Failure(EmptyValue(alias, "group")))
      && (parts[0] != "" && parts[1] == "" ==> r == Failure(EmptyValue(alias, "name")))
      && (parts[0] != "" && parts[1] != "" ==> r == Success((parts[0], parts[1])))
  {
    var parts := SplitTrim(notation, ':');
    if |parts| == 2 then
      var group :- NotEmptyPart(parts[0], "group", alias);
      var name :- NotEmptyPart(parts[1], "name", alias);
      Success((group, name))
    else Failure(InvalidModuleNotation(alias, notation))
  }

  /** A library declared by a `group:name:version` string: exactly three parts, none empty. */
  function LibraryNotation(c: Collaborators, alias: string, notation: string): (r: Result<Registration, CatalogError>)
    ensures r == Failure(InvalidDependencyNotation(alias, notation)) <==> CountChar(notation, ':') != 2
    ensures CountChar(notation, ':') == 2 ==>
      var parts := SplitTrim(notation, ':');
      (parts[0] == "" ==> r == Failure(EmptyValue(alias, "group")))
      && (parts[0] != "" && parts[1] == "" ==> r == Failure(EmptyValue(alias, "name")))
      && (parts[0] != "" && parts[1] != "" && parts[2] == "" ==> r == Failure(EmptyValue(alias, "version")))
      && (parts[0] != "" && parts[1] != "" && parts[2] != "" ==>
            r == Success(LibraryAlias(alias, parts[0], parts[1], ByConstraint(ConstraintOf(RichFields(c, parts[2]))))))
  {
    var parts := SplitTrim(notation, ':');
    if |parts| == 3 then
      var group :- NotEmptyPart(parts[0], "group", alias);
      var name :- NotEmptyPart(parts[1], "name", alias);
      var version :- NotEmptyPart(parts[2], "version", alias);
      Success(LibraryAlias(alias, group, name, VersionDeclarationOf(RichFields(c, version))))
    else Failure(InvalidDependencyNotation(alias, notation))
  }

  /**
   * The group and name of a library table: its `group` and `name` entries,
   * unless a `module` entry is present, whose notation then gives both.
   */
  function DeclaredCoordinates(alias: string, libraries: Entries): (r: Result<(Option<string>, Option<string>), CatalogError>)
    ensures var group := ExpectString("alias", alias, libraries, "group");
      var name := ExpectString("alias", alias, libraries, "name");
      var mi := ExpectString("alias", alias, libraries, "module");
      group.Success? && name.Success? && mi.Success? ==>
        (mi.value.None? ==> r == Success((group.value, name.value)))
        && (mi.value.Some? && ModuleNotation(alias, mi.value.value).Success? ==>
              r == Success((Some(ModuleNotation(alias, mi.value.value).value.0), Some(ModuleNotation(alias, mi.value.value).value.1))))
  {
    var group :- ExpectString("alias", alias, libraries, "group");
    var name :- ExpectString("alias", alias, libraries, "name");
    var mi :- ExpectString("alias", alias, libraries, "module");
    if mi.Some? then
      var gn :- ModuleNotation(alias, mi.value);
      Success((Some(gn.0), Some(gn.1)))
    else Success((group, name))
  }

  /** `parseLibrary`: the registration of one alias of the `libraries` table, or the problem that stops it. */
  function ParseLibrary(c: Collaborators, alias: string, libraries: Entries, gav: TomlValue): (r: Result<Registration, CatalogError>)
    ensures r.Success? ==> r.value.LibraryAlias? && r.value.alias == alias
    ensures gav.TString? ==> r == LibraryNotation(c, alias, gav.s)
    ensures !gav.TString? ==>
      var keys := if gav.TTable? then ExpectedKeys(gav.entries, LibraryCoordinates, LibraryDeclarationContext(alias)) else Pass;
      var coordinates := DeclaredCoordinates(alias, libraries);
      var fields := DeclaredVersion(c, alias, Lookup2(libraries, alias, "version"));
      (keys.Fail? ==> r == Failure(keys.error))
      && (keys.Pass? && coordinates.Failure? ==> r == Failure(coordinates.error))
      && (keys.Pass? && coordinates.Success? && fields.Failure? ==> r == Failure(fields.error))
      && (keys.Pass? && coordinates.Success? && fields.Success? ==>
            (coordinates.value.0.None? ==> r == Failure(MissingGroup(alias)))
            && (coordinates.value.0.Some? && coordinates.value.1.None? ==> r == Failure(MissingName(alias)))
            && (coordinates.value.0.Some? && coordinates.value.1.Some? ==>
                  r == Success(LibraryAlias(alias, coordinates.value.0.value, coordinates.value.1.value,
                                            VersionDeclarationOf(fields.value)))))
  {
    if gav.TString? then LibraryNotation(c, alias, gav.s)
    else
      :- if gav.TTable? then ExpectedKeys(gav.entries, LibraryCoordinates, LibraryDeclarationContext(alias)) else Pass;
      var coordinates :- DeclaredCoordinates(alias, libraries);
      var fields :- DeclaredVersion(c, alias, Lookup2(libraries, alias, "version"));
      if coordinates.0.None? then Failure(MissingGroup(alias))
      else if coordinates.1.None? then Failure(MissingName(alias))
      else Success(LibraryAlias(alias, coordinates.0.value, coordinates.1.value, VersionDeclarationOf(fields)))
  }

  /** A plugin declared by an `id:version` string: exactly two parts, neither empty. */
  function PluginNotation(c: Collaborators, alias: string, notation: string): (r: Result<Registration, CatalogError>)
    ensures r == Failure(InvalidPluginNotation(alias, notation)) <==> CountChar(notation, ':') != 1
    ensures CountChar(notation, ':') == 1 ==>
      var parts := SplitTrim(notation, ':');
      (parts[0] == "" ==> r == Failure(EmptyValue(alias, "id")))
      && (parts[0] != "" && parts[1] == "" ==> r == Failure(EmptyValue(alias, "version")))
      && (parts[0] != "" && parts[1] != "" ==>
            r == Success(PluginAlias(alias, parts[0], ByConstraint(ConstraintOf(RichFields(c, parts[1]))))))
  {
    var parts := SplitTrim(notation, ':');
    if |parts| == 2 then
      var id :- NotEmptyPart(parts[0], "id", alias);
      var version :- NotEmptyPart(parts[1], "version", alias);
      Success(PluginAlias(alias, id, VersionDeclarationOf(RichFields(c, version))))
    else Failure(InvalidPluginNotation(alias, notation))
  }

  /** `parsePlugin`: the registration of one alias of the `plugins` table, or the problem that stops it. */
  function ParsePlugin(c: Collaborators, alias: string, plugins: Entries, coordinates: TomlValue): (r: Result<Registration, CatalogError>)
    ensures r.Success? ==> r.value.PluginAlias? && r.value.alias == alias
    ensures coordinates.TString? ==> r == PluginNotation(c, alias, coordinates.s)
    ensures !coordinates.TString? ==>
      var keys := if coordinates.TTable? then ExpectedKeys(coordinates.entries, PluginCoordinates, PluginDeclarationContext(alias)) else Pass;
      var id := ExpectString("alias", alias, plugins, "id");
      var fields := DeclaredVersion(c, alias, Lookup2(plugins, alias, "version"));
      (keys.Fail? ==> r == Failure(keys.error))
      && (keys.Pass? && id.Failure? ==> r == Failure(id.error))
      && (keys.Pass? && id.Success? && fields.Failure? ==> r == Failure(fields.error))
      && (keys.Pass? && id.Success? && fields.Success? ==>
            (id.value.None? ==> r == Failure(MissingPluginId(alias)))
            && (id.value.Some? ==> r == Success(PluginAlias(alias, id.value.value, VersionDeclarationOf(fields.value)))))
  {
    if coordinates.TString? then PluginNotation(c, alias, coordinates.s)
    else
      :- if coordinates.TTable? then ExpectedKeys(coordinates.entries, PluginCoordinates, PluginDeclarationContext(alias)) else Pass;
      var id :- ExpectString("alias", alias, plugins, "id");
      var fields :- DeclaredVersion(c, alias, Lookup2(plugins, alias, "version"));
      if id.None? then Failure(MissingPluginId(alias))
      else Success(PluginAlias(alias, id.value, VersionDeclarationOf(fields)))
  }

  /** `parseVersion`: the registration of one alias of the `versions` table, or the problem that stops it. */
  function ParseVersion(c: Collaborators, alias: string, version: TomlValue): (r: Result<Registration, CatalogError>)
    ensures r.Success? ==> r.value.VersionAlias? && r.value.alias == alias
    ensures version.TString? ==>
      (version.s == "" ==> r == Failure(EmptyValue(alias, "version")))
      && (version.s != "" ==> r == Success(VersionAlias(alias, ConstraintOf(RichFields(c, version.s)))))
    ensures version.TTable? ==>
      var fields := ConstraintTable(c, alias, ConstraintEntriesOf(version.entries), None);
      (fields.Failure? ==> r == Failure(fields.error))
      && (fields.Success? ==> r == Success(VersionAlias(alias, ConstraintOf(fields.value))))
    ensures !version.TString? && !version.TTable? ==> r == Failure(UnexpectedVersionSyntax(alias, ClassNameOf(version)))
  {
    match version
    case TString(s) =>
      var require :- NotEmptyPart(s, "version", alias);
      Success(VersionAlias(alias, ConstraintOf(RichFields(c, require))))
    case TTable(table) =>
      var fields :- ConstraintTable(c, alias, ConstraintEntriesOf(table), None);
      Success(VersionAlias(alias, ConstraintOf(fields)))
    case _ => Failure(UnexpectedVersionSyntax(alias, ClassNameOf(version)))
  }

  /** One bundle: the texts of the elements of its array. */
  function ParseBundle(c: Collaborators, alias: string, bundle: TomlValue): (r: Result<Registration, CatalogError>)
    ensures r.Success? ==> r.value.BundleAlias? && r.value.alias == alias
    ensures r.Success? <==> bundle.TArray?
    ensures r.Success? ==> |r.value.members| == |bundle.items|
                           && forall i :: 0 <= i < |bundle.items| ==> r.value.members[i] == ValueOf(c, bundle.items[i])
    ensures r.Failure? ==> r.error == UnexpectedType("bundle", alias, "an array")
  {
    match bundle
    case TArray(items) => Success(BundleAlias(alias, seq(|items|, i requires 0 <= i < |items| => ValueOf(c, items[i]))))
    case _ => Failure(UnexpectedType("bundle", alias, "an array"))
  }

  /**
   * A library table whose version table holds a reference registers that
   * reference, whatever constraints the version table gives besides.
   */
  lemma LibraryVersionReference(c: Collaborators, alias: string, libraries: Entries, gav: TomlValue,
                                table: Entries, ref: string)
    requires !gav.TString?
    requires Lookup2(libraries, alias, "version") == Some(TTable(table))
    requires Lookup(table, "ref") == Some(TString(ref))
    requires ParseLibrary(c, alias, libraries, gav).Success?
    ensures ParseLibrary(c, alias, libraries, gav).value.version == ByReference(ref)
  {
    var fields := DeclaredVersion(c, alias, Some(TTable(table)));
    assert fields.Success? && fields.value.versionRef == Some(ref);
  }

  /**
   * A plugin table whose version table holds a reference registers that
   * reference, whatever constraints the version table gives besides.
   */
  lemma PluginVersionReference(c: Collaborators, alias: string, plugins: Entries, coordinates: TomlValue,
                               table: Entries, ref: string)
    requires !coordinates.TString?
    requires Lookup2(plugins, alias, "version") == Some(TTable(table))
    requires Lookup(table, "ref") == Some(TString(ref))
    requires ParsePlugin(c, alias, plugins, coordinates).Success?
    ensures ParsePlugin(c, alias, plugins, coordinates).value.version == ByReference(ref)
  {
    var fields := DeclaredVersion(c, alias, Some(TTable(table)));
    assert fields.Success? && fields.value.versionRef == Some(ref);
  }

  /** A bundle written as an array of strings registers those strings, in order. */
  lemma BundleOfStrings(c: Collaborators, alias: string, members: seq<string>)
    ensures var items := seq(|members|, i requires 0 <= i < |members| => TString(members[i]));
      ParseBundle(c, alias, TArray(items)) == Success(BundleAlias(alias, members))
  {
    var items := seq(|members|, i requires 0 <= i < |members| => TString(members[i]));
    var r := ParseBundle(c, alias, TArray(items));
    assert r.value.members == members;
  }

  /** The four tables of aliases, in the order the parser reads them. */
  datatype Section = Libraries | Plugins | Bundles | Versions

  /** Whether a registration is of the kind a section makes. */
  predicate OfSection(section: Section, r: Registration)
  {
    match section
    case Libraries => r.LibraryAlias?
    case Plugins => r.PluginAlias?
    case Bundles => r.BundleAlias?
    case Versions => r.VersionAlias?
  }

  /** `parseLibrary`, `parsePlugin`, `parseVersion` or the bundle step, for an alias of the section's table. */
  function ParseAlias(c: Collaborators, section: Section, alias: string, table: Entries): (r: Result<Registration, CatalogError>)
    requires alias in Keys(table)
    ensures r.Success? ==> r.value.alias == alias && OfSection(section, r.value)
  {
    var value := Lookup(table, alias).value;
    match section
    case Libraries => ParseLibrary(c, alias, table, value)
    case Plugins => ParsePlugin(c, alias, table, value)
    case Bundles => ParseBundle(c, alias, value)
    case Versions => ParseVersion(c, alias, value)
  }

  /** The step that parses one alias of a section's table. */
  function AliasParser(c: Collaborators, section: Section, table: Entries): string --> Result<Registration, CatalogError>
  {
    alias requires alias in Keys(table) => ParseAlias(c, section, alias, table)
  }

  /** The order a section's aliases are processed in: by length for all but the bundles, which go lexicographically. */
  function OrderOf(section: Section): Order
  {
    if section == Bundles then Lexicographic else ByLength
  }

  /** The keys of a section's table, in the order they are processed. */
  function SortedAliases(section: Section, table: Entries): (r: seq<string>)
    ensures Sorted(OrderOf(section), r) && multiset(r) == multiset(Keys(table))
    ensures forall a :: a in r ==> a in Keys(table)
    ensures section != Bundles ==> forall n: nat :: WithLength(r, n) == WithLength(Keys(table), n)
  {
    var r := Sort(OrderOf(section), Keys(table));
    assert forall a :: a in r ==> a in multiset(r);
    assert section != Bundles ==> forall n: nat :: WithLength(r, n) == WithLength(Keys(table), n) by {
      if section != Bundles {
        forall n: nat ensures WithLength(r, n) == WithLength(Keys(table), n) {
          SortStable(Keys(table), n);
        }
      }
    }
    r
  }

  /** The registrations made and the problem met, if any. */
  datatype Progress = Progress(registered: seq<Registration>, outcome: Outcome<CatalogError>)

  /** The aliases parsed one after another by `step`, up to the first problem. */
  function Run(step: string --> Result<Registration, CatalogError>, aliases: seq<string>): (r: Progress)
    requires forall a :: a in aliases ==> step.requires(a)
    ensures |r.registered| <= |aliases|
    ensures r.outcome.Pass? <==> |r.registered| == |aliases|
  {
    if aliases == [] then Progress([], Pass)
    else
      match step(aliases[0])
      case Failure(e) => Progress([], Fail(e))
      case Success(r) =>
        var rest := Run(step, aliases[1..]);
        Progress([r] + rest.registered, rest.outcome)
  }

  /** `parseLibraries`, `parsePlugins`, `parseBundles` or `parseVersions`: an absent table registers nothing. */
  function SectionSpec(c: Collaborators, section: Section, table: Option<Entries>): (r: Progress)
    ensures table.None? ==> r == Progress([], Pass)
    ensures table.Some? ==> |r.registered| <= |table.value|
  {
    if table.None? then Progress([], Pass)
    else Run(AliasParser(c, section, table.value), SortedAliases(section, table.value))
  }

  /** The aliases of some registrations, in order. */
  function Aliases(rs: seq<Registration>): (r: seq<string>)
    ensures |r| == |rs|
    ensures forall i :: 0 <= i < |rs| ==> r[i] == rs[i].alias
  {
    if rs == [] then [] else [rs[0].alias] + Aliases(rs[1..])
  }

  /**
   * The steps are taken in the order given: all of them when no problem is
   * met, and otherwise those before the first step with a problem, which is
   * the one reported.
   */
  lemma {:induction false} RunOrder(step: string --> Result<Registration, CatalogError>, aliases: seq<string>)
    requires forall a :: a in aliases ==> step.requires(a)
    ensures var p := Run(step, aliases);
      |p.registered| <= |aliases|
      && (p.outcome.Pass? <==> |p.registered| == |aliases|)
      && (p.outcome.Fail? ==> step(aliases[|p.registered|]) == Failure(p.outcome.error))
      && forall i :: 0 <= i < |p.registered| ==> step(aliases[i]) == Success(p.registered[i])
  {
    if aliases != [] {
      RunOrder(step, aliases[1..]);
      if step(aliases[0]).Success? {
        var p := Run(step, aliases);
        var rest := Run(step, aliases[1..]);
        assert p.registered == [step(aliases[0]).value] + rest.registered;
        forall i | 1 <= i < |p.registered|
          ensures step(aliases[i]) == Success(p.registered[i])
        {
          assert aliases[i] == aliases[1..][i - 1];
          assert p.registered[i] == rest.registered[i - 1];
        }
      }
    }
  }

  /** Steps that register each alias under its own name register the aliases in the order given. */
  lemma RunKeepsAliases(step: string --> Result<Registration, CatalogError>, aliases: seq<string>)
    requires forall a :: a in aliases ==> step.requires(a)
    requires forall a :: a in aliases ==> step(a).Success? ==> step(a).value.alias == a
    ensures var p := Run(step, aliases);
      |p.registered| <= |aliases| && Aliases(p.registered) == aliases[..|p.registered|]
  {
    RunOrder(step, aliases);
    var p := Run(step, aliases);
    forall i | 0 <= i < |p.registered|
      ensures p.registered[i].alias == aliases[i]
    {
      assert aliases[i] in aliases;
    }
  }

  /**
   * The aliases of a section are read in ascending length (bundles:
   * lexicographically), each alias of the table once, and each is registered
   * under its own name: all of them when no problem is met, and otherwise
   * those before the alias whose problem is reported.
   */
  lemma SectionOrder(c: Collaborators, section: Section, table: Entries)
    ensures var p := SectionSpec(c, section, Some(table));
      var order := SortedAliases(section, table);
      |p.registered| <= |order| && Aliases(p.registered) == order[..|p.registered|]
      && (p.outcome.Pass? <==> |p.registered| == |order|)
      && (|p.registered| < |order| ==>
            p.outcome.Fail? && ParseAlias(c, section, order[|p.registered|], table) == Failure(p.outcome.error))
  {
    var order := SortedAliases(section, table);
    var step := AliasParser(c, section, table);
    RunOrder(step, order);
    RunKeepsAliases(step, order);
  }

  /** A section registers only declarations of its own kind. */
  lemma SectionKinds(c: Collaborators, section: Section, table: Entries)
    ensures forall r :: r in SectionSpec(c, section, Some(table)).registered ==> OfSection(section, r)
  {
    var order := SortedAliases(section, table);
    var step := AliasParser(c, section, table);
    RunOrder(step, order);
    var p := Run(step, order);
    forall i | 0 <= i < |p.registered|
      ensures OfSection(section, p.registered[i])
    {
      assert step(order[i]) == Success(p.registered[i]);
    }
  }

  /** Splitting and trimming gives back the trimmed, colon-free parts a notation is built from. */
  lemma NotationParts(parts: seq<string>)
    requires |parts| >= 1
    requires forall i :: 0 <= i < |parts| ==> ':' !in parts[i] && Trim(parts[i]) == parts[i]
    ensures SplitTrim(Join(parts, [':']), ':') == parts
  {
    SplitJoin(parts, ':');
  }

  /** A library notation built from trimmed, colon-free, non-empty parts registers those parts. */
  lemma LibraryNotationRoundTrip(c: Collaborators, alias: string, group: string, name: string, version: string)
    requires group != "" && name != "" && version != ""
    requires ':' !in group && ':' !in name && ':' !in version
    requires Trim(group) == group && Trim(name) == name && Trim(version) == version
    ensures LibraryNotation(c, alias, group + ":" + name + ":" + version)
         == Success(LibraryAlias(alias, group, name, ByConstraint(ConstraintOf(RichFields(c, version)))))
  {
    var notation := group + ":" + name + ":" + version;
    assert Join([version], [':']) == version;
    assert Join([name, version], [':']) == name + ":" + version;
    assert Join([group, name, version], [':']) == notation;
    NotationParts([group, name, version]);
  }

  /** A plugin notation built from trimmed, colon-free, non-empty parts registers those parts. */
  lemma PluginNotationRoundTrip(c: Collaborators, alias: string, id: string, version: string)
    requires id != "" && version != ""
    requires ':' !in id && ':' !in version
    requires Trim(id) == id && Trim(version) == version
    ensures PluginNotation(c, alias, id + ":" + version)
         == Success(PluginAlias(alias, id, ByConstraint(ConstraintOf(RichFields(c, version)))))
  {
    assert Join([version], [':']) == version;
    assert Join([id, version], [':']) == id + ":" + version;
    NotationParts([id, version]);
  }

  /** An entry appended under another key does not change a lookup. */
  lemma {:induction false} LookupAppendOther(entries: Entries, k: string, v: TomlValue, key: string)
    requires key != k
    ensures Lookup(entries + [(k, v)], key) == Lookup(entries, key)
  {
    if entries != [] {
      assert (entries + [(k, v)])[1..] == entries[1..] + [(k, v)];
      LookupAppendOther(entries[1..], k, v, key);
    }
  }

  /** The keys of a table with one more entry. */
  lemma {:induction false} KeysAppend(entries: Entries, k: string, v: TomlValue)
    ensures Keys(entries + [(k, v)]) == Keys(entries) + [k]
  {
  }

  /** The constraint entries of a version table are found by their keys only: another entry changes nothing. */
  lemma ConstraintEntriesIgnoreOtherKeys(table: Entries, k: string, v: TomlValue)
    requires k !in VersionKeys
    ensures ConstraintEntriesOf(table + [(k, v)]) == ConstraintEntriesOf(table)
  {
    LookupAppendOther(table, k, v, "require");
    LookupAppendOther(table, k, v, "prefer");
    LookupAppendOther(table, k, v, "strictly");
    LookupAppendOther(table, k, v, "reject");
    LookupAppendOther(table, k, v, "rejectAll");
  }

  /** A version table of the `versions` section is not checked for unknown keys: an entry under another key is ignored. */
  lemma VersionsTableIgnoresUnknownKey(c: Collaborators, alias: string, table: Entries, k: string, v: TomlValue)
    requires k !in VersionKeys
    ensures ParseVersion(c, alias, TTable(table + [(k, v)])) == ParseVersion(c, alias, TTable(table))
  {
    ConstraintEntriesIgnoreOtherKeys(table, k, v);
  }

  /** The version table of a library or plugin refuses an entry under an unknown key. */
  lemma DeclaredVersionRefusesUnknownKey(c: Collaborators, alias: string, table: Entries, k: string, v: TomlValue)
    requires k !in VersionKeys
    ensures var r := DeclaredVersion(c, alias, Some(TTable(table + [(k, v)])));
      r.Failure? && r.error.UnexpectedKeys? && k in r.error.unexpected
  {
    KeysAppend(table, k, v);
    assert k in Keys(table + [(k, v)]);
  }

  /**
   * An empty version string is refused in the `versions` section, while the
   * `version` string of a library table goes to the rich-version parser unchecked.
   */
  lemma EmptyVersionString(c: Collaborators, alias: string)
    ensures ParseVersion(c, alias, TString("")) == Failure(EmptyValue(alias, "version"))
    ensures DeclaredVersion(c, alias, Some(TString(""))) == Success(RichFields(c, ""))
  {
  }

  /** The parse result of the TOML parser: its syntax errors and its top-level table. */
  datatype TomlParseResult = TomlParseResult(errorCount: nat, root: Entries)

  /** `verifyMetadata`: a present `format.version` other than "1.1" is refused. */
  function VerifyMetadata(metadata: Option<Entries>): (r: Outcome<CatalogError>)
    ensures metadata.None? ==> r.Pass?
    ensures metadata.Some? ==>
      var format := AsString(Lookup2(metadata.value, "format", "version"));
      (r.Pass? <==> format.Absent? || format == Present(CurrentVersion))
      && (format.Present? && format.value != CurrentVersion ==> r == Fail(UnsupportedFormatVersion(format.value)))
      && (format.WrongType? ==> r == Fail(InvalidType("format.version")))
  {
    match metadata
    case None => Pass
    case Some(table) =>
      match AsString(Lookup2(table, "format", "version"))
      case Absent => Pass
      case WrongType => Fail(InvalidType("format.version"))
      case Present(format) => if format != CurrentVersion then Fail(UnsupportedFormatVersion(format)) else Pass
  }

  /** `getTable(key)` on the root table. */
  function GetTable(root: Entries, key: string): (r: Result<Option<Entries>, CatalogError>)
    ensures r.Failure? <==> AsTable(Lookup(root, key)).WrongType?
    ensures r.Failure? ==> r.error == InvalidType(key)
    ensures r.Success? ==> (r.value.Some? <==> AsTable(Lookup(root, key)).Present?)
  {
    match AsTable(Lookup(root, key))
    case WrongType => Failure(InvalidType(key))
    case Absent => Success(None)
    case Present(t) => Success(Some(t))
  }

  /** The four tables of aliases. */
  datatype Tables = Tables(libraries: Option<Entries>, bundles: Option<Entries>, versions: Option<Entries>, plugins: Option<Entries>)

  /** Everything `parse` checks before it registers anything, yielding the four tables. */
  function Preflight(doc: TomlParseResult): (r: Result<Tables, CatalogError>)
    ensures doc.errorCount > 0 ==> r == Failure(ParseFailed(doc.errorCount))
    ensures r.Success? ==> forall k :: k in Keys(doc.root) ==> k in TopLevelElements
    ensures r.Failure? ==> r.error.ParseFailed? || r.error.UnsupportedFormatVersion? || r.error.InvalidType?
                           || r.error == UnknownTopLevelElements(Outside(Keys(doc.root), TopLevelElements))
  {
    if doc.errorCount > 0 then Failure(ParseFailed(doc.errorCount))
    else
      var metadata :- GetTable(doc.root, "metadata");
      :- VerifyMetadata(metadata);
      var tables :- ReadTables(doc.root);
      var unknown := Outside(Keys(doc.root), TopLevelElements);
      if unknown != [] then Failure(UnknownTopLevelElements(unknown))
      else
        OutsideEmpty(Keys(doc.root), TopLevelElements);
        Success(tables)
  }

  /** The `getTable` calls for the four tables of aliases. */
  function ReadTables(root: Entries): (r: Result<Tables, CatalogError>)
    ensures r.Failure? ==> r.error.InvalidType?
  {
    var libraries :- GetTable(root, "libraries");
    var bundles :- GetTable(root, "bundles");
    var versions :- GetTable(root, "versions");
    var plugins :- GetTable(root, "plugins");
    Success(Tables(libraries, bundles, versions, plugins))
  }

  /** The sections one after another, up to the first problem. */
  function Then(p: Progress, q: Progress): Progress
  {
    if p.outcome.Fail? then p else Progress(p.registered + q.registered, q.outcome)
  }

  /** `parse`: what it registers, in order, and the problem that stops it, if any. */
  function CatalogSpec(c: Collaborators, doc: TomlParseResult): (r: Progress)
    ensures doc.errorCount > 0 ==> r == Progress([], Fail(ParseFailed(doc.errorCount)))
    ensures r.registered != [] ==> doc.errorCount == 0 && forall k :: k in Keys(doc.root) ==> k in TopLevelElements
  {
    match Preflight(doc)
    case Failure(e) => Progress([], Fail(e))
    case Success(t) => SectionsSpec(c, t)
  }

  /** The libraries, then the plugins, the bundles and the versions. */
  function SectionsSpec(c: Collaborators, t: Tables): Progress
  {
    Then(Then(Then(SectionSpec(c, Libraries, t.libraries), SectionSpec(c, Plugins, t.plugins)),
              SectionSpec(c, Bundles, t.bundles)),
         SectionSpec(c, Versions, t.versions))
  }

  /** A file with a top-level element outside the five known ones registers nothing and fails. */
  lemma UnknownTopLevelElementRejected(c: Collaborators, doc: TomlParseResult, key: string)
    requires key in Keys(doc.root) && key !in TopLevelElements
    ensures var p := CatalogSpec(c, doc);
      p.registered == [] && p.outcome.Fail?
      && (p.outcome.error.ParseFailed? || p.outcome.error.UnsupportedFormatVersion? || p.outcome.error.InvalidType?
          || p.outcome.error == UnknownTopLevelElements(Outside(Keys(doc.root), TopLevelElements)))
  {
    assert Preflight(doc).Failure?;
  }

  /** A file of another format version registers nothing and fails with UNSUPPORTED_FORMAT_VERSION. */
  lemma UnsupportedFormatRejected(c: Collaborators, doc: TomlParseResult, metadata: Entries, format: string)
    requires doc.errorCount == 0
    requires Lookup(doc.root, "metadata") == Some(TTable(metadata))
    requires Lookup2(metadata, "format", "version") == Some(TString(format)) && format != CurrentVersion
    ensures CatalogSpec(c, doc) == Progress([], Fail(UnsupportedFormatVersion(format)))
  {
  }

  /** A file without syntax errors and with only known top-level tables gets to register its sections. */
  lemma WellFormedFilePassesPreflight(doc: TomlParseResult)
    requires doc.errorCount == 0
    requires forall k :: k in Keys(doc.root) ==> k in TopLevelElements
    requires forall i :: 0 <= i < |doc.root| ==> doc.root[i].1.TTable?
    requires Lookup(doc.root, "metadata").Some? ==>
      var format := AsString(Lookup2(Lookup(doc.root, "metadata").value.entries, "format", "version"));
      format.Absent? || format == Present(CurrentVersion)
    ensures Preflight(doc).Success?
  {
    AllTables(doc.root, "metadata");
    assert VerifyMetadata(GetTable(doc.root, "metadata").value).Pass?;
    assert ReadTables(doc.root).Success? by {
      AllTables(doc.root, "libraries");
      AllTables(doc.root, "bundles");
      AllTables(doc.root, "versions");
      AllTables(doc.root, "plugins");
    }
    OutsideEmpty(Keys(doc.root), TopLevelElements);
  }

  /** In a table of tables, `getTable` never meets a value of another type. */
  lemma AllTables(root: Entries, key: string)
    requires forall i :: 0 <= i < |root| ==> root[i].1.TTable?
    ensures GetTable(root, key).Success?
    ensures GetTable(root, key).value.Some? <==> key in Keys(root)
  {
    if Lookup(root, key).Some? {
      var i :| 0 <= i < |root| && root[i] == (key, Lookup(root, key).value);
    }
  }

  /** No key lies outside the allowed ones exactly when every key is allowed. */
  lemma OutsideEmpty(keys: seq<string>, allowed: seq<string>)
    ensures Outside(keys, allowed) == [] <==> forall k :: k in keys ==> k in allowed
  {
    if Outside(keys, allowed) != [] {
      assert Outside(keys, allowed)[0] in Outside(keys, allowed);
    }
  }

  /**
   * Four steps one after another: each step's registrations follow those of
   * the steps before it, and the first problem stops the rest.
   */
  lemma ThenChain(l: Progress, p: Progress, b: Progress, v: Progress)
    ensures var s := Then(Then(Then(l, p), b), v);
      (l.outcome.Fail? ==> s == l)
      && (l.outcome.Pass? && p.outcome.Fail? ==> s == Progress(l.registered + p.registered, p.outcome))
      && (l.outcome.Pass? && p.outcome.Pass? && b.outcome.Fail? ==>
            s == Progress(l.registered + p.registered + b.registered, b.outcome))
      && (l.outcome.Pass? && p.outcome.Pass? && b.outcome.Pass? ==>
            s == Progress(l.registered + p.registered + b.registered + v.registered, v.outcome))
  {
  }

  /**
   * The libraries come first, then the plugins, the bundles and the versions;
   * a problem in one section stops the sections after it.
   */
  lemma SectionSequence(c: Collaborators, t: Tables)
    ensures var libs := SectionSpec(c, Libraries, t.libraries);
      var plugins := SectionSpec(c, Plugins, t.plugins);
      var bundles := SectionSpec(c, Bundles, t.bundles);
      var versions := SectionSpec(c, Versions, t.versions);
      var s := SectionsSpec(c, t);
      (libs.outcome.Fail? ==> s == libs)
      && (libs.outcome.Pass? && plugins.outcome.Fail? ==> s == Progress(libs.registered + plugins.registered, plugins.outcome))
      && (libs.outcome.Pass? && plugins.outcome.Pass? && bundles.outcome.Fail? ==>
            s == Progress(libs.registered + plugins.registered + bundles.registered, bundles.outcome))
      && (libs.outcome.Pass? && plugins.outcome.Pass? && bundles.outcome.Pass? ==>
            s == Progress(libs.registered + plugins.registered + bundles.registered + versions.registered, versions.outcome))
  {
    ThenChain(SectionSpec(c, Libraries, t.libraries), SectionSpec(c, Plugins, t.plugins),
              SectionSpec(c, Bundles, t.bundles), SectionSpec(c, Versions, t.versions));
  }

  /** The catalog builder, as the registrations it has received. */
  class CatalogBuilder {
    var registrations: seq<Registration>

    constructor ()
      ensures registrations == []
    {
      registrations := [];
    }

    /** `library`, `plugin`, `version` or `bundle`: records one registration. */
    method Register(r: Registration)
      modifies this
      ensures registrations == old(registrations) + [r]
    {
      registrations := registrations + [r];
    }
  }

  /** The loop over the aliases of one section: each is parsed and registered, up to the first problem. */
  method RunAliases(step: string --> Result<Registration, CatalogError>, aliases: seq<string>, builder: CatalogBuilder)
    returns (r: Outcome<CatalogError>)
    requires forall a :: a in aliases ==> step.requires(a)
    modifies builder
    ensures builder.registrations == old(builder.registrations) + Run(step, aliases).registered
    ensures r == Run(step, aliases).outcome
  {
    ghost var start := builder.registrations;
    for i := 0 to |aliases|
      invariant |start| <= |builder.registrations|
      invariant builder.registrations[..|start|] == start
      invariant Run(step, aliases) == Then(Progress(builder.registrations[|start|..], Pass), Run(step, aliases[i..]))
    {
      assert aliases[i..][1..] == aliases[i + 1..];
      var d := step(aliases[i]);
      if d.Failure? {
        assert builder.registrations == start + builder.registrations[|start|..];
        return Fail(d.error);
      }
      ghost var before := builder.registrations;
      builder.Register(d.value);
      assert builder.registrations[|start|..] == before[|start|..] + [d.value];
    }
    assert builder.registrations == start + builder.registrations[|start|..];
    r := Pass;
  }

  /** `parseLibraries`, `parsePlugins`, `parseBundles` or `parseVersions`: the aliases in order, an absent table skipped. */
  method ParseSection(c: Collaborators, section: Section, table: Option<Entries>, builder: CatalogBuilder)
    returns (r: Outcome<CatalogError>)
    modifies builder
    ensures builder.registrations == old(builder.registrations) + SectionSpec(c, section, table).registered
    ensures r == SectionSpec(c, section, table).outcome
  {
    if table.None? {
      return Pass;
    }
    r := RunAliases(AliasParser(c, section, table.value), SortedAliases(section, table.value), builder);
  }

  lemma AppendAssociative<T>(a: seq<T>, b: seq<T>, c: seq<T>)
    ensures a + b + c == a + (b + c)
  {
  }

  /** `parse`: the checks, then the four sections in order, stopping at the first problem. */
  method Parse(c: Collaborators, doc: TomlParseResult, builder: CatalogBuilder) returns (r: Outcome<CatalogError>)
    modifies builder
    ensures builder.registrations == old(builder.registrations) + CatalogSpec(c, doc).registered
    ensures r == CatalogSpec(c, doc).outcome
  {
    var tables := Preflight(doc);
    if tables.Failure? {
      return Fail(tables.error);
    }
    var t := tables.value;
    ghost var start := builder.registrations;
    ghost var libs, plugins, bundles, versions :=
      SectionSpec(c, Libraries, t.libraries), SectionSpec(c, Plugins, t.plugins),
      SectionSpec(c, Bundles, t.bundles), SectionSpec(c, Versions, t.versions);
    ThenChain(libs, plugins, bundles, versions);
    assert CatalogSpec(c, doc) == Then(Then(Then(libs, plugins), bundles), versions);
    r := ParseSection(c, Libraries, t.libraries, builder);
    if r.Fail? {
      return;
    }
    r := ParseSection(c, Plugins, t.plugins, builder);
    AppendAssociative(start, libs.registered, plugins.registered);
    if r.Fail? {
      return;
    }
    r := ParseSection(c, Bundles, t.bundles, builder);
    AppendAssociative(start, libs.registered + plugins.registered, bundles.registered);
    if r.Fail? {
      return;
    }
    r := ParseSection(c, Versions, t.versions, builder);
    AppendAssociative(start, libs.registered + plugins.registered + bundles.registered, versions.registered);
  }
}
