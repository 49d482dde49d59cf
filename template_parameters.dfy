/** The parameters handed to a template generator: a project name and namespace, an
    output directory, the template's description, a logger, a bag of tags, and per
    kind of template the session, the package or the asset locations it works on.
    Validate checks, in a fixed order, that what the generator needs is there, and
    reports the first thing that is missing. */
module TemplateParameters {
  import opened Wrappers

  /** TemplateDescription.Scope: what a template creates. */
  datatype TemplateScope = Session | Package | Asset

  /** The part of a TemplateDescription that validation reads. */
  datatype TemplateDescription = TemplateDescription(scope: TemplateScope)

  /** The concrete class of a parameters object. The abstract base class has no
      instances; a class derived from PackageTemplateGeneratorParameters that does not
      override the validation keeps the Package checks, minus the exact-type scope
      test. */
  datatype ParametersKind =
    | SessionParameters
    | PackageParameters
    | AssetParameters
    | PackageSubclass(typeName: string)

  /** GetType().Name, as the error messages print it. */
  function TypeName(kind: ParametersKind): string {
    match kind
    case SessionParameters => "SessionTemplateGeneratorParameters"
    case PackageParameters => "PackageTemplateGeneratorParameters"
    case AssetParameters => "AssetTemplateGeneratorParameters"
    case PackageSubclass(name) => name
  }

  /** The kinds that inherit PackageTemplateGeneratorParameters and so its Package
      property. */
  predicate IsPackageKind(kind: ParametersKind) {
    !kind.SessionParameters?
  }

  /** The exceptions validation raises: InvalidOperationException naming a null
      member or a wrong scope, and the NullReferenceException of a dereferenced null
      Description. */
  datatype ValidationError =
    | NullMember(member: string, typeName: string)
    | WrongScope(expected: TemplateScope, typeName: string)
    | NullReference

  /** The settable properties validation reads, with null as None. A logger, a
      session and a package are objects the model only tells apart by identity. */
  datatype Settings = Settings(
    name: Option<string>,
    namespace: Option<string>,
    outputDirectory: Option<string>,
    description: Option<TemplateDescription>,
    logger: Option<nat>,
    session: Option<nat>,
    package: Option<nat>)

  // ---------------------------------------------------------------------------
  // ValidateParameters

  /** The base class checks as written: Name first; then a null OutputDirectory
      with Description.Scope read before Description is checked for null, so a null
      Description under a null OutputDirectory is a null dereference; then
      Description; then Logger. */
  function BaseCheckAsWritten(s: Settings, typeName: string): Result<(), ValidationError> {
    if s.name.None? then Failure(NullMember("Name", typeName))
    else if s.outputDirectory.None? && s.description.None? then Failure(NullReference)
    else if s.outputDirectory.None? && s.description.value.scope == Session then Failure(NullMember("OutputDirectory", typeName))
    else if s.description.None? then Failure(NullMember("Description", typeName))
    else if s.logger.None? then Failure(NullMember("Logger", typeName))
    else Success(())
  }

  /** The base class checks with Description checked for null before its scope is read. */
  function BaseCheck(s: Settings, typeName: string): Result<(), ValidationError> {
    if s.name.None? then Failure(NullMember("Name", typeName))
    else if s.description.None? then Failure(NullMember("Description", typeName))
    else if s.outputDirectory.None? && s.description.value.scope == Session then Failure(NullMember("OutputDirectory", typeName))
    else if s.logger.None? then Failure(NullMember("Logger", typeName))
    else Success(())
  }

  /** PackageTemplateGeneratorParameters.ValidateParameters: the base checks, the
      Package scope only for that exact class, then a package. */
  function PackageCheck(s: Settings, kind: ParametersKind): Result<(), ValidationError>
    requires IsPackageKind(kind)
  {
    var base := BaseCheck(s, TypeName(kind));
    if base.Failure? then base
    else if s.description.value.scope != Package && kind.PackageParameters? then Failure(WrongScope(Package, TypeName(kind)))
    else if s.package.None? then Failure(NullMember("Package", TypeName(kind)))
    else Success(())
  }

  /** ValidateParameters of each class: the overrides call their base first and
      the first failing check throws. */
  function Validation(s: Settings, kind: ParametersKind): Result<(), ValidationError> {
    match kind
    case SessionParameters =>
      var base := BaseCheck(s, TypeName(kind));
      if base.Failure? then base
      else if s.description.value.scope != Session then Failure(WrongScope(Session, TypeName(kind)))
      else if s.session.None? then Failure(NullMember("Session", TypeName(kind)))
      else Success(())
    case AssetParameters =>
      var package := PackageCheck(s, kind);
      if package.Failure? then package
      else if s.description.value.scope != Asset then Failure(WrongScope(Asset, TypeName(kind)))
      else if s.package.None? then Failure(NullMember("Package", TypeName(kind)))
      else Success(())
    case _ => PackageCheck(s, kind)
  }

  /** What a kind needs beyond the base checks. */
  predicate KindComplete(s: Settings, kind: ParametersKind)
    requires s.description.Some?
  {
    match kind
    case SessionParameters => s.description.value.scope == Session && s.session.Some?
    case PackageParameters => s.description.value.scope == Package && s.package.Some?
    case AssetParameters => s.description.value.scope == Asset && s.package.Some?
    case PackageSubclass(_) => s.package.Some?
  }

  /** Validation passes exactly when a name, a description and a logger are set,
      an output directory is set for a session template, and what the kind needs is
      there. */
  lemma ValidationSucceedsIff(s: Settings, kind: ParametersKind)
    ensures Validation(s, kind).Success? <==>
      && s.name.Some? && s.description.Some? && s.logger.Some?
      && (s.description.value.scope == Session ==> s.outputDirectory.Some?)
      && KindComplete(s, kind)
  {
    match kind
    case SessionParameters =>
    case PackageParameters =>
    case AssetParameters =>
    case PackageSubclass(_) =>
  }

  /** The base checks come before the kind's own: whatever the kind, a failing base
      check is the error reported. */
  lemma BaseCheckFirst(s: Settings, kind: ParametersKind)
    requires BaseCheck(s, TypeName(kind)).Failure?
    ensures Validation(s, kind) == BaseCheck(s, TypeName(kind))
  {
  }

  /** A null Name is always the error reported, and a null Description, a null
      Logger and a session template's null OutputDirectory each name the member. */
  lemma NullMemberReported(s: Settings, kind: ParametersKind)
    ensures s.name.None? ==> Validation(s, kind) == Failure(NullMember("Name", TypeName(kind)))
    ensures s.name.Some? && s.description.None? ==> Validation(s, kind) == Failure(NullMember("Description", TypeName(kind)))
    ensures s.name.Some? && s.description.Some? && s.description.value.scope == Session && s.outputDirectory.None? ==>
      Validation(s, kind) == Failure(NullMember("OutputDirectory", TypeName(kind)))
    ensures s.name.Some? && s.description.Some? && (s.description.value.scope == Session ==> s.outputDirectory.Some?) && s.logger.None? ==>
      Validation(s, kind) == Failure(NullMember("Logger", TypeName(kind)))
  {
    if BaseCheck(s, TypeName(kind)).Failure? {
      BaseCheckFirst(s, kind);
    }
  }

  /** The scope test of PackageTemplateGeneratorParameters applies to that exact
      class only: a derived class passes with any scope and a package. */
  lemma PackageScopeExactTypeOnly(s: Settings, typeName: string)
    requires BaseCheck(s, typeName).Success? && s.package.Some?
    ensures Validation(s, PackageSubclass(typeName)).Success?
    ensures Validation(s, PackageParameters).Success? <==> s.description.value.scope == Package
  {
  }

  /** An asset template passes the Package class's checks with a non-Package scope,
      then fails on its own scope check unless the scope is Asset. */
  lemma AssetScopeChecked(s: Settings)
    requires BaseCheck(s, TypeName(AssetParameters)).Success? && s.package.Some?
    ensures PackageCheck(s, AssetParameters).Success?
    ensures Validation(s, AssetParameters).Success? <==> s.description.value.scope == Asset
    ensures s.description.value.scope != Asset ==>
      Validation(s, AssetParameters) == Failure(WrongScope(Asset, TypeName(AssetParameters)))
  {
  }

  /** Settings with a name but neither an output directory nor a description. */
  const NoDescription := Settings(Some("Game"), None, None, None, Some(0), Some(0), Some(0))

  /** The base checks as written throw a NullReferenceException for a null
      Description when the output directory is also null, where the check written
      for it reports the member; with an output directory set both report it. */
  lemma NullDescriptionDereferenced(typeName: string)
    ensures BaseCheckAsWritten(NoDescription, typeName) == Failure(NullReference)
    ensures BaseCheck(NoDescription, typeName) == Failure(NullMember("Description", typeName))
    ensures BaseCheckAsWritten(NoDescription.(outputDirectory := Some("Out")), typeName)
         == Failure(NullMember("Description", typeName))
  {
  }

  /** The two orders agree on every input except a null Description under a null
      OutputDirectory. */
  lemma BaseCheckAgrees(s: Settings, typeName: string)
    ensures BaseCheckAsWritten(s, typeName).Failure? <==> BaseCheck(s, typeName).Failure?
    ensures !(s.name.Some? && s.outputDirectory.None? && s.description.None?) ==>
      BaseCheckAsWritten(s, typeName) == BaseCheck(s, typeName)
    ensures s.name.Some? && s.outputDirectory.None? && s.description.None? ==>
      BaseCheckAsWritten(s, typeName) == Failure(NullReference)
  {
  }

  // ---------------------------------------------------------------------------
  // Tags

  /** A PropertyKey, with the default value TryGetTag falls back on; keys are
      compared by value here. */
  datatype PropertyKey = PropertyKey(name: string, defaultValue: object?)

  /** GetTag's exception for a missing key. */
  datatype TagError = KeyNotFound(message: string)

  /** GetTag: the value stored under the key, or KeyNotFoundException. */
  function TagLookup(tags: map<PropertyKey, object?>, key: PropertyKey): (r: Result<object?, TagError>) {
    if key in tags then Success(tags[key]) else Failure(KeyNotFound("Tag not found in template generator parameters"))
  }

  /** TryGetTag: the value stored under the key, or the key's default value. */
  function TagOrDefault(tags: map<PropertyKey, object?>, key: PropertyKey): (r: object?) {
    if key in tags then tags[key] else key.defaultValue
  }

  /** GetTag fails exactly for a key HasTag denies, and TryGetTag agrees with it
      where it succeeds and gives the key's default where it fails. */
  lemma TagLookupMeans(tags: map<PropertyKey, object?>, key: PropertyKey)
    ensures TagLookup(tags, key).Failure? <==> key !in tags
    ensures TagLookup(tags, key).Success? ==> TagOrDefault(tags, key) == TagLookup(tags, key).value
    ensures TagLookup(tags, key).Failure? ==> TagOrDefault(tags, key) == key.defaultValue
  {
  }

  /** After SetTag(key, value), HasTag(key) holds and GetTag(key) is the value;
      every other key reads as before. */
  lemma TagAfterSet(tags: map<PropertyKey, object?>, key: PropertyKey, value: object?, other: PropertyKey)
    ensures key in tags[key := value]
    ensures TagLookup(tags[key := value], key) == Success(value)
    ensures other != key ==> TagLookup(tags[key := value], other) == TagLookup(tags, other)
    ensures other != key ==> TagOrDefault(tags[key := value], other) == TagOrDefault(tags, other)
  {
  }

  // ---------------------------------------------------------------------------
  // The parameters object

  /** One parameters object; the fields of the derived classes are here for every
      kind and stay null for kinds that do not declare them. */
  class TemplateGeneratorParameters {
    const kind: ParametersKind
    var name: Option<string>
    var namespace: Option<string>
    var outputDirectory: Option<string>
    var description: Option<TemplateDescription>
    var logger: Option<nat>
    var tags: map<PropertyKey, object?>
    var session: Option<nat>
    var package: Option<nat>
    const targetLocation: Option<string>
    var sourceFiles: seq<string>

    /** The properties validation reads. */
    function Current(): (s: Settings)
      reads this
    {
      Settings(name, namespace, outputDirectory, description, logger, session, package)
    }

    /** The implicit SessionTemplateGeneratorParameters constructor: every property
        null and no tag. */
    constructor ForSession()
      ensures kind == SessionParameters
      ensures Current() == Settings(None, None, None, None, None, None, None)
      ensures tags == map[] && targetLocation.None? && sourceFiles == []
    {
      kind := SessionParameters;
      name, namespace, outputDirectory, description, logger := None, None, None, None, None;
      tags := map[];
      session, package := None, None;
      targetLocation := None;
      sourceFiles := [];
    }

    /** PackageTemplateGeneratorParameters(): every property null and no tag. */
    constructor ForPackage()
      ensures kind == PackageParameters
      ensures Current() == Settings(None, None, None, None, None, None, None)
      ensures tags == map[] && targetLocation.None? && sourceFiles == []
    {
      kind := PackageParameters;
      name, namespace, outputDirectory, description, logger := None, None, None, None, None;
      tags := map[];
      session, package := None, None;
      targetLocation := None;
      sourceFiles := [];
    }

    /** PackageTemplateGeneratorParameters(parameters, package): the base copy
        constructor copies Name, Namespace, OutputDirectory, Description and Logger
        and the tags into the new, empty tag container; then the package is set. */
    constructor CopyForPackage(parameters: TemplateGeneratorParameters, package: Option<nat>)
      ensures kind == PackageParameters
      ensures name == parameters.name && namespace == parameters.namespace
      ensures outputDirectory == parameters.outputDirectory && description == parameters.description
      ensures logger == parameters.logger && tags == parameters.tags
      ensures this.package == package && session.None?
      ensures targetLocation.None? && sourceFiles == []
    {
      kind := PackageParameters;
      name := parameters.name;
      namespace := parameters.namespace;
      outputDirectory := parameters.outputDirectory;
      description := parameters.description;
      logger := parameters.logger;
      var copied := map[];
      copied := copied + parameters.tags;
      tags := copied;
      this.package := package;
      session := None;
      targetLocation := None;
      sourceFiles := [];
    }

    /** AssetTemplateGeneratorParameters(targetLocation, sourceFiles): a new list,
        filled with the given files in order when there are any. */
    constructor ForAsset(targetLocation: Option<string>, sourceFiles: Option<seq<string>>)
      ensures kind == AssetParameters
      ensures Current() == Settings(None, None, None, None, None, None, None)
      ensures tags == map[] && this.targetLocation == targetLocation
      ensures this.sourceFiles == if sourceFiles.None? then [] else sourceFiles.value
    {
      kind := AssetParameters;
      name, namespace, outputDirectory, description, logger := None, None, None, None, None;
      tags := map[];
      session, package := None, None;
      this.targetLocation := targetLocation;
      this.sourceFiles := [];
      if sourceFiles.Some? {
        this.sourceFiles := this.sourceFiles + sourceFiles.value;
      }
    }

    /** Validate: the validation of the object's class, the first failure as an
        error. */
    method Validate() returns (r: Result<(), ValidationError>)
      ensures r == Validation(Current(), kind)
      ensures r.Success? <==>
        && name.Some? && description.Some? && logger.Some?
        && (description.value.scope == Session ==> outputDirectory.Some?)
        && KindComplete(Current(), kind)
    {
      ValidationSucceedsIff(Current(), kind);
      r := Validation(Current(), kind);
    }

    /** GetTag. */
    method GetTag(key: PropertyKey) returns (r: Result<object?, TagError>)
      ensures r == TagLookup(tags, key)
    {
      if key !in tags {
        return Failure(KeyNotFound("Tag not found in template generator parameters"));
      }
      return Success(tags[key]);
    }

    /** TryGetTag. */
    method TryGetTag(key: PropertyKey) returns (r: object?)
      ensures r == TagOrDefault(tags, key)
    {
      r := TagOrDefault(tags, key);
    }

    /** HasTag. */
    method HasTag(key: PropertyKey) returns (r: bool)
      ensures r <==> key in tags
    {
      r := key in tags;
    }

    /** SetTag: the key now maps to the value, added or replaced. */
    method SetTag(key: PropertyKey, value: object?)
      modifies this
      ensures tags == old(tags)[key := value]
      ensures Current() == old(Current()) && sourceFiles == old(sourceFiles)
      ensures TagLookup(tags, key) == Success(value)
    {
      tags := tags[key := value];
    }
  }
}
