/** The types shared by workflow definitions: permissions, environment
    values, and the "literal or expression" and "scalar or vector" unions. */
module Common {
  import opened Values
  import opened Decoding

  // ---------------------------------------------------------------------
  // Permissions
  // ---------------------------------------------------------------------

  /** The base permission applied to every scope at once. */
  datatype BasePermission =
    | Default   // whatever the workflow's GITHUB_TOKEN grants by default
    | ReadAll
    | WriteAll

  datatype Permission = Read | Write | None

  /** The thirteen scopes of an explicit permissions record. */
  datatype Scope =
    | Actions | Checks | Contents | Deployments | IdToken | Issues | Discussions
    | Packages | Pages | PullRequests | RepositoryProjects | SecurityEvents | Statuses

  datatype ExplicitPermissions = ExplicitPermissions(
    actions: Permission,
    checks: Permission,
    contents: Permission,
    deployments: Permission,
    idToken: Permission,
    issues: Permission,
    discussions: Permission,
    packages: Permission,
    pages: Permission,
    pullRequests: Permission,
    repositoryProjects: Permission,
    securityEvents: Permission,
    statuses: Permission)

  datatype Permissions = Base(base: BasePermission) | Explicit(explicit: ExplicitPermissions)

  /** Variant keywords, the kebab-case forms of the variant names. */
  const BasePermissionTable: seq<(string, BasePermission)> :=
    [("default", Default), ("read-all", ReadAll), ("write-all", WriteAll)]

  const PermissionTable: seq<(string, Permission)> :=
    [("read", Read), ("write", Write), ("none", Permission.None)]

  function BasePermissionKeyword(b: BasePermission): string {
    match b
    case Default => "default"
    case ReadAll => "read-all"
    case WriteAll => "write-all"
  }

  function PermissionKeyword(p: Permission): string {
    match p
    case Read => "read"
    case Write => "write"
    case None => "none"
  }

  /** The record key of a scope: the field name in kebab-case. */
  function ScopeKey(s: Scope): string {
    match s
    case Actions => "actions"
    case Checks => "checks"
    case Contents => "contents"
    case Deployments => "deployments"
    case IdToken => "id-token"
    case Issues => "issues"
    case Discussions => "discussions"
    case Packages => "packages"
    case Pages => "pages"
    case PullRequests => "pull-requests"
    case RepositoryProjects => "repository-projects"
    case SecurityEvents => "security-events"
    case Statuses => "statuses"
  }

  /** The level an explicit record grants to one scope. */
  function Level(e: ExplicitPermissions, s: Scope): Permission {
    match s
    case Actions => e.actions
    case Checks => e.checks
    case Contents => e.contents
    case Deployments => e.deployments
    case IdToken => e.idToken
    case Issues => e.issues
    case Discussions => e.discussions
    case Packages => e.packages
    case Pages => e.pages
    case PullRequests => e.pullRequests
    case RepositoryProjects => e.repositoryProjects
    case SecurityEvents => e.securityEvents
    case Statuses => e.statuses
  }

  /** `BasePermission::default()`: the variant marked `#[default]`, whose
      keyword is `default`. */
  function DefaultBasePermission(): (b: BasePermission)
    ensures BasePermissionKeyword(b) == "default"
  {
    Default
  }

  /** `Permission::default()`: the variant marked `#[default]`, whose
      keyword is `none`. */
  function DefaultPermission(): (p: Permission)
    ensures PermissionKeyword(p) == "none"
  {
    Permission.None
  }

  /** `ExplicitPermissions::default()`, derived field by field. */
  function DefaultExplicitPermissions(): (e: ExplicitPermissions)
    ensures forall s :: Level(e, s) == DefaultPermission()
  {
    var p := DefaultPermission();
    ExplicitPermissions(p, p, p, p, p, p, p, p, p, p, p, p, p)
  }

  /** `Permissions::default()`: the base variant holding the base default,
      the same value the keyword `default` decodes to. */
  function DefaultPermissions(): (p: Permissions)
    ensures p.Base? && p.base == DefaultBasePermission()
    ensures DecodePermissions(Str("default")) == Ok(p)
  {
    Base(DefaultBasePermission())
  }

  function DecodeBasePermission(v: Value): (r: Result<BasePermission>)
    ensures r.Ok? <==> v.Str? && v.s in {"default", "read-all", "write-all"}
    ensures r.Ok? ==> BasePermissionKeyword(r.value) == v.s
    ensures !v.Str? ==> r == Err(InvalidType(KindOf(v), "enum BasePermission"))
    ensures v.Str? && r.Err? ==> r == Err(UnknownVariant(v.s, {"default", "read-all", "write-all"}))
  {
    var t := BasePermissionTable;
    assert t[1..][1..][1..] == [];
    assert Keywords(t) == {"default", "read-all", "write-all"};
    DecodeKeyword("enum BasePermission", v, BasePermissionTable)
  }

  function DecodePermission(v: Value): (r: Result<Permission>)
    ensures r.Ok? <==> v.Str? && v.s in {"read", "write", "none"}
    ensures r.Ok? ==> PermissionKeyword(r.value) == v.s
    ensures !v.Str? ==> r == Err(InvalidType(KindOf(v), "enum Permission"))
    ensures v.Str? && r.Err? ==> r == Err(UnknownVariant(v.s, {"read", "write", "none"}))
  {
    var t := PermissionTable;
    assert t[1..][1..][1..] == [];
    assert Keywords(t) == {"read", "write", "none"};
    DecodeKeyword("enum Permission", v, PermissionTable)
  }

  /** The level of one scope in a mapping: decoded when its key is present,
      otherwise taken from `DefaultExplicitPermissions()`. */
  function ScopeLevel(m: map<string, Value>, s: Scope): Result<Permission> {
    DefaultedField(m, ScopeKey(s), Level(DefaultExplicitPermissions(), s), DecodePermission)
  }

  /** Every scope of `m` decodes, spelled out scope by scope (see
      `ExplicitPermissionsByScope` for the quantified form). */
  predicate ScopesDecode(m: map<string, Value>) {
    && ScopeLevel(m, Actions).Ok?
    && ScopeLevel(m, Checks).Ok?
    && ScopeLevel(m, Contents).Ok?
    && ScopeLevel(m, Deployments).Ok?
    && ScopeLevel(m, IdToken).Ok?
    && ScopeLevel(m, Issues).Ok?
    && ScopeLevel(m, Discussions).Ok?
    && ScopeLevel(m, Packages).Ok?
    && ScopeLevel(m, Pages).Ok?
    && ScopeLevel(m, PullRequests).Ok?
    && ScopeLevel(m, RepositoryProjects).Ok?
    && ScopeLevel(m, SecurityEvents).Ok?
    && ScopeLevel(m, Statuses).Ok?
  }

  /** Each field of `e` is the decoded level of its scope in `m`. */
  predicate LevelsDecoded(m: map<string, Value>, e: ExplicitPermissions) {
    && ScopeLevel(m, Actions) == Ok(e.actions)
    && ScopeLevel(m, Checks) == Ok(e.checks)
    && ScopeLevel(m, Contents) == Ok(e.contents)
    && ScopeLevel(m, Deployments) == Ok(e.deployments)
    && ScopeLevel(m, IdToken) == Ok(e.idToken)
    && ScopeLevel(m, Issues) == Ok(e.issues)
    && ScopeLevel(m, Discussions) == Ok(e.discussions)
    && ScopeLevel(m, Packages) == Ok(e.packages)
    && ScopeLevel(m, Pages) == Ok(e.pages)
    && ScopeLevel(m, PullRequests) == Ok(e.pullRequests)
    && ScopeLevel(m, RepositoryProjects) == Ok(e.repositoryProjects)
    && ScopeLevel(m, SecurityEvents) == Ok(e.securityEvents)
    && ScopeLevel(m, Statuses) == Ok(e.statuses)
  }

  /** The record is defaulted as a whole (`#[serde(default)]` on the struct):
      every scope is decoded independently, an absent scope being `None`. */
  function DecodeExplicitPermissions(v: Value): (r: Result<ExplicitPermissions>)
    ensures !v.Mapping? ==> r == Err(InvalidType(KindOf(v), "struct ExplicitPermissions"))
    ensures v.Mapping? ==> (r.Ok? <==> ScopesDecode(v.entries))
    ensures r.Ok? ==> LevelsDecoded(v.entries, r.value)
    ensures v.Mapping? && r.Err? ==> exists s :: ScopeLevel(v.entries, s) == Err(r.error)
  {
    if !v.Mapping? then Err(InvalidType(KindOf(v), "struct ExplicitPermissions"))
    else
      var m := v.entries;
      var actions :- ScopeLevel(m, Actions);
      var checks :- ScopeLevel(m, Checks);
      var contents :- ScopeLevel(m, Contents);
      var deployments :- ScopeLevel(m, Deployments);
      var idToken :- ScopeLevel(m, IdToken);
      var issues :- ScopeLevel(m, Issues);
      var discussions :- ScopeLevel(m, Discussions);
      var packages :- ScopeLevel(m, Packages);
      var pages :- ScopeLevel(m, Pages);
      var pullRequests :- ScopeLevel(m, PullRequests);
      var repositoryProjects :- ScopeLevel(m, RepositoryProjects);
      var securityEvents :- ScopeLevel(m, SecurityEvents);
      var statuses :- ScopeLevel(m, Statuses);
      Ok(ExplicitPermissions(actions, checks, contents, deployments, idToken, issues, discussions,
                             packages, pages, pullRequests, repositoryProjects, securityEvents, statuses))
  }

  function AsBase(v: Value): Result<Permissions> {
    match DecodeBasePermission(v)
    case Ok(b) => Ok(Base(b))
    case Err(e) => Err(e)
  }

  function AsExplicit(v: Value): Result<Permissions> {
    match DecodeExplicitPermissions(v)
    case Ok(e) => Ok(Explicit(e))
    case Err(e) => Err(e)
  }

  /** Untagged: `Base` is tried first, `Explicit` only when it fails. */
  function DecodePermissions(v: Value): (r: Result<Permissions>)
    ensures DecodeBasePermission(v).Ok? ==> r == Ok(Base(DecodeBasePermission(v).value))
    ensures DecodeBasePermission(v).Err? && DecodeExplicitPermissions(v).Ok? ==>
      r == Ok(Explicit(DecodeExplicitPermissions(v).value))
    ensures DecodeBasePermission(v).Err? && DecodeExplicitPermissions(v).Err? ==>
      r == Err(NoVariantMatched("Permissions"))
  {
    var variants := [AsBase, AsExplicit];
    assert variants[0](v) == AsBase(v) && variants[1](v) == AsExplicit(v);
    Untagged("Permissions", v, variants)
  }

  // ---------------------------------------------------------------------
  // Environment values
  // ---------------------------------------------------------------------

  /** A value of an `env` map; it is always consumed as text (`ToString`). */
  datatype EnvValue = String(s: string) | Number(n: F64) | Boolean(b: bool)

  function AsEnvString(v: Value): Result<EnvValue> {
    match DecodeString(v)
    case Ok(s) => Ok(EnvValue.String(s))
    case Err(e) => Err(e)
  }

  function AsEnvNumber(v: Value): Result<EnvValue> {
    match DecodeF64(v)
    case Ok(n) => Ok(EnvValue.Number(n))
    case Err(e) => Err(e)
  }

  function AsEnvBoolean(v: Value): Result<EnvValue> {
    match DecodeBool(v)
    case Ok(b) => Ok(EnvValue.Boolean(b))
    case Err(e) => Err(e)
  }

  /** Untagged: `String`, then `Number`, then `Boolean`; each accepts only its
      own kind of scalar. */
  function DecodeEnvValue(v: Value): (r: Result<EnvValue>)
    ensures v.Str? ==> r == Ok(EnvValue.String(v.s))
    ensures v.Num? ==> r == Ok(EnvValue.Number(v.n))
    ensures v.Bool? ==> r == Ok(EnvValue.Boolean(v.b))
    ensures v.Null? || v.Sequence? || v.Mapping? ==> r == Err(NoVariantMatched("EnvValue"))
  {
    var variants := [AsEnvString, AsEnvNumber, AsEnvBoolean];
    assert variants[0](v) == AsEnvString(v) && variants[1](v) == AsEnvNumber(v) && variants[2](v) == AsEnvBoolean(v);
    Untagged("EnvValue", v, variants)
  }

  /** `EnvValue::to_string`. How an `f64` prints is not modelled: the caller
      supplies it as `numberText`. */
  function EnvValueToString(e: EnvValue, numberText: F64 -> string): (t: string)
    ensures e.String? ==> DecodeEnvValue(Str(t)) == Ok(e)
    ensures e.Boolean? ==> (t == "true" <==> e.b) && (t == "false" <==> !e.b)
    ensures e.Number? ==> t == numberText(e.n)
  {
    match e
    case String(s) => s
    case Number(n) => numberText(n)
    case Boolean(b) => if b then "true" else "false"
  }

  /** `Env`, a map from variable names to values. */
  function DecodeEnv(v: Value): (r: Result<map<string, EnvValue>>)
    ensures !v.Mapping? ==> r == Err(InvalidType(KindOf(v), "a map"))
    ensures v.Mapping? ==> (r.Ok? <==> forall k | k in v.entries :: DecodeEnvValue(v.entries[k]).Ok?)
    ensures r.Ok? ==> r.value.Keys == v.entries.Keys
    ensures r.Ok? ==> forall k | k in v.entries :: DecodeEnvValue(v.entries[k]) == Ok(r.value[k])
    ensures v.Mapping? && r.Err? ==>
      exists k | k in v.entries :: DecodeEnvValue(v.entries[k]) == Err(r.error)
    ensures v.Mapping? && r.Err? ==> r.error == NoVariantMatched("EnvValue")
  {
    if v.Mapping? then DecodeEntries(v.entries, DecodeEnvValue, NoVariantMatched("EnvValue"))
    else Err(InvalidType(KindOf(v), "a map"))
  }

  // ---------------------------------------------------------------------
  // Literal or expression
  // ---------------------------------------------------------------------

  /** A literal `T`, or an expression string kept as raw, unevaluated text. */
  datatype LoE<T> = Literal(literal: T) | Expr(expr: string)

  type BoE = LoE<bool>

  /** `LoE::default()`, given `T::default()`: a literal, never an expression. */
  function DefaultLoE<T>(dflt: T): (l: LoE<T>)
    ensures !l.Expr? && l.literal == dflt
  {
    Literal(dflt)
  }

  /** `BoE::default()`: the literal `bool::default()`, which is false, the
      same value the boolean `false` decodes to. */
  function DefaultBoE(): (b: BoE)
    ensures b == DefaultLoE(false)
    ensures DecodeBoE(Bool(false)) == Ok(b)
  {
    DefaultLoE(false)
  }

  /** Untagged: `Literal` first, `Expr` only when the literal decoder fails.
      `Expr` takes any string: there is no check for `${{ ... }}` syntax. */
  function DecodeLoE<T>(v: Value, literal: Value -> Result<T>): (r: Result<LoE<T>>)
    ensures literal(v).Ok? ==> r == Ok(Literal(literal(v).value))
    ensures literal(v).Err? && v.Str? ==> r == Ok(Expr(v.s))
    ensures literal(v).Err? && !v.Str? ==> r == Err(NoVariantMatched("LoE"))
  {
    var asLiteral := (x: Value) => match literal(x) case Ok(t) => Ok(Literal(t)) case Err(e) => Err(e);
    var asExpr := (x: Value) => match DecodeString(x) case Ok(s) => Ok(Expr(s)) case Err(e) => Err(e);
    var variants := [asLiteral, asExpr];
    assert variants[0](v) == asLiteral(v) && variants[1](v) == asExpr(v);
    Untagged("LoE", v, variants)
  }

  function DecodeBoE(v: Value): (r: Result<BoE>)
    ensures v.Bool? ==> r == Ok(Literal(v.b))
    ensures v.Str? ==> r == Ok(Expr(v.s))
    ensures !v.Bool? && !v.Str? ==> r == Err(NoVariantMatched("LoE"))
  {
    DecodeLoE(v, DecodeBool)
  }

  // ---------------------------------------------------------------------
  // Scalar or vector
  // ---------------------------------------------------------------------

  datatype SoV<T> = One(one: T) | Many(many: seq<T>)

  /** `From<Vec<T>>`: always `Many`, whatever the length. */
  function SoVFromVec<T>(xs: seq<T>): (x: SoV<T>)
    ensures x.Many? && x.many == xs
  {
    Many(xs)
  }

  /** `From<T>`: always `One`, never the one-element `Many`. */
  function SoVFromOne<T>(x: T): (y: SoV<T>)
    ensures y.One? && y.one == x
    ensures y != SoVFromVec([x])
  {
    One(x)
  }

  /** Untagged: `One` first, `Many` only when the item decoder rejects the
      node itself. */
  function DecodeSoV<T>(v: Value, item: Value -> Result<T>): (r: Result<SoV<T>>)
    ensures item(v).Ok? ==> r == Ok(One(item(v).value))
    ensures item(v).Err? && DecodeSequence(v, item).Ok? ==> r == Ok(Many(DecodeSequence(v, item).value))
    ensures item(v).Err? && DecodeSequence(v, item).Err? ==> r == Err(NoVariantMatched("SoV"))
  {
    var asOne := (x: Value) => match item(x) case Ok(t) => Ok(One(t)) case Err(e) => Err(e);
    var asMany := (x: Value) => match DecodeSequence(x, item) case Ok(ts) => Ok(Many(ts)) case Err(e) => Err(e);
    var variants := [asOne, asMany];
    assert variants[0](v) == asOne(v) && variants[1](v) == asMany(v);
    Untagged("SoV", v, variants)
  }

  // ---------------------------------------------------------------------
  // Encoding: the inverse direction, written only to state round trips.
  // ---------------------------------------------------------------------

  function EncodeBasePermission(b: BasePermission): Value {
    Str(BasePermissionKeyword(b))
  }

  function EncodePermission(p: Permission): Value {
    Str(PermissionKeyword(p))
  }

  /** Every scope is written out, `none` ones included. */
  function EncodeExplicitPermissions(e: ExplicitPermissions): Value {
    Mapping(map[
      "actions" := EncodePermission(e.actions),
      "checks" := EncodePermission(e.checks),
      "contents" := EncodePermission(e.contents),
      "deployments" := EncodePermission(e.deployments),
      "id-token" := EncodePermission(e.idToken),
      "issues" := EncodePermission(e.issues),
      "discussions" := EncodePermission(e.discussions),
      "packages" := EncodePermission(e.packages),
      "pages" := EncodePermission(e.pages),
      "pull-requests" := EncodePermission(e.pullRequests),
      "repository-projects" := EncodePermission(e.repositoryProjects),
      "security-events" := EncodePermission(e.securityEvents),
      "statuses" := EncodePermission(e.statuses)])
  }

  function EncodePermissions(p: Permissions): Value {
    match p
    case Base(b) => EncodeBasePermission(b)
    case Explicit(e) => EncodeExplicitPermissions(e)
  }

  function EncodeEnvValue(e: EnvValue): Value {
    match e
    case String(s) => Str(s)
    case Number(n) => Num(n)
    case Boolean(b) => Bool(b)
  }

  function EncodeEnv(env: map<string, EnvValue>): Value {
    Mapping(map k | k in env :: EncodeEnvValue(env[k]))
  }

  function EncodeLoE<T>(l: LoE<T>, literal: T -> Value): Value {
    match l
    case Literal(t) => literal(t)
    case Expr(s) => Str(s)
  }

  function EncodeBoE(l: BoE): Value {
    EncodeLoE(l, (b: bool) => Bool(b))
  }

  function EncodeSoV<T>(x: SoV<T>, item: T -> Value): Value {
    match x
    case One(t) => item(t)
    case Many(ts) => Sequence(seq(|ts|, i requires 0 <= i < |ts| => item(ts[i])))
  }

  // ---------------------------------------------------------------------
  // Properties
  // ---------------------------------------------------------------------

  /** The defaults: `Permissions::default()` is the base keyword `default`,
      and a mapping with no scope at all is the all-`none` record. */
  lemma DefaultsAreDecodedForms()
    ensures DefaultPermissions() == Base(DefaultBasePermission())
    ensures DecodePermissions(Str("default")) == Ok(DefaultPermissions())
    ensures DecodeExplicitPermissions(Mapping(map[])) == Ok(DefaultExplicitPermissions())
    ensures forall s :: Level(DefaultExplicitPermissions(), s) == Permission.None
  {
  }

  /** Two explicit records that grant the same level to every scope are equal. */
  lemma LevelsDetermineRecord(e1: ExplicitPermissions, e2: ExplicitPermissions)
    requires forall s :: Level(e1, s) == Level(e2, s)
    ensures e1 == e2
  {
    assert Level(e1, Actions) == Level(e2, Actions) && Level(e1, Checks) == Level(e2, Checks);
    assert Level(e1, Contents) == Level(e2, Contents) && Level(e1, Deployments) == Level(e2, Deployments);
    assert Level(e1, IdToken) == Level(e2, IdToken) && Level(e1, Issues) == Level(e2, Issues);
    assert Level(e1, Discussions) == Level(e2, Discussions) && Level(e1, Packages) == Level(e2, Packages);
    assert Level(e1, Pages) == Level(e2, Pages) && Level(e1, PullRequests) == Level(e2, PullRequests);
    assert Level(e1, RepositoryProjects) == Level(e2, RepositoryProjects);
    assert Level(e1, SecurityEvents) == Level(e2, SecurityEvents) && Level(e1, Statuses) == Level(e2, Statuses);
  }

  /** One scope's level: the decoded keyword when present, `none` otherwise. */
  lemma ScopeLevelMeaning(m: map<string, Value>, s: Scope)
    ensures ScopeLevel(m, s) == if ScopeKey(s) in m then DecodePermission(m[ScopeKey(s)]) else Ok(Permission.None)
  {
  }

  /** Explicit permissions scope by scope: the record decodes exactly when every
      present scope holds a permission keyword, and then each field is the level
      its scope decodes to. */
  lemma ExplicitPermissionsByScope(m: map<string, Value>)
    ensures DecodeExplicitPermissions(Mapping(m)).Ok? <==>
      forall s :: ScopeKey(s) in m ==> DecodePermission(m[ScopeKey(s)]).Ok?
    ensures DecodeExplicitPermissions(Mapping(m)).Ok? ==>
      forall s :: ScopeLevel(m, s) == Ok(Level(DecodeExplicitPermissions(Mapping(m)).value, s))
  {
    var r := DecodeExplicitPermissions(Mapping(m));
    forall s ensures ScopeLevel(m, s).Ok? <==> (ScopeKey(s) in m ==> DecodePermission(m[ScopeKey(s)]).Ok?) {
      ScopeLevelMeaning(m, s);
    }
    if r.Ok? {
      forall s ensures ScopeLevel(m, s) == Ok(Level(r.value, s)) {
        match s
        case Actions => case Checks => case Contents => case Deployments => case IdToken =>
        case Issues => case Discussions => case Packages => case Pages => case PullRequests =>
        case RepositoryProjects => case SecurityEvents => case Statuses =>
      }
    } else {
      assert !ScopesDecode(m);
    }
  }

  /** Every omitted scope of a decoded record is `none`; every present one has
      the level its keyword names. */
  lemma ExplicitPermissionsLevels(m: map<string, Value>, e: ExplicitPermissions)
    requires DecodeExplicitPermissions(Mapping(m)) == Ok(e)
    ensures forall s :: ScopeKey(s) !in m ==> Level(e, s) == Permission.None
    ensures forall s :: ScopeKey(s) in m ==> DecodePermission(m[ScopeKey(s)]) == Ok(Level(e, s))
  {
    ExplicitPermissionsByScope(m);
    forall s {
      ScopeLevelMeaning(m, s);
    }
  }

  /** `permissions: read-all` is the base permission `ReadAll`. */
  lemma ReadAllIsBase()
    ensures DecodePermissions(Str("read-all")) == Ok(Base(ReadAll))
  {
  }

  /** A unit variant decodes from its keyword string only. The one-key
      mapping `{read-all: null}` is no base keyword, so it falls through to
      `Explicit`, where `read-all` names no scope and every scope is `none`. */
  lemma ReadAllMapIsNoPermissions()
    ensures DecodePermissions(Mapping(map["read-all" := Null])) == Ok(Explicit(DefaultExplicitPermissions()))
  {
    ExplicitPermissionsIgnoreUnknownKeys(map[], "read-all", Null);
    DefaultsAreDecodedForms();
  }

  /** In the one-scope mapping `security-events: write`, every other scope is
      absent and keeps the default level. */
  lemma SecurityEventsOnly(s: Scope)
    ensures s != SecurityEvents ==> ScopeKey(s) !in map["security-events" := Str("write")]
    ensures s != SecurityEvents ==> Level(DefaultExplicitPermissions().(securityEvents := Write), s) == Permission.None
  {
  }

  /** `security-events: write` alone decodes, granting `write` to that scope
      and `none` to the twelve others. */
  lemma SecurityEventsWriteOnly()
    ensures DecodeExplicitPermissions(Mapping(map["security-events" := Str("write")])).Ok?
    ensures DecodeExplicitPermissions(Mapping(map["security-events" := Str("write")])).value.securityEvents == Write
    ensures forall s :: s != SecurityEvents ==>
      Level(DecodeExplicitPermissions(Mapping(map["security-events" := Str("write")])).value, s) == Permission.None
  {
    var m := map["security-events" := Str("write")];
    assert ScopesDecode(m);
    var r := DecodeExplicitPermissions(Mapping(m));
    ExplicitPermissionsLevels(m, r.value);
    assert Level(r.value, SecurityEvents) == Write;
    forall s | s != SecurityEvents ensures Level(r.value, s) == Permission.None {
      SecurityEventsOnly(s);
    }
  }

  /** The same mapping read as `Permissions` is the explicit record that
      differs from the default in `security-events` alone. */
  lemma SecurityEventsIsExplicit()
    ensures DecodePermissions(Mapping(map["security-events" := Str("write")])) ==
      Ok(Explicit(DefaultExplicitPermissions().(securityEvents := Write)))
  {
    SecurityEventsWriteOnly();
    var r := DecodeExplicitPermissions(Mapping(map["security-events" := Str("write")])).value;
    var e := DefaultExplicitPermissions().(securityEvents := Write);
    assert Level(r, SecurityEvents) == Level(e, SecurityEvents);
    forall s | s != SecurityEvents ensures Level(r, s) == Level(e, s) {
      SecurityEventsOnly(s);
    }
    LevelsDetermineRecord(r, e);
  }

  /** A key that names no scope does not change the decoded record. */
  lemma ExplicitPermissionsIgnoreUnknownKeys(m: map<string, Value>, k: string, x: Value)
    requires forall s :: ScopeKey(s) != k
    ensures DecodeExplicitPermissions(Mapping(m[k := x])) == DecodeExplicitPermissions(Mapping(m))
  {
    forall s ensures ScopeLevel(m[k := x], s) == ScopeLevel(m, s) {
      assert ScopeKey(s) != k;
    }
  }

  /** Base keywords round-trip, both directions: a variant's keyword decodes
      to that variant, and a keyword that decodes is the keyword of its result. */
  lemma BasePermissionKeywords(b: BasePermission, v: Value)
    ensures DecodeBasePermission(EncodeBasePermission(b)) == Ok(b)
    ensures DecodeBasePermission(v).Ok? ==> EncodeBasePermission(DecodeBasePermission(v).value) == v
  {
  }

  /** Permission keywords round-trip in the same two directions. */
  lemma PermissionKeywords(p: Permission, v: Value)
    ensures DecodePermission(EncodePermission(p)) == Ok(p)
    ensures DecodePermission(v).Ok? ==> EncodePermission(DecodePermission(v).value) == v
  {
  }

  /** Each scope is written under its own key. */
  lemma EncodedScope(e: ExplicitPermissions, s: Scope)
    ensures ScopeKey(s) in EncodeExplicitPermissions(e).entries
    ensures EncodeExplicitPermissions(e).entries[ScopeKey(s)] == EncodePermission(Level(e, s))
  {
    match s
    case Actions => case Checks => case Contents => case Deployments => case IdToken =>
    case Issues => case Discussions => case Packages => case Pages => case PullRequests =>
    case RepositoryProjects => case SecurityEvents => case Statuses =>
  }

  lemma ExplicitPermissionsRoundTrip(e: ExplicitPermissions)
    ensures DecodeExplicitPermissions(EncodeExplicitPermissions(e)) == Ok(e)
  {
    var m := EncodeExplicitPermissions(e).entries;
    forall s ensures ScopeLevel(m, s) == Ok(Level(e, s)) {
      EncodedScope(e, s);
      PermissionKeywords(Level(e, s), Null);
    }
    ExplicitPermissionsByScope(m);
    LevelsDetermineRecord(DecodeExplicitPermissions(Mapping(m)).value, e);
  }

  /** Permissions round-trip; an explicit record is never read back as a base
      keyword, because it is written as a mapping. */
  lemma PermissionsRoundTrip(p: Permissions)
    ensures DecodePermissions(EncodePermissions(p)) == Ok(p)
  {
    match p
    case Base(b) => BasePermissionKeywords(b, Null);
    case Explicit(e) => ExplicitPermissionsRoundTrip(e);
  }

  /** No cross-kind coercion: a quoted `"true"` stays a string and a bare
      `true` is a boolean, though both print as `true`. */
  lemma QuotedTrueStaysString(numberText: F64 -> string)
    ensures DecodeEnvValue(Str("true")) == Ok(EnvValue.String("true"))
    ensures DecodeEnvValue(Bool(true)) == Ok(EnvValue.Boolean(true))
    ensures EnvValueToString(DecodeEnvValue(Str("true")).value, numberText) == "true"
    ensures EnvValueToString(DecodeEnvValue(Bool(true)).value, numberText) == "true"
  {
  }

  /** The text of a decoded env value: a string unchanged, a boolean as
      `true`/`false`, a number as its `f64` text. */
  lemma EnvValueText(v: Value, numberText: F64 -> string)
    requires DecodeEnvValue(v).Ok?
    ensures v.Str? || v.Num? || v.Bool?
    ensures v.Str? ==> EnvValueToString(DecodeEnvValue(v).value, numberText) == v.s
    ensures v.Bool? ==> EnvValueToString(DecodeEnvValue(v).value, numberText) == (if v.b then "true" else "false")
    ensures v.Num? ==> EnvValueToString(DecodeEnvValue(v).value, numberText) == numberText(v.n)
  {
  }

  lemma EnvValueRoundTrip(e: EnvValue)
    ensures DecodeEnvValue(EncodeEnvValue(e)) == Ok(e)
  {
  }

  lemma EnvRoundTrip(env: map<string, EnvValue>)
    ensures DecodeEnv(EncodeEnv(env)) == Ok(env)
  {
    var m := EncodeEnv(env).entries;
    forall k | k in m ensures DecodeEnvValue(m[k]) == Ok(env[k]) {
      EnvValueRoundTrip(env[k]);
    }
    EntriesDecodeTo(m, env, DecodeEnvValue, NoVariantMatched("EnvValue"));
  }

  /** `env: {FOO: 1, BAR: true}` decodes, and its values print as the number's
      text and as `true`. */
  lemma EnvScalarsStringify(one: F64, numberText: F64 -> string)
    ensures DecodeEnv(Mapping(map["FOO" := Num(one), "BAR" := Bool(true)])).Ok?
    ensures EnvValueToString(DecodeEnv(Mapping(map["FOO" := Num(one), "BAR" := Bool(true)])).value["FOO"], numberText)
      == numberText(one)
    ensures EnvValueToString(DecodeEnv(Mapping(map["FOO" := Num(one), "BAR" := Bool(true)])).value["BAR"], numberText)
      == "true"
  {
    var m := map["FOO" := Num(one), "BAR" := Bool(true)];
    assert DecodeEnvValue(m["FOO"]).Ok? && DecodeEnvValue(m["BAR"]).Ok?;
  }

  /** `cancel-in-progress`-style fields: a boolean is a literal, a string is an
      expression (whatever its text), and nothing is both. */
  lemma BoELiteralOrExpr(v: Value)
    ensures DecodeBoE(v).Ok? <==> v.Bool? || v.Str?
    ensures DecodeBoE(v).Ok? ==> (DecodeBoE(v).value.Literal? <==> v.Bool?)
    ensures DecodeBoE(v).Ok? ==> (DecodeBoE(v).value.Expr? <==> v.Str?)
    ensures DefaultBoE() == Literal(false)
  {
  }

  /** Declaration order decides: when `T` itself accepts a string, `Literal`
      takes it, so such an `LoE<T>` never holds an `Expr`. */
  lemma LiteralShadowsExpr<T>(v: Value, literal: Value -> Result<T>)
    requires v.Str? ==> literal(v).Ok?
    ensures DecodeLoE(v, literal).Ok? ==> DecodeLoE(v, literal).value.Literal?
  {
  }

  lemma LoERoundTrip<T>(l: LoE<T>, literal: Value -> Result<T>, encode: T -> Value)
    requires l.Literal? ==> literal(encode(l.literal)) == Ok(l.literal)
    requires l.Expr? ==> literal(Str(l.expr)).Err?
    ensures DecodeLoE(EncodeLoE(l, encode), literal) == Ok(l)
  {
  }

  lemma BoERoundTrip(l: BoE)
    ensures DecodeBoE(EncodeBoE(l)) == Ok(l)
  {
  }

  /** The `From` conversions never promote: a one-element vector stays `Many`. */
  lemma FromNeverPromotes<T>(x: T)
    ensures SoVFromVec([x]) == Many([x])
    ensures SoVFromOne(x) == One(x)
    ensures SoVFromVec([x]) != SoVFromOne(x)
  {
  }

  /** A scalar and a one-element sequence of it stay distinguishable. */
  lemma SingularIsNotPromoted<T>(x: Value, item: Value -> Result<T>)
    requires item(x).Ok? && item(Sequence([x])).Err?
    ensures DecodeSoV(x, item) == Ok(One(item(x).value))
    ensures DecodeSoV(Sequence([x]), item) == Ok(Many([item(x).value]))
  {
    var r := DecodeItems([x], item);
    assert r.Ok? && |r.value| == 1 && item([x][0]) == Ok(r.value[0]);
    assert r.value == [item(x).value];
  }

  lemma SoVRoundTrip<T>(x: SoV<T>, item: Value -> Result<T>, encode: T -> Value)
    requires x.One? ==> item(encode(x.one)) == Ok(x.one)
    requires x.Many? ==> forall i | 0 <= i < |x.many| :: item(encode(x.many[i])) == Ok(x.many[i])
    requires x.Many? ==> item(EncodeSoV(x, encode)).Err?
    ensures DecodeSoV(EncodeSoV(x, encode), item) == Ok(x)
  {
    if x.Many? {
      var v := EncodeSoV(x, encode);
      var r := DecodeItems(v.items, item);
      assert forall i | 0 <= i < |x.many| :: v.items[i] == encode(x.many[i]);
      assert r.Ok? && r.value == x.many;
    }
  }
}
