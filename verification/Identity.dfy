// Build identities: what is fed to SHA-256, and the proof that the stream identifies the
// build inputs, up to the order of dependencies and tools and nothing more.
module Identity {
  import opened Prelude
  import opened Bytes
  import opened Ordering
  import opened Manifest
  import opened Frames

  datatype Tool = Tool(role: Str, executable: Str, version: Str)

  datatype Plugin = Plugin(name: Str, version: Str, digest: Str, protocol: Str)

  datatype Dependency = Dependency(package: Str, result: Str)

  // A BTreeMap is its entries in the order of their keys.
  type Entries = seq<(Str, Str)>

  datatype BuildInput = BuildInput(source: LockedSource, dependencies: seq<Dependency>, target: Str, toolchain: Tool,
                                   buildTools: seq<Tool>, plugin: Plugin, configuration: Entries, environment: Entries)

  datatype IdentityError =
    | NonCacheableSource
    | Invalid
    | DuplicateDependency(package: Str)
    | DuplicateToolRole(role: Str)

  function PackageOf(d: Dependency): Str { d.package }

  function RoleOf(t: Tool): Str { t.role }

  // ----- validation ------------------------------------------------------------------------

  predicate ScalarOk(v: Str) { v != [] && |v| <= 16384 && NUL !in v }

  predicate ToolOk(t: Tool) { ScalarOk(t.role) && ScalarOk(t.executable) && ScalarOk(t.version) }

  predicate EntriesOk(m: Entries) { forall kv | kv in m :: ScalarOk(kv.0) && ScalarOk(kv.1) }

  predicate ScalarsOk(x: BuildInput) {
    && ScalarOk(x.target) && ToolOk(x.toolchain) && ScalarOk(x.plugin.protocol)
    && (forall t | t in x.buildTools :: ToolOk(t)) && EntriesOk(x.configuration) && EntriesOk(x.environment)
  }

  ghost predicate InputOk(x: BuildInput) {
    !x.source.Path? && ScalarsOk(x) && DistinctBy(x.dependencies, PackageOf) && DistinctBy(x.buildTools, RoleOf)
  }

  // From 1 to 16384 bytes, none of them NUL.
  lemma ScalarExactly(v: Str)
    ensures ScalarOk(v) <==> 1 <= |v| <= 0x4000 && forall b | b in v :: b > 0
  {
    assert forall b | b in v :: exists i :: 0 <= i < |v| && v[i] == b;
  }

  // ----- the fields ---------------------------------------------------------------------------

  function ToolFields(prefix: string, t: Tool): seq<Str> {
    [Ascii(prefix + ".role"), t.role, Ascii(prefix + ".executable"), t.executable,
     Ascii(prefix + ".version"), t.version]
  }

  function BuildToolFields(t: Tool): seq<Str> { ToolFields("build_tool", t) }

  function DependencyFields(d: Dependency): seq<Str> {
    [Ascii("dependency.package"), d.package, Ascii("dependency.result"), d.result]
  }

  function EntryFields(prefix: string, kv: (Str, Str)): seq<Str> {
    [Ascii(prefix + ".key"), kv.0, Ascii(prefix + ".value"), kv.1]
  }

  function ConfigurationFields(kv: (Str, Str)): seq<Str> { EntryFields("configuration", kv) }

  function EnvironmentFields(kv: (Str, Str)): seq<Str> { EntryFields("environment", kv) }

  function HeadFields(x: BuildInput): seq<Str> {
    [Ascii("schema"), Ascii("prep.result/1"), Ascii("source"), CanonicalIdentity(x.source), Ascii("target"), x.target]
      + ToolFields("toolchain", x.toolchain)
  }

  function PluginFields(p: Plugin): seq<Str> {
    [Ascii("plugin.name"), p.name, Ascii("plugin.version"), p.version,
     Ascii("plugin.digest"), TAG + p.digest, Ascii("plugin.protocol"), p.protocol]
  }

  function SortedDependencies(x: BuildInput): seq<Dependency> { SortBy(x.dependencies, PackageOf) }

  function SortedTools(x: BuildInput): seq<Tool> { SortBy(x.buildTools, RoleOf) }

  // The stream in five parts, each of which says where it ends.
  function Fields(x: BuildInput): seq<Str> {
    HeadFields(x)
      + (Counted(Ascii("dependency.count"), DependencyFields, SortedDependencies(x))
         + (Counted(Ascii("build_tool.count"), BuildToolFields, SortedTools(x))
            + (PluginFields(x.plugin)
               + (Counted(Ascii("configuration.count"), ConfigurationFields, x.configuration)
                  + (Counted(Ascii("environment.count"), EnvironmentFields, x.environment) + [])))))
  }

  function PreImage(x: BuildInput): Str { Framed(Fields(x)) }

  // ----- what identity is about ---------------------------------------------------------------------

  // Equal in all but the ref and provider of the source and the order of dependencies and tools.
  ghost predicate SameBuild(a: BuildInput, b: BuildInput) {
    && SameIdentity(a.source, b.source)
    && multiset(a.dependencies) == multiset(b.dependencies)
    && a.target == b.target && a.toolchain == b.toolchain
    && multiset(a.buildTools) == multiset(b.buildTools)
    && a.plugin == b.plugin && a.configuration == b.configuration && a.environment == b.environment
  }

  // What is sorted before it is fed ascends, and is the same list up to order.
  lemma FedInOrder(x: BuildInput)
    ensures Ascends(SortedDependencies(x), PackageOf) && multiset(SortedDependencies(x)) == multiset(x.dependencies)
    ensures Ascends(SortedTools(x), RoleOf) && multiset(SortedTools(x)) == multiset(x.buildTools)
  {
    hide SortBy, SortedBy, Ascends;
    SortKeeps(x.dependencies, PackageOf);
    SortKeeps(x.buildTools, RoleOf);
    SortedAscends(SortedDependencies(x), PackageOf);
    SortedAscends(SortedTools(x), RoleOf);
  }

  // The whole stream, for an input with one of everything.
  lemma StreamSpelledOut(x: BuildInput, d: Dependency, t: Tool, c: (Str, Str), e: (Str, Str))
    returns (head: seq<Str>, dependencies: seq<Str>, tools: seq<Str>, plugin: seq<Str>, configuration: seq<Str>,
             environment: seq<Str>)
    requires x.dependencies == [d] && x.buildTools == [t] && x.configuration == [c] && x.environment == [e]
    ensures Fields(x) == head + dependencies + tools + plugin + configuration + environment
    ensures head ==
      [Ascii("schema"), Ascii("prep.result/1"), Ascii("source"), CanonicalIdentity(x.source), Ascii("target"), x.target]
      + [Ascii("toolchain.role"), x.toolchain.role, Ascii("toolchain.executable"), x.toolchain.executable,
         Ascii("toolchain.version"), x.toolchain.version]
    ensures dependencies == [Ascii("dependency.count"), Ascii("1")]
      + [Ascii("dependency.package"), d.package, Ascii("dependency.result"), d.result]
    ensures tools == [Ascii("build_tool.count"), Ascii("1")]
      + [Ascii("build_tool.role"), t.role, Ascii("build_tool.executable"), t.executable,
         Ascii("build_tool.version"), t.version]
    ensures plugin ==
      [Ascii("plugin.name"), x.plugin.name, Ascii("plugin.version"), x.plugin.version,
       Ascii("plugin.digest"), TAG + x.plugin.digest, Ascii("plugin.protocol"), x.plugin.protocol]
    ensures configuration == [Ascii("configuration.count"), Ascii("1")]
      + [Ascii("configuration.key"), c.0, Ascii("configuration.value"), c.1]
    ensures environment == [Ascii("environment.count"), Ascii("1")]
      + [Ascii("environment.key"), e.0, Ascii("environment.value"), e.1]
  {
    hide Ascii, Counted, HeadFields, PluginFields, SortBy, CanonicalIdentity;
    ToolNames();
    HeadSpelledOut(x);
    SortOne(d, PackageOf);
    SortOne(t, RoleOf);
    head, plugin := HeadFields(x), PluginFields(x.plugin);
    dependencies := Counted(Ascii("dependency.count"), DependencyFields, [d]);
    tools := Counted(Ascii("build_tool.count"), BuildToolFields, [t]);
    configuration := Counted(Ascii("configuration.count"), ConfigurationFields, [c]);
    environment := Counted(Ascii("environment.count"), EnvironmentFields, [e]);
    OneCounted(Ascii("dependency.count"), DependencyFields, d);
    OneCounted(Ascii("build_tool.count"), BuildToolFields, t);
    OneCounted(Ascii("configuration.count"), ConfigurationFields, c);
    OneCounted(Ascii("environment.count"), EnvironmentFields, e);
    Chained(head, dependencies, tools, plugin, configuration, environment);
  }

  lemma HeadSpelledOut(x: BuildInput)
    ensures HeadFields(x) ==
      [Ascii("schema"), Ascii("prep.result/1"), Ascii("source"), CanonicalIdentity(x.source), Ascii("target"), x.target]
      + [Ascii("toolchain.role"), x.toolchain.role, Ascii("toolchain.executable"), x.toolchain.executable,
         Ascii("toolchain.version"), x.toolchain.version]
    ensures PluginFields(x.plugin) ==
      [Ascii("plugin.name"), x.plugin.name, Ascii("plugin.version"), x.plugin.version,
       Ascii("plugin.digest"), TAG + x.plugin.digest, Ascii("plugin.protocol"), x.plugin.protocol]
  {
    hide Ascii, CanonicalIdentity;
    ToolNames();
  }

  lemma Chained(a: seq<Str>, b: seq<Str>, c: seq<Str>, d: seq<Str>, e: seq<Str>, f: seq<Str>)
    ensures a + (b + (c + (d + (e + (f + []))))) == a + b + c + d + e + f
  {
  }

  lemma OneCounted<T>(tag: Str, f: T -> seq<Str>, x: T)
    ensures Counted(tag, f, [x]) == [tag, Ascii("1")] + f(x)
  {
    OneOf(f, x);
    assert Decimal(1) == Ascii("1");
    hide Flat;
  }

  lemma ToolNames()
    ensures "toolchain" + ".role" == "toolchain.role" && "toolchain" + ".executable" == "toolchain.executable"
    ensures "toolchain" + ".version" == "toolchain.version"
    ensures "build_tool" + ".role" == "build_tool.role" && "build_tool" + ".executable" == "build_tool.executable"
    ensures "build_tool" + ".version" == "build_tool.version"
    ensures "configuration" + ".key" == "configuration.key" && "configuration" + ".value" == "configuration.value"
    ensures "environment" + ".key" == "environment.key" && "environment" + ".value" == "environment.value"
  {
  }

  lemma OneOf<T>(f: T -> seq<Str>, x: T)
    ensures Flat(f, [x]) == f(x)
  {
    assert [x][..0] == [];
  }

  lemma RenderersRender()
    ensures Renders(DependencyFields, 4) && Renders(BuildToolFields, 6)
    ensures Renders(ConfigurationFields, 4) && Renders(EnvironmentFields, 4)
  {
    hide Ascii;
    forall x, y | DependencyFields(x) == DependencyFields(y) ensures x == y {
      assert DependencyFields(x)[1] == DependencyFields(y)[1] && DependencyFields(x)[3] == DependencyFields(y)[3];
    }
    forall x, y | BuildToolFields(x) == BuildToolFields(y) ensures x == y { ToolFieldsInjective("build_tool", x, y); }
    forall x, y | ConfigurationFields(x) == ConfigurationFields(y) ensures x == y {
      EntryFieldsInjective("configuration", x, y);
    }
    forall x, y | EnvironmentFields(x) == EnvironmentFields(y) ensures x == y {
      EntryFieldsInjective("environment", x, y);
    }
  }

  lemma ToolFieldsInjective(prefix: string, x: Tool, y: Tool)
    requires ToolFields(prefix, x) == ToolFields(prefix, y)
    ensures x == y
  {
    hide Ascii;
    var a, b := ToolFields(prefix, x), ToolFields(prefix, y);
    assert a[1] == b[1] && a[3] == b[3] && a[5] == b[5];
  }

  lemma EntryFieldsInjective(prefix: string, x: (Str, Str), y: (Str, Str))
    requires EntryFields(prefix, x) == EntryFields(prefix, y)
    ensures x == y
  {
    hide Ascii;
    var a, b := EntryFields(prefix, x), EntryFields(prefix, y);
    assert a[1] == b[1] && a[3] == b[3];
  }

  lemma HeadInjective(x: BuildInput, y: BuildInput)
    requires HeadFields(x) == HeadFields(y) && SourceTyped(x.source) && SourceTyped(y.source)
    ensures SameIdentity(x.source, y.source) && x.target == y.target && x.toolchain == y.toolchain
  {
    hide Ascii, CanonicalIdentity, SameIdentity;
    var a, b := HeadFields(x), HeadFields(y);
    assert a[3] == b[3] && a[5] == b[5];
    CanonicalInjective(x.source, y.source);
    assert a[6..] == ToolFields("toolchain", x.toolchain) && b[6..] == ToolFields("toolchain", y.toolchain);
    ToolFieldsInjective("toolchain", x.toolchain, y.toolchain);
  }

  lemma PluginInjective(p: Plugin, q: Plugin)
    requires PluginFields(p) == PluginFields(q)
    ensures p == q
  {
    hide Ascii;
    var a, b := PluginFields(p), PluginFields(q);
    assert a[1] == b[1] && a[3] == b[3] && a[5] == b[5] && a[7] == b[7];
    Unprefixed(TAG, p.digest, q.digest);
  }

  // The parts of equal streams are equal.
  lemma FieldsInjective(a: BuildInput, b: BuildInput)
    requires SourceTyped(a.source) && SourceTyped(b.source) && Fields(a) == Fields(b)
    ensures SameBuild(a, b)
  {
    hide Ascii, Counted, SameIdentity, HeadFields, PluginFields, SortBy, Renders;
    RenderersRender();
    var e, e' := Counted(Ascii("environment.count"), EnvironmentFields, a.environment) + [],
                 Counted(Ascii("environment.count"), EnvironmentFields, b.environment) + [];
    var c, c' := Counted(Ascii("configuration.count"), ConfigurationFields, a.configuration) + e,
                 Counted(Ascii("configuration.count"), ConfigurationFields, b.configuration) + e';
    var p, p' := PluginFields(a.plugin) + c, PluginFields(b.plugin) + c';
    var t, t' := Counted(Ascii("build_tool.count"), BuildToolFields, SortedTools(a)) + p,
                 Counted(Ascii("build_tool.count"), BuildToolFields, SortedTools(b)) + p';
    var d, d' := Counted(Ascii("dependency.count"), DependencyFields, SortedDependencies(a)) + t,
                 Counted(Ascii("dependency.count"), DependencyFields, SortedDependencies(b)) + t';
    HeadLength(a, b);
    SameCut(HeadFields(a), d, HeadFields(b), d');
    HeadInjective(a, b);
    CountedInjective(Ascii("dependency.count"), DependencyFields, 4, SortedDependencies(a), t, SortedDependencies(b),
      t');
    CountedInjective(Ascii("build_tool.count"), BuildToolFields, 6, SortedTools(a), p, SortedTools(b), p');
    SameCut(PluginFields(a.plugin), c, PluginFields(b.plugin), c');
    PluginInjective(a.plugin, b.plugin);
    CountedInjective(Ascii("configuration.count"), ConfigurationFields, 4, a.configuration, e, b.configuration, e');
    CountedInjective(Ascii("environment.count"), EnvironmentFields, 4, a.environment, [], b.environment, []);
    SortKeeps(a.dependencies, PackageOf);
    SortKeeps(b.dependencies, PackageOf);
    SortKeeps(a.buildTools, RoleOf);
    SortKeeps(b.buildTools, RoleOf);
  }

  lemma HeadLength(a: BuildInput, b: BuildInput)
    ensures |HeadFields(a)| == |HeadFields(b)| && |PluginFields(a.plugin)| == |PluginFields(b.plugin)|
  {
    hide Ascii, CanonicalIdentity;
  }

  // Distinct keys tell the elements apart.
  lemma DistinctDistinguishes<T>(s: seq<T>, key: T -> Str)
    requires DistinctBy(s, key)
    ensures Distinguishes(s, key)
  {
    forall x, y | x in s && y in s && key(x) == key(y) ensures x == y {
      var i :| 0 <= i < |s| && s[i] == x;
      var j :| 0 <= j < |s| && s[j] == y;
      assert key(s[i]) == key(s[j]);
    }
  }

  lemma SameBuildSameFields(a: BuildInput, b: BuildInput)
    requires SourceTyped(a.source) && SourceTyped(b.source)
    requires DistinctBy(a.dependencies, PackageOf) && DistinctBy(a.buildTools, RoleOf)
    requires SameBuild(a, b)
    ensures Fields(a) == Fields(b)
  {
    hide Ascii, Counted, CanonicalIdentity, SameIdentity, SortBy;
    DistinctDistinguishes(a.dependencies, PackageOf);
    DistinctDistinguishes(a.buildTools, RoleOf);
    SortPermutes(a.dependencies, b.dependencies, PackageOf);
    SortPermutes(a.buildTools, b.buildTools, RoleOf);
    CanonicalInjective(a.source, b.source);
  }

  // Two accepted inputs feed the digest the same bytes exactly when they are the same build.
  lemma PreImageInjective(a: BuildInput, b: BuildInput)
    requires InputOk(a) && InputOk(b) && SourceTyped(a.source) && SourceTyped(b.source)
    requires Measured(Fields(a)) && Measured(Fields(b))
    ensures PreImage(a) == PreImage(b) <==> SameBuild(a, b)
  {
    hide Fields, SameBuild, Framed;
    if PreImage(a) == PreImage(b) {
      FramedInjective(Fields(a), Fields(b));
      FieldsInjective(a, b);
    }
    if SameBuild(a, b) { SameBuildSameFields(a, b); }
  }

  // ----- the operation --------------------------------------------------------------------------------

  method HashTool(hasher: IdentityHasher, prefix: string, t: Tool)
    requires hasher.Valid()
    modifies hasher
    ensures hasher.Valid() && hasher.fields == old(hasher.fields) + ToolFields(prefix, t)
  {
    hasher.Field(Ascii(prefix + ".role"), t.role);
    hasher.Field(Ascii(prefix + ".executable"), t.executable);
    hasher.Field(Ascii(prefix + ".version"), t.version);
  }

  method HashMap(hasher: IdentityHasher, prefix: string, ghost fields: ((Str, Str)) -> seq<Str>, values: Entries)
    requires hasher.Valid() && forall kv :: fields(kv) == EntryFields(prefix, kv)
    modifies hasher
    ensures hasher.Valid() && hasher.fields == old(hasher.fields) + Counted(Ascii(prefix + ".count"), fields, values)
  {
    hide Ascii, Flat, Decimal;
    hasher.Count(Ascii(prefix + ".count"), |values|);
    var i := 0;
    ghost var before := hasher.fields;
    FlatNothing(fields);
    while i < |values|
      invariant i <= |values| && hasher.Valid() && hasher.fields == before + Flat(fields, values[..i])
    {
      FlatSnoc(fields, values, i);
      hasher.Field(Ascii(prefix + ".key"), values[i].0);
      hasher.Field(Ascii(prefix + ".value"), values[i].1);
      assert fields(values[i]) == EntryFields(prefix, values[i]);
      i := i + 1;
    }
    assert values[..i] == values;
  }

  // The loop over the sorted dependencies.
  method CheckDependencies(dependencies: seq<Dependency>) returns (error: Option<IdentityError>)
    ensures error.None? <==> DistinctBy(dependencies, PackageOf)
    ensures error.Some? ==>
      error.value.DuplicateDependency? && Repeats(dependencies, PackageOf, error.value.package)
  {
    var names: set<Str>, i := {}, 0;
    while i < |dependencies|
      invariant i <= |dependencies|
      invariant forall x :: x in names <==> exists j :: 0 <= j < i && dependencies[j].package == x
      invariant forall j, k | 0 <= j < k < i :: PackageOf(dependencies[j]) != PackageOf(dependencies[k])
    {
      if dependencies[i].package in names {
        ghost var j :| 0 <= j < i && dependencies[j].package == dependencies[i].package;
        assert Repeats(dependencies, PackageOf, dependencies[i].package);
        return Some(DuplicateDependency(dependencies[i].package));
      }
      names := names + {dependencies[i].package};
      i := i + 1;
    }
    return None;
  }

  // The loop over the sorted tools: each is valid, and no role is given twice.
  method CheckTools(tools: seq<Tool>) returns (error: Option<IdentityError>)
    ensures error.None? <==> (forall t | t in tools :: ToolOk(t)) && DistinctBy(tools, RoleOf)
    ensures error == Some(Invalid) ==> exists t | t in tools :: !ToolOk(t)
    ensures error.Some? && error != Some(Invalid) ==>
      error.value.DuplicateToolRole? && Repeats(tools, RoleOf, error.value.role)
  {
    hide ToolOk;
    var roles: set<Str>, i := {}, 0;
    while i < |tools|
      invariant i <= |tools| && forall x :: x in roles <==> exists j :: 0 <= j < i && tools[j].role == x
      invariant forall j, k | 0 <= j < k < i :: RoleOf(tools[j]) != RoleOf(tools[k])
      invariant forall j | 0 <= j < i :: ToolOk(tools[j])
    {
      assert tools[i] in tools;
      if !ToolOk(tools[i]) { return Some(Invalid); }
      if tools[i].role in roles {
        ghost var j :| 0 <= j < i && tools[j].role == tools[i].role;
        assert Repeats(tools, RoleOf, tools[i].role);
        return Some(DuplicateToolRole(tools[i].role));
      }
      roles := roles + {tools[i].role};
      i := i + 1;
    }
    return None;
  }

  method CheckEntries(m: Entries) returns (ok: bool)
    ensures ok <==> EntriesOk(m)
  {
    var i := 0;
    while i < |m|
      invariant i <= |m| && forall j | 0 <= j < i :: ScalarOk(m[j].0) && ScalarOk(m[j].1)
    {
      assert m[i] in m;
      if !ScalarOk(m[i].0) || !ScalarOk(m[i].1) { return false; }
      i := i + 1;
    }
    return true;
  }

  // `result_identity`: an identity exactly for the acceptable inputs, and then the tagged digest
  // of the pre-image. `sha` is SHA-256 in lower-case hexadecimal; nothing is assumed of it.
  method ResultIdentity(x: BuildInput, sha: Str -> Str) returns (r: Result<Str, IdentityError>)
    ensures r.Ok? <==> InputOk(x)
    ensures r.Ok? ==> r.value == TAG + sha(PreImage(x))
    ensures r == Err(NonCacheableSource) <==> x.source.Path?
    ensures r == Err(Invalid) ==> !ScalarsOk(x)
    ensures r.Err? && r.error.DuplicateDependency? ==> Repeats(x.dependencies, PackageOf, r.error.package)
    ensures r.Err? && r.error.DuplicateToolRole? ==> Repeats(x.buildTools, RoleOf, r.error.role)
  {
    hide Repeats, ScalarOk, ToolOk, EntriesOk, SortBy, Framed, Ascii, Flat, Decimal, CanonicalIdentity, ToolFields,
      EntryFields;
    if x.source.Path? { return Err(NonCacheableSource); }
    if !ScalarOk(x.target) { return Err(Invalid); }
    if !ToolOk(x.toolchain) { return Err(Invalid); }
    if !ScalarOk(x.plugin.protocol) { return Err(Invalid); }
    var dependencies := SortBy(x.dependencies, PackageOf);
    SortedIsDistinct(x.dependencies, PackageOf);
    var error := CheckDependencies(dependencies);
    if error.Some? {
      SortedRepeats(x.dependencies, PackageOf, error.value.package);
      return Err(error.value);
    }
    var tools := SortBy(x.buildTools, RoleOf);
    SortedIsDistinct(x.buildTools, RoleOf);
    error := CheckTools(tools);
    if error.Some? {
      if error.value.DuplicateToolRole? { SortedRepeats(x.buildTools, RoleOf, error.value.role); }
      return Err(error.value);
    }
    var ok := CheckEntries(x.configuration);
    if !ok { return Err(Invalid); }
    ok := CheckEntries(x.environment);
    if !ok { return Err(Invalid); }
    var fed := Feed(x, dependencies, tools);
    return Ok(TAG + sha(fed));
  }

  // Sorting neither makes nor removes duplicates.
  lemma SortedIsDistinct<T>(s: seq<T>, key: T -> Str)
    ensures DistinctBy(SortBy(s, key), key) <==> DistinctBy(s, key)
    ensures forall x :: x in SortBy(s, key) <==> x in s
  {
    SortKeeps(s, key);
    SameElements(SortBy(s, key), s);
    if DistinctBy(s, key) { DistinctPermutes(s, SortBy(s, key), key); }
    if DistinctBy(SortBy(s, key), key) { DistinctPermutes(SortBy(s, key), s, key); }
  }

  lemma SortedRepeats<T>(s: seq<T>, key: T -> Str, value: Str)
    requires Repeats(SortBy(s, key), key, value)
    ensures Repeats(s, key, value)
  {
    SortKeeps(s, key);
    RepeatsPermutes(SortBy(s, key), s, key, value);
  }

  // The calls on the hasher.
  method Feed(x: BuildInput, dependencies: seq<Dependency>, tools: seq<Tool>) returns (fed: Str)
    requires dependencies == SortedDependencies(x) && tools == SortedTools(x)
    ensures fed == PreImage(x)
  {
    hide SortBy, Framed, Ascii, Counted, CanonicalIdentity, ToolFields, EntryFields, SortedDependencies, SortedTools,
      Fields;
    var hasher := new IdentityHasher();
    hasher.Field(Ascii("schema"), Ascii("prep.result/1"));
    hasher.Field(Ascii("source"), CanonicalIdentity(x.source));
    hasher.Field(Ascii("target"), x.target);
    HashTool(hasher, "toolchain", x.toolchain);
    assert hasher.fields == HeadFields(x);
    HashDependencies(hasher, dependencies);
    HashTools(hasher, tools);
    ghost var before := hasher.fields;
    hasher.Field(Ascii("plugin.name"), x.plugin.name);
    hasher.Field(Ascii("plugin.version"), x.plugin.version);
    hasher.Field(Ascii("plugin.digest"), TAG + x.plugin.digest);
    hasher.Field(Ascii("plugin.protocol"), x.plugin.protocol);
    assert hasher.fields == before + PluginFields(x.plugin);
    assert "configuration" + ".count" == "configuration.count" && "environment" + ".count" == "environment.count";
    HashMap(hasher, "configuration", ConfigurationFields, x.configuration);
    HashMap(hasher, "environment", EnvironmentFields, x.environment);
    FieldsInOrder(x);
    fed := hasher.fed;
  }

  lemma FieldsInOrder(x: BuildInput)
    ensures Fields(x) ==
      HeadFields(x) + Counted(Ascii("dependency.count"), DependencyFields, SortedDependencies(x))
        + Counted(Ascii("build_tool.count"), BuildToolFields, SortedTools(x)) + PluginFields(x.plugin)
        + Counted(Ascii("configuration.count"), ConfigurationFields, x.configuration)
        + Counted(Ascii("environment.count"), EnvironmentFields, x.environment)
  {
    hide HeadFields, PluginFields, Counted, Ascii, SortedDependencies, SortedTools;
  }

  method HashDependencies(hasher: IdentityHasher, dependencies: seq<Dependency>)
    requires hasher.Valid()
    modifies hasher
    ensures hasher.Valid()
    ensures hasher.fields == old(hasher.fields) + Counted(Ascii("dependency.count"), DependencyFields, dependencies)
  {
    hide Ascii, Flat, Decimal;
    hasher.Count(Ascii("dependency.count"), |dependencies|);
    var i := 0;
    ghost var before := hasher.fields;
    FlatNothing(DependencyFields);
    while i < |dependencies|
      invariant i <= |dependencies| && hasher.Valid() &&
          hasher.fields == before + Flat(DependencyFields, dependencies[..i])
    {
      FlatSnoc(DependencyFields, dependencies, i);
      hasher.Field(Ascii("dependency.package"), dependencies[i].package);
      hasher.Field(Ascii("dependency.result"), dependencies[i].result);
      i := i + 1;
    }
    assert dependencies[..i] == dependencies;
  }

  method HashTools(hasher: IdentityHasher, tools: seq<Tool>)
    requires hasher.Valid()
    modifies hasher
    ensures hasher.Valid()
    ensures hasher.fields == old(hasher.fields) + Counted(Ascii("build_tool.count"), BuildToolFields, tools)
  {
    hide Ascii, Flat, Decimal, ToolFields;
    hasher.Count(Ascii("build_tool.count"), |tools|);
    var i := 0;
    ghost var before := hasher.fields;
    FlatNothing(BuildToolFields);
    while i < |tools|
      invariant i <= |tools| && hasher.Valid() && hasher.fields == before + Flat(BuildToolFields, tools[..i])
    {
      FlatSnoc(BuildToolFields, tools, i);
      HashTool(hasher, "build_tool", tools[i]);
      i := i + 1;
    }
    assert tools[..i] == tools;
  }

  // Identities agree exactly for the same build, unless the digest collides on these two streams.
  lemma IdentityDecides(a: BuildInput, b: BuildInput, sha: Str -> Str)
    requires InputOk(a) && InputOk(b) && SourceTyped(a.source) && SourceTyped(b.source)
    requires Measured(Fields(a)) && Measured(Fields(b))
    requires sha(PreImage(a)) == sha(PreImage(b)) ==> PreImage(a) == PreImage(b)
    ensures TAG + sha(PreImage(a)) == TAG + sha(PreImage(b)) <==> SameBuild(a, b)
  {
    hide InputOk, PreImage, SameBuild;
    PreImageInjective(a, b);
    Unprefixed(TAG, sha(PreImage(a)), sha(PreImage(b)));
  }

  // ----- result identifiers -----------------------------------------------------------------------------

  // `ResultId::parse`.
  function ParseResultId(value: Str): Option<Str> {
    if TAG <= value && ParseDigest(value[|TAG|..]).Some? then Some(TAG + Lower(value[|TAG|..])) else None
  }

  // `StoreResultId::parse`.
  function ParseStoreResultId(value: Str): Option<Str> {
    if TAG <= value && |value| == |TAG| + 64 && IsHex(value[|TAG|..]) then Some(TAG + Lower(value[|TAG|..])) else None
  }

  // The digest parser strips a tag of its own, so a doubled tag is accepted as a result
  // identifier; the store accepts an accepted identifier exactly when its tag is not doubled.
  lemma DoubledTag(value: Str)
    requires ParseResultId(value).Some?
    ensures ParseStoreResultId(ParseResultId(value).value).Some? <==> !(TAG <= Lower(value[|TAG|..]))
    ensures ParseStoreResultId(value).Some? ==> ParseResultId(value) == ParseStoreResultId(value)
  {
    var id, tail := ParseResultId(value).value, Lower(value[|TAG|..]);
    LowerTwice(value[|TAG|..]);
    assert id[|TAG|..] == tail;
    if TAG <= tail {
      assert tail[0] == 115;
    } else {
      assert DigestOk(tail);
    }
  }

  lemma LowerTwice(s: Str)
    ensures Lower(Lower(s)) == Lower(s)
  {
  }

  // A doubled tag is accepted, and not by the store; a single one is read back by both.
  lemma TagsOfDigest(hex: Str)
    requires DigestOk(hex)
    ensures ParseResultId(TAG + TAG + hex) == Some(TAG + TAG + hex) && ParseStoreResultId(TAG + TAG + hex).None?
    ensures ParseResultId(TAG + hex) == Some(TAG + hex) == ParseStoreResultId(TAG + hex)
  {
    assert (TAG + TAG + hex)[|TAG|..] == TAG + hex && (TAG + hex)[|TAG|..] == hex;
    LowerHexStays(hex);
    LowerTagStays(hex);
    assert TAG + (TAG + hex) == TAG + TAG + hex;
    assert TAG[0] == 115 && hex[0] != 115;
  }

  lemma LowerHexStays(hex: Str)
    requires IsLowerHex(hex)
    ensures Lower(hex) == hex
  {
  }

  lemma LowerTagStays(hex: Str)
    requires IsLowerHex(hex)
    ensures Lower(TAG + hex) == TAG + hex
  {
    assert TAG == [115, 104, 97, 50, 53, 54, 58];
    LowerHexStays(hex);
    forall i | 0 <= i < |TAG + hex| ensures LowerByte((TAG + hex)[i]) == (TAG + hex)[i] {
      if i >= |TAG| { assert (TAG + hex)[i] == hex[i - |TAG|]; }
    }
  }
}
