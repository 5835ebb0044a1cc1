/** Configuration loading of the newer code (src/cfg.rs): the `version` key selects the
    format, and a `v1` document that passes its schema yields the software definitions and the
    variable definitions it declares.

    Reading the file and parsing YAML become the `Source` parameter; the JSON-Schema validator
    becomes the list of messages it reports, of which the model knows only that an empty list
    means the document has the shape `load_v1` relies on (`ShapedV1`). */
module Cfg {
  import opened Results
  import opened Text
  import opened Json
  import opened Seqs
  import K8s

  // ---- errors ----

  /** `cfg::Error`; `Config` is named `InvalidConfig` here. */
  datatype Error =
    | InvalidConfig(messages: seq<string>)
    | Io(message: string)
    | Version(value: Option<Json>)
    | YamlSyntax(message: string)

  const InvalidConfigMessage: string := "Invalid configuration"
  const MissingVersionMessage: string := "Missing configuration version"
  const InvalidVersionSuffix: string := " is not a valid configuration version"

  /** `Display for Error`: I/O and YAML errors show their own text. */
  function ErrorMessage(e: Error): string {
    match e
    case InvalidConfig(_) => InvalidConfigMessage
    case Io(m) => m
    case Version(None) => MissingVersionMessage
    case Version(Some(v)) => Render(v) + InvalidVersionSuffix
    case YamlSyntax(m) => m
  }

  /** An invalid version is shown as its JSON text: `1` for the number one. */
  lemma InvalidNumberVersionMessage()
    ensures ErrorMessage(Version(Some(Number(1)))) == "1" + InvalidVersionSuffix
  {
    assert DigitChar(1) == '1';
    assert Render(Number(1)) == NatToString(1) == "1";
  }

  /** The message tells versions with different texts apart and never reads as the
      missing-version message. */
  lemma VersionMessagesDistinct(v: Json, w: Json)
    ensures ErrorMessage(Version(Some(v))) == ErrorMessage(Version(Some(w))) <==> Render(v) == Render(w)
    ensures ErrorMessage(Version(Some(v))) != ErrorMessage(Version(None))
  {
    var a := ErrorMessage(Version(Some(v)));
    var b := ErrorMessage(Version(Some(w)));
    if a == b {
      assert Render(v) == a[..|a| - |InvalidVersionSuffix|];
      assert Render(w) == b[..|b| - |InvalidVersionSuffix|];
    }
    assert |a| >= |InvalidVersionSuffix| > |MissingVersionMessage|;
  }

  // ---- definitions ----

  datatype SoftwareDefinitionKind = ChartTesting | Terraform

  datatype SoftwareDefinition = SoftwareDefinition(kind: SoftwareDefinitionKind, version: string)

  datatype VarDefinitionKind = Literal(value: string)

  datatype VarDefinition = VarDefinition(kind: VarDefinitionKind, name: string)

  datatype Config = Config(softDefs: seq<SoftwareDefinition>, varDefs: seq<VarDefinition>)

  const TfSoftName: string := "terraform"

  /** The softwares a definition turns into: the chart-testing of src/soft/k8s.rs, or the
      Terraform of src/soft/tf.rs, which holds only its version. */
  datatype Software = ChartTestingSoftware(ct: K8s.ChartTesting) | TerraformSoftware(version: string) {
    function Name(): string {
      match this
      case ChartTestingSoftware(ct) => ct.Name()
      case TerraformSoftware(_) => TfSoftName
    }

    function Version(): string {
      match this
      case ChartTestingSoftware(ct) => ct.Version()
      case TerraformSoftware(v) => v
    }
  }

  /** `SoftwareDefinition::into_software`: the software of the definition's kind, at its
      version. */
  function IntoSoftware(d: SoftwareDefinition): (s: Software)
    ensures s.Version() == d.version
    ensures s.ChartTestingSoftware? <==> d.kind == ChartTesting
    ensures s.Name() == (if d.kind == ChartTesting then K8s.CtSoftName else TfSoftName)
  {
    match d.kind
    case ChartTesting => ChartTestingSoftware(K8s.ChartTesting(d.version))
    case Terraform => TerraformSoftware(d.version)
  }

  /** The definition a software is configured by. */
  function DefinitionOf(s: Software): SoftwareDefinition {
    SoftwareDefinition(if s.ChartTestingSoftware? then ChartTesting else Terraform, s.Version())
  }

  /** Definitions and softwares correspond one to one. */
  lemma IntoSoftwareRoundTrip(d: SoftwareDefinition, s: Software)
    ensures DefinitionOf(IntoSoftware(d)) == d
    ensures IntoSoftware(DefinitionOf(s)) == s
  {
  }

  /** The variables a definition turns into: src/var/mod.rs has only literals. */
  datatype Var = LiteralVar(name: string, value: string)

  /** `VarDefinition::into_var`: a literal with the definition's name and value. */
  function IntoVar(d: VarDefinition): (v: Var)
    ensures v.name == d.name && v.value == d.kind.value
  {
    match d.kind
    case Literal(value) => LiteralVar(d.name, value)
  }

  // ---- the v1 format ----

  const SoftwaresKey: string := "softwares"
  const SetKey: string := "set"
  const VersionKey: string := "version"
  const ChartTestingKey: string := "chart-testing"
  const TerraformKey: string := "terraform"

  function KindKey(k: SoftwareDefinitionKind): string {
    match k
    case ChartTesting => ChartTestingKey
    case Terraform => TerraformKey
  }

  /** A value `set` may give a variable. */
  predicate Scalar(v: Json) {
    v.Bool? || v.Number? || v.Float? || v.Str?
  }

  predicate HoldsStr(j: Json, key: string) {
    Get(j, key).Some? ==> Get(j, key).value.Str?
  }

  /** An entry of `set`: a string `name`, and a scalar `value` when it has one. */
  predicate ItemShaped(item: Json) {
    Get(item, "name").Some? && Get(item, "name").value.Str?
    && (Get(item, "value").Some? ==> Scalar(Get(item, "value").value))
  }

  predicate ItemsShaped(items: seq<Json>) {
    forall k :: 0 <= k < |items| ==> ItemShaped(items[k])
  }

  /** What the v1 schema guarantees and `load_v1` unwraps: softwares' versions are strings,
      `set` is an array of shaped entries. */
  predicate ShapedV1(json: Json) {
    (Get(json, SoftwaresKey).Some? ==>
       HoldsStr(Get(json, SoftwaresKey).value, ChartTestingKey) && HoldsStr(Get(json, SoftwaresKey).value, TerraformKey))
    && (Get(json, SetKey).Some? ==> Get(json, SetKey).value.Array? && ItemsShaped(Get(json, SetKey).value.items))
  }

  /** The definition for one software key, when present. */
  function SoftDef(softs: Json, kind: SoftwareDefinitionKind): seq<SoftwareDefinition>
    requires HoldsStr(softs, KindKey(kind))
  {
    var v := Get(softs, KindKey(kind));
    if v.Some? then [SoftwareDefinition(kind, v.value.s)] else []
  }

  /** The software definitions of a v1 document. */
  function SoftDefs(json: Json): seq<SoftwareDefinition>
    requires ShapedV1(json)
  {
    var softs := Get(json, SoftwaresKey);
    if softs.None? then []
    else SoftDef(softs.value, ChartTesting) + SoftDef(softs.value, Terraform)
  }

  /** The text a scalar value is stored as. */
  function ValueText(v: Json): (t: string)
    requires Scalar(v)
    ensures v.Bool? ==> t == (if v.b then "true" else "false")
    ensures v.Str? ==> t == v.s
    ensures v.Number? ==> ParseInt(t) == Some(v.n)
    ensures v.Float? ==> t == v.shown
  {
    match v
    case Bool(b) => BoolToString(b)
    case Number(n) => IntToStringRoundTrip(n); IntToString(n)
    case Float(shown) => shown
    case Str(s) => s
  }

  /** The variable definition of one `set` entry: none when it has no `value`. */
  function VarDef(item: Json): seq<VarDefinition>
    requires ItemShaped(item)
  {
    var value := Get(item, "value");
    if value.None? then [] else [VarDefinition(Literal(ValueText(value.value)), Get(item, "name").value.s)]
  }

  function VarDefs(items: seq<Json>): seq<VarDefinition>
    requires ItemsShaped(items)
  {
    if items == [] then [] else VarDef(items[0]) + VarDefs(items[1..])
  }

  /** The variable definitions of a v1 document. */
  function SetDefs(json: Json): seq<VarDefinition>
    requires ShapedV1(json)
  {
    var entries := Get(json, SetKey);
    if entries.None? then [] else VarDefs(entries.value.items)
  }

  /** Entries contribute independently, in array order. */
  lemma {:induction false} VarDefsConcat(a: seq<Json>, b: seq<Json>)
    requires ItemsShaped(a) && ItemsShaped(b)
    ensures ItemsShaped(a + b)
    ensures VarDefs(a + b) == VarDefs(a) + VarDefs(b)
  {
    assert ItemsShaped(a + b) by {
      forall k | 0 <= k < |a + b| ensures ItemShaped((a + b)[k]) {
        if k < |a| { assert (a + b)[k] == a[k]; } else { assert (a + b)[k] == b[k - |a|]; }
      }
    }
    if a != [] {
      assert (a + b)[1..] == a[1..] + b;
      VarDefsConcat(a[1..], b);
    } else {
      assert a + b == b;
    }
  }

  /** Entries without a value are dropped. */
  lemma {:induction false} UnvaluedEntriesDropped(items: seq<Json>)
    requires ItemsShaped(items)
    requires forall k :: 0 <= k < |items| ==> Get(items[k], "value").None?
    ensures VarDefs(items) == []
  {
    if items != [] {
      UnvaluedEntriesDropped(items[1..]);
    }
  }

  /** When every entry has a value, the k-th definition is the k-th entry: its name, and its
      value as text. */
  lemma {:induction false} ValuedEntriesKept(items: seq<Json>)
    requires ItemsShaped(items)
    requires forall k :: 0 <= k < |items| ==> Get(items[k], "value").Some?
    ensures |VarDefs(items)| == |items|
    ensures forall k :: 0 <= k < |items| ==>
      VarDefs(items)[k] == VarDefinition(Literal(ValueText(Get(items[k], "value").value)), Get(items[k], "name").value.s)
  {
    if items != [] {
      ValuedEntriesKept(items[1..]);
      var rest := VarDefs(items[1..]);
      forall k | 1 <= k < |items|
        ensures VarDefs(items)[k] == rest[k - 1]
      {
      }
    }
  }

  /** The software definitions: chart-testing before terraform, one per key present, each with
      the version written in the document. */
  lemma SoftDefsOrder(json: Json)
    requires ShapedV1(json)
    ensures var ds := SoftDefs(json);
      |ds| <= 2
      && (forall i, j :: 0 <= i < j < |ds| ==> ds[i].kind == ChartTesting && ds[j].kind == Terraform)
      && (forall i :: 0 <= i < |ds| ==> Get(Get(json, SoftwaresKey).value, KindKey(ds[i].kind)) == Some(Str(ds[i].version)))
      && (forall k :: (exists i :: 0 <= i < |ds| && ds[i].kind == k) <==>
            Get(json, SoftwaresKey).Some? && Get(Get(json, SoftwaresKey).value, KindKey(k)).Some?)
  {
    SoftDefsVersions(json);
    forall k
      ensures (exists i :: 0 <= i < |SoftDefs(json)| && SoftDefs(json)[i].kind == k) <==>
        Get(json, SoftwaresKey).Some? && Get(Get(json, SoftwaresKey).value, KindKey(k)).Some?
    {
      SoftDefsKind(json, k);
    }
  }

  lemma SoftDefsVersions(json: Json)
    requires ShapedV1(json)
    ensures var ds := SoftDefs(json);
      |ds| <= 2
      && (forall i, j :: 0 <= i < j < |ds| ==> ds[i].kind == ChartTesting && ds[j].kind == Terraform)
      && (forall i :: 0 <= i < |ds| ==> Get(Get(json, SoftwaresKey).value, KindKey(ds[i].kind)) == Some(Str(ds[i].version)))
  {
    var softs := Get(json, SoftwaresKey);
    if softs.Some? {
      var ct, tf := SoftDef(softs.value, ChartTesting), SoftDef(softs.value, Terraform);
      assert |ct| <= 1 && |tf| <= 1;
      assert forall i :: 0 <= i < |ct| ==>
        ct[i].kind == ChartTesting && Get(softs.value, ChartTestingKey) == Some(Str(ct[i].version));
      assert forall i :: 0 <= i < |tf| ==>
        tf[i].kind == Terraform && Get(softs.value, TerraformKey) == Some(Str(tf[i].version));
      var ds := ct + tf;
      assert forall i :: 0 <= i < |ds| ==> ds[i] == if i < |ct| then ct[i] else tf[i - |ct|];
    }
  }

  lemma SoftDefsKind(json: Json, k: SoftwareDefinitionKind)
    requires ShapedV1(json)
    ensures var ds := SoftDefs(json);
      (exists i :: 0 <= i < |ds| && ds[i].kind == k) <==>
        Get(json, SoftwaresKey).Some? && Get(Get(json, SoftwaresKey).value, KindKey(k)).Some?
  {
    var ds := SoftDefs(json);
    if Get(json, SoftwaresKey).Some? && Get(Get(json, SoftwaresKey).value, KindKey(k)).Some? {
      if k == ChartTesting {
        assert ds[0].kind == k;
      } else {
        assert ds[|ds| - 1].kind == k;
      }
    }
  }

  /** The configuration a valid v1 document yields. */
  function V1Config(json: Json): Config
    requires ShapedV1(json)
  {
    Config(SoftDefs(json), SetDefs(json))
  }

  /** `DefaultConfigLoader::load_v1`: the schema's messages when it has any, otherwise the
      definitions, pushed one by one. */
  method LoadV1(json: Json, schemaErrors: seq<string>) returns (r: Result<Config, Error>)
    requires schemaErrors == [] ==> ShapedV1(json)
    ensures schemaErrors != [] ==> r == Failure(InvalidConfig(schemaErrors))
    ensures schemaErrors == [] ==> r == Success(V1Config(json))
  {
    if schemaErrors != [] {
      return Failure(InvalidConfig(schemaErrors));
    }
    var softDefs := LoadSoftwares(json);
    var varDefs: seq<VarDefinition> := [];
    var vars := Get(json, SetKey);
    if vars.Some? {
      varDefs := LoadVars(vars.value.items);
    }
    return Success(Config(softDefs, varDefs));
  }

  /** The `softwares` part of `load_v1`: chart-testing, then Terraform, each when present. */
  method LoadSoftwares(json: Json) returns (softDefs: seq<SoftwareDefinition>)
    requires ShapedV1(json)
    ensures softDefs == SoftDefs(json)
  {
    softDefs := [];
    var softs := Get(json, SoftwaresKey);
    if softs.Some? {
      var ct := Get(softs.value, ChartTestingKey);
      if ct.Some? {
        softDefs := softDefs + [SoftwareDefinition(ChartTesting, ct.value.s)];
      }
      var tf := Get(softs.value, TerraformKey);
      if tf.Some? {
        softDefs := softDefs + [SoftwareDefinition(Terraform, tf.value.s)];
      }
      assert softDefs == SoftDef(softs.value, ChartTesting) + SoftDef(softs.value, Terraform);
    }
  }

  /** The `set` part of `load_v1`: one definition per entry that has a value, in order. */
  method LoadVars(items: seq<Json>) returns (varDefs: seq<VarDefinition>)
    requires ItemsShaped(items)
    ensures varDefs == VarDefs(items)
  {
    varDefs := [];
    for i := 0 to |items|
      invariant ItemsShaped(items[..i])
      invariant varDefs == VarDefs(items[..i])
    {
      VarDefsPrefixStep(items, i);
      var def := LoadVar(items[i]);
      varDefs := varDefs + def;
    }
    assert items[..|items|] == items;
  }

  lemma VarDefsPrefixStep(items: seq<Json>, i: nat)
    requires ItemsShaped(items) && i < |items|
    ensures ItemShaped(items[i]) && ItemsShaped(items[..i + 1])
    ensures VarDefs(items[..i + 1]) == VarDefs(items[..i]) + VarDefs([items[i]])
  {
    assert items[..i + 1] == items[..i] + [items[i]];
    VarDefsConcat(items[..i], [items[i]]);
  }

  /** One entry of `set`: its value printed, under its name, or nothing without a value. */
  method LoadVar(item: Json) returns (def: seq<VarDefinition>)
    requires ItemShaped(item)
    ensures def == VarDefs([item])
  {
    def := [];
    var value := Get(item, "value");
    if value.Some? {
      var text: string;
      match value.value {
        case Bool(b) => text := BoolToString(b);
        case Number(n) => text := IntToString(n);
        case Float(shown) => text := shown;
        case Str(s) => text := s;
      }
      def := [VarDefinition(Literal(text), Get(item, "name").value.s)];
    }
    assert VarDefs([item]) == VarDef(item);
  }

  /** What reading the file gave: the I/O error of opening it, the YAML error of parsing it,
      or the document. */
  datatype Source = Unreadable(ioError: string) | NotYaml(yamlError: string) | Document(json: Json)

  /** The validator's messages are empty only for a document of the v1 shape. */
  predicate SchemaSound(src: Source, schemaErrors: seq<string>) {
    src.Document? && schemaErrors == [] ==> ShapedV1(src.json)
  }

  /** `DefaultConfigLoader::load`: the first failure among opening, parsing and reading the
      version; a missing version, a version that is not a string and any string but `v1` are
      version errors; `v1` is loaded by `load_v1`. */
  method Load(src: Source, schemaErrors: seq<string>) returns (r: Result<Config, Error>)
    requires SchemaSound(src, schemaErrors)
    ensures src.Unreadable? ==> r == Failure(Io(src.ioError))
    ensures src.NotYaml? ==> r == Failure(YamlSyntax(src.yamlError))
    ensures src.Document? && Get(src.json, VersionKey).None? ==> r == Failure(Version(None))
    ensures src.Document? && Get(src.json, VersionKey).Some? && Get(src.json, VersionKey) != Some(Str("v1")) ==>
      r == Failure(Version(Get(src.json, VersionKey)))
    ensures src.Document? && Get(src.json, VersionKey) == Some(Str("v1")) ==>
      r == (if schemaErrors == [] then Success(V1Config(src.json)) else Failure(InvalidConfig(schemaErrors)))
    ensures r.Success? <==> src.Document? && Get(src.json, VersionKey) == Some(Str("v1")) && schemaErrors == []
  {
    if src.Unreadable? {
      return Failure(Io(src.ioError));
    }
    if src.NotYaml? {
      return Failure(YamlSyntax(src.yamlError));
    }
    var json := src.json;
    var jsonVersion := Get(json, VersionKey);
    if jsonVersion.None? {
      return Failure(Version(None));
    }
    if !jsonVersion.value.Str? {
      return Failure(Version(Some(jsonVersion.value)));
    }
    if jsonVersion.value.s == "v1" {
      r := LoadV1(json, schemaErrors);
    } else {
      r := Failure(Version(Some(jsonVersion.value)));
    }
  }

  /** The loader's own example document: both softwares and the four `set` entries whose
      definitions the loader's test expects. */
  function ExampleJson(): Json {
    Object([(VersionKey, Str("v1")), (SoftwaresKey, ExampleSoftwares()), (SetKey, Array(ExampleItems()))])
  }

  function ExampleSoftwares(): Json {
    Object([(ChartTestingKey, Str("3.7.0")), (TerraformKey, Str("1.2.3"))])
  }

  function ExampleItems(): seq<Json> {
    [Object([("name", Str("VAR_STR")), ("value", Str("value"))]),
     Object([("name", Str("VAR_INT")), ("value", Number(1))]),
     Object([("name", Str("VAR_NB")), ("value", Float("1.1"))]),
     Object([("name", Str("VAR_BOOL")), ("value", Bool(true))])]
  }

  lemma ExampleLookups()
    ensures Get(ExampleJson(), SoftwaresKey) == Some(ExampleSoftwares())
    ensures Get(ExampleJson(), SetKey) == Some(Array(ExampleItems()))
    ensures Get(ExampleSoftwares(), ChartTestingKey) == Some(Str("3.7.0"))
    ensures Get(ExampleSoftwares(), TerraformKey) == Some(Str("1.2.3"))
  {
    var softs := ExampleSoftwares();
    var items := ExampleItems();
    assert VersionKey != SoftwaresKey && VersionKey != SetKey && SoftwaresKey != SetKey by {
      assert |VersionKey| == 7 && |SoftwaresKey| == 9 && |SetKey| == 3;
    }
    assert ChartTestingKey != TerraformKey by { assert |ChartTestingKey| != |TerraformKey|; }
    LookupCons(VersionKey, Str("v1"), [(SoftwaresKey, softs), (SetKey, Array(items))], SoftwaresKey);
    LookupCons(VersionKey, Str("v1"), [(SoftwaresKey, softs), (SetKey, Array(items))], SetKey);
    LookupCons(SoftwaresKey, softs, [(SetKey, Array(items))], SetKey);
    LookupCons(ChartTestingKey, Str("3.7.0"), [(TerraformKey, Str("1.2.3"))], TerraformKey);
  }

  lemma ExampleVarDefs()
    ensures ItemsShaped(ExampleItems())
    ensures VarDefs(ExampleItems()) ==
      [VarDefinition(Literal("value"), "VAR_STR"), VarDefinition(Literal("1"), "VAR_INT"),
       VarDefinition(Literal("1.1"), "VAR_NB"), VarDefinition(Literal("true"), "VAR_BOOL")]
  {
    var items := ExampleItems();
    ExampleItemDefs();
    VarDefsOfFour(items);
  }

  /** The definition each example entry yields on its own. */
  lemma ExampleItemDefs()
    ensures ItemShaped(ExampleItems()[0]) && VarDef(ExampleItems()[0]) == [VarDefinition(Literal("value"), "VAR_STR")]
    ensures ItemShaped(ExampleItems()[1]) && VarDef(ExampleItems()[1]) == [VarDefinition(Literal("1"), "VAR_INT")]
    ensures ItemShaped(ExampleItems()[2]) && VarDef(ExampleItems()[2]) == [VarDefinition(Literal("1.1"), "VAR_NB")]
    ensures ItemShaped(ExampleItems()[3]) && VarDef(ExampleItems()[3]) == [VarDefinition(Literal("true"), "VAR_BOOL")]
  {
    var items := ExampleItems();
    assert Get(items[1], "value") == Some(Number(1));
    assert Get(items[2], "value") == Some(Float("1.1"));
    assert DigitChar(1) == '1';
    assert ValueText(Number(1)) == NatToString(1) == "1";
  }

  lemma VarDefsOfFour(items: seq<Json>)
    requires |items| == 4
    requires ItemShaped(items[0]) && ItemShaped(items[1]) && ItemShaped(items[2]) && ItemShaped(items[3])
    ensures ItemsShaped(items)
    ensures VarDefs(items) == VarDef(items[0]) + (VarDef(items[1]) + (VarDef(items[2]) + VarDef(items[3])))
  {
    assert ItemsShaped(items) by {
      forall k | 0 <= k < |items| ensures ItemShaped(items[k]) {
        assert k == 0 || k == 1 || k == 2 || k == 3;
      }
    }
    VarDefsStep(items, 3);
    VarDefsStep(items, 2);
    VarDefsStep(items, 1);
    VarDefsStep(items, 0);
    assert items[0..] == items;
    assert items[4..] == [];
  }

  lemma VarDefsStep(items: seq<Json>, i: nat)
    requires ItemsShaped(items) && i < |items|
    ensures VarDefs(items[i..]) == VarDef(items[i]) + VarDefs(items[i + 1..])
  {
    assert items[i..][1..] == items[i + 1..];
  }

  /** The example yields both softwares in order and the four variables in order, their
      values as text: the configuration the loader's test expects. */
  lemma ExampleDocument()
    ensures ShapedV1(ExampleJson())
    ensures V1Config(ExampleJson()) == Config(
      [SoftwareDefinition(ChartTesting, "3.7.0"), SoftwareDefinition(Terraform, "1.2.3")],
      [VarDefinition(Literal("value"), "VAR_STR"), VarDefinition(Literal("1"), "VAR_INT"),
       VarDefinition(Literal("1.1"), "VAR_NB"), VarDefinition(Literal("true"), "VAR_BOOL")])
  {
    ExampleSoftDefs();
    ExampleLookups();
    ExampleVarDefs();
    assert SetDefs(ExampleJson()) == VarDefs(ExampleItems());
  }

  lemma ExampleShaped()
    ensures ShapedV1(ExampleJson())
  {
    ExampleLookups();
    ExampleVarDefs();
    var softs := ExampleSoftwares();
    assert HoldsStr(softs, ChartTestingKey) && HoldsStr(softs, TerraformKey);
  }

  lemma ExampleSoftDefs()
    ensures ShapedV1(ExampleJson())
    ensures SoftDefs(ExampleJson()) == [SoftwareDefinition(ChartTesting, "3.7.0"), SoftwareDefinition(Terraform, "1.2.3")]
  {
    ExampleShaped();
    ExampleLookups();
    var softs := ExampleSoftwares();
    assert SoftDef(softs, ChartTesting) == [SoftwareDefinition(ChartTesting, "3.7.0")];
    assert SoftDef(softs, Terraform) == [SoftwareDefinition(Terraform, "1.2.3")];
  }
}
