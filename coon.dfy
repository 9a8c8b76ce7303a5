/** The package configuration of coon/packages/config/coon.py: turning the
    parsed `coonfig.json` object into a package's name, flags, prebuild actions,
    build variables, dependency table, versions and url.

    The input is the already-decoded JSON object. Python raises on malformed
    input; the exceptions are modelled as `ConfigError` values. */
module CoonConfigModel {
  import opened Wrappers

  /** A decoded JSON value. */
  datatype Json =
    | JNull
    | JBool(b: bool)
    | JNumber(n: real)
    | JString(s: string)
    | JArray(items: seq<Json>)
    | JObject(fields: map<string, Json>)

  /** The exceptions the parser raises. */
  datatype ConfigError =
    | KeyMissing(key: string) // KeyError: a required key is absent
    | TypeError               // iterating or subscripting the wrong kind of value, or an unhashable key
    | AttributeError          // `.items()` on a value that is not an object
    | ValueError              // unpacking a step that does not have exactly one key

  /** What `action_factory.get_action(action_type, params)` is given; the
      action it builds is not modelled further. */
  datatype Action = Action(kind: string, params: Json)

  /** The `(url, tag)` pair of a dependency. */
  datatype DepRef = DepRef(url: Json, tag: Json)

  /** One parsed dependency entry. */
  datatype Dep = Dep(name: Json, ref: DepRef)

  /** `Compiler.COON`, or another member of the compiler enumeration, named by
      its value; coon/compiler/compiler_type.py is not part of this model. */
  datatype Compiler = Coon | Other(kind: string)

  /** `dict.get(key, default)`. */
  function Get(config: map<string, Json>, key: string, default: Json): (r: Json)
    ensures key in config ==> r == config[key]
    ensures key !in config ==> r == default
  {
    if key in config then config[key] else default
  }

  /** Values Python can use as a dictionary key: everything but lists and
      dictionaries. */
  predicate Hashable(j: Json)
  {
    !j.JArray? && !j.JObject?
  }

  // ---------------------------------------------------------------------------
  // Dependencies (`__parse_deps`).

  /** What iterating the declared dependencies yields when every yielded item
      is then subscripted with a string: the items of a list; an empty string or object
      yields nothing; a non-empty string yields one-character strings and a
      non-empty object yields its key strings, and subscripting a string with a
      string fails; any other value is not iterable. */
  function DepEntries(j: Json): (r: Result<seq<Json>, ConfigError>)
    ensures j.JArray? ==> r == Success(j.items)
    ensures !j.JArray? ==> r == (if j == JString("") || j == JObject(map[]) then Success([]) else Failure(TypeError))
  {
    match j
    case JArray(items) => Success(items)
    case JString(s) => if s == "" then Success([]) else Failure(TypeError)
    case JObject(f) => if f == map[] then Success([]) else Failure(TypeError)
    case _ => Failure(TypeError)
  }

  /** One dependency entry, read as the table insertion reads it: the item
      must be an object with `name`, `url` and `tag`, looked up in that order,
      and its name must be hashable; the entry maps that name to the url and
      tag. */
  function DepEntry(item: Json): (r: Result<Dep, ConfigError>)
    ensures r.Success? <==>
              item.JObject? && "name" in item.fields && "url" in item.fields && "tag" in item.fields
              && Hashable(item.fields["name"])
    ensures r.Success? ==> r.value == Dep(item.fields["name"], DepRef(item.fields["url"], item.fields["tag"]))
    ensures !item.JObject? ==> r == Failure(TypeError)
    ensures item.JObject? && "name" !in item.fields ==> r == Failure(KeyMissing("name"))
    ensures item.JObject? && "name" in item.fields && "url" !in item.fields ==> r == Failure(KeyMissing("url"))
    ensures item.JObject? && "name" in item.fields && "url" in item.fields && "tag" !in item.fields ==>
              r == Failure(KeyMissing("tag"))
  {
    match item
    case JObject(f) =>
      if "name" !in f then Failure(KeyMissing("name"))
      else if "url" !in f then Failure(KeyMissing("url"))
      else if "tag" !in f then Failure(KeyMissing("tag"))
      else if !Hashable(f["name"]) then Failure(TypeError)
      else Success(Dep(f["name"], DepRef(f["url"], f["tag"])))
    case _ => Failure(TypeError)
  }

  /** The dependency table after inserting the entries of `items` into `acc`
      in order, or the first error. */
  function InsertDeps(acc: map<Json, DepRef>, items: seq<Json>): Result<map<Json, DepRef>, ConfigError>
    decreases |items|
  {
    if items == [] then Success(acc)
    else
      match InsertDeps(acc, items[..|items| - 1])
      case Failure(err) => Failure(err)
      case Success(m) =>
        match DepEntry(items[|items| - 1])
        case Failure(err) => Failure(err)
        case Success(d) => Success(m[d.name := d.ref])
  }

  predicate AllEntries(items: seq<Json>)
  {
    forall i :: 0 <= i < |items| ==> DepEntry(items[i]).Success?
  }

  /** The name of a well-formed entry. */
  function NameOf(item: Json): Json
    requires DepEntry(item).Success?
  {
    DepEntry(item).value.name
  }

  /** Inserting succeeds exactly when every entry is well formed. */
  lemma {:induction false} InsertDepsSucceeds(acc: map<Json, DepRef>, items: seq<Json>)
    ensures InsertDeps(acc, items).Success? <==> AllEntries(items)
    decreases |items|
  {
    if items != [] {
      var init := items[..|items| - 1];
      InsertDepsSucceeds(acc, init);
      assert forall i :: 0 <= i < |init| ==> init[i] == items[i];
    }
  }

  /** A failed insertion reports the error of the first malformed entry. */
  lemma {:induction false} InsertDepsFirstError(acc: map<Json, DepRef>, items: seq<Json>)
    ensures InsertDeps(acc, items).Failure? ==>
              exists i :: 0 <= i < |items| && DepEntry(items[i]).Failure?
                && InsertDeps(acc, items).error == DepEntry(items[i]).error
                && forall j :: 0 <= j < i ==> DepEntry(items[j]).Success?
    decreases |items|
  {
    if items != [] {
      var init := items[..|items| - 1];
      InsertDepsFirstError(acc, init);
      InsertDepsSucceeds(acc, init);
      assert forall i :: 0 <= i < |init| ==> init[i] == items[i];
      if InsertDeps(acc, init).Success? && DepEntry(items[|items| - 1]).Failure? {
        assert AllEntries(init);
        var i := |items| - 1;
        assert forall j :: 0 <= j < i ==> DepEntry(items[j]).Success?;
      }
    }
  }

  /** The keys of the table are those of `acc` and the names of the entries. */
  lemma {:induction false} InsertDepsKeys(acc: map<Json, DepRef>, items: seq<Json>)
    requires AllEntries(items)
    ensures InsertDeps(acc, items).Success?
    ensures forall k :: k in InsertDeps(acc, items).value <==>
              k in acc || exists i :: 0 <= i < |items| && NameOf(items[i]) == k
    decreases |items|
  {
    InsertDepsSucceeds(acc, items);
    if items != [] {
      var init := items[..|items| - 1];
      assert forall i :: 0 <= i < |init| ==> init[i] == items[i];
      assert AllEntries(init);
      InsertDepsKeys(acc, init);
      var m := InsertDeps(acc, items).value;
      forall k | k in m
        ensures k in acc || exists i :: 0 <= i < |items| && NameOf(items[i]) == k
      {
        if k != NameOf(items[|items| - 1]) {
          assert k in InsertDeps(acc, init).value;
        }
      }
    }
  }

  /** Each name maps to the `(url, tag)` of its last entry: a later entry with
      the same name overwrites an earlier one. */
  lemma {:induction false} InsertDepsLastWins(acc: map<Json, DepRef>, items: seq<Json>)
    requires AllEntries(items)
    ensures InsertDeps(acc, items).Success?
    ensures forall i :: 0 <= i < |items| && (forall j :: i < j < |items| ==> NameOf(items[j]) != NameOf(items[i])) ==>
              NameOf(items[i]) in InsertDeps(acc, items).value
              && InsertDeps(acc, items).value[NameOf(items[i])] == DepEntry(items[i]).value.ref
    decreases |items|
  {
    InsertDepsSucceeds(acc, items);
    if items != [] {
      var init := items[..|items| - 1];
      assert forall i :: 0 <= i < |init| ==> init[i] == items[i];
      assert AllEntries(init);
      InsertDepsLastWins(acc, init);
      var n := |items| - 1;
      forall i | 0 <= i < |items| && (forall j :: i < j < |items| ==> NameOf(items[j]) != NameOf(items[i]))
        ensures NameOf(items[i]) in InsertDeps(acc, items).value
        ensures InsertDeps(acc, items).value[NameOf(items[i])] == DepEntry(items[i]).value.ref
      {
        if i < n {
          assert NameOf(items[n]) != NameOf(items[i]);
          assert forall j :: i < j < |init| ==> NameOf(init[j]) != NameOf(init[i]);
        }
      }
    }
  }

  /** A key of `acc` that no entry names keeps its value. */
  lemma {:induction false} InsertDepsKeepsOthers(acc: map<Json, DepRef>, items: seq<Json>)
    requires AllEntries(items)
    ensures InsertDeps(acc, items).Success?
    ensures forall k :: k in acc && (forall i :: 0 <= i < |items| ==> NameOf(items[i]) != k) ==>
              k in InsertDeps(acc, items).value && InsertDeps(acc, items).value[k] == acc[k]
    decreases |items|
  {
    InsertDepsSucceeds(acc, items);
    if items != [] {
      var init := items[..|items| - 1];
      assert forall i :: 0 <= i < |init| ==> init[i] == items[i];
      assert AllEntries(init);
      InsertDepsKeepsOthers(acc, init);
    }
  }

  /** Once an insertion has failed, further entries change nothing. */
  lemma {:induction false} InsertDepsFailureSticks(acc: map<Json, DepRef>, items: seq<Json>, k: nat, m: nat)
    requires k <= m <= |items| && InsertDeps(acc, items[..k]).Failure?
    ensures InsertDeps(acc, items[..m]) == InsertDeps(acc, items[..k])
    decreases m
  {
    if m > k {
      InsertDepsFailureSticks(acc, items, k, m - 1);
      assert items[..m][..m - 1] == items[..m - 1];
    }
  }

  /** Two entries with the same name: the table keeps the second. */
  lemma LaterEntryOverwrites()
    ensures var first := JObject(map["name" := JString("a"), "url" := JString("u1"), "tag" := JString("1")]);
            var second := JObject(map["name" := JString("a"), "url" := JString("u2"), "tag" := JString("2")]);
            InsertDeps(map[], [first, second]) == Success(map[JString("a") := DepRef(JString("u2"), JString("2"))])
  {
    var first := JObject(map["name" := JString("a"), "url" := JString("u1"), "tag" := JString("1")]);
    var second := JObject(map["name" := JString("a"), "url" := JString("u2"), "tag" := JString("2")]);
    var one, two := DepRef(JString("u1"), JString("1")), DepRef(JString("u2"), JString("2"));
    assert DepEntry(first) == Success(Dep(JString("a"), one));
    assert DepEntry(second) == Success(Dep(JString("a"), two));
    assert [first, second][..1] == [first];
    assert [first][..0] == [];
    assert InsertDeps(map[], [first]) == Success(map[JString("a") := one]);
    assert map[JString("a") := DepRef(JString("u1"), JString("1"))][JString("a") := DepRef(JString("u2"), JString("2"))]
        == map[JString("a") := DepRef(JString("u2"), JString("2"))];
  }

  // ---------------------------------------------------------------------------
  // Prebuild steps (`__parse_prebuild`).

  /** What iterating the `prebuild` value (an empty list when absent) yields
      when every step is then asked for its items: the items of a list; an empty string or object
      yields nothing; the strings a non-empty string or object yields have no
      `.items()`; any other value is not iterable. */
  function PrebuildSteps(j: Json): (r: Result<seq<Json>, ConfigError>)
    ensures j.JArray? ==> r == Success(j.items)
    ensures (j.JString? && j.s != "") || (j.JObject? && j.fields != map[]) ==> r == Failure(AttributeError)
    ensures j.JNull? || j.JBool? || j.JNumber? ==> r == Failure(TypeError)
    ensures j == JString("") || j == JObject(map[]) ==> r == Success([])
  {
    match j
    case JArray(items) => Success(items)
    case JString(s) => if s == "" then Success([]) else Failure(AttributeError)
    case JObject(f) => if f == map[] then Success([]) else Failure(AttributeError)
    case _ => Failure(TypeError)
  }

  /** Every key of a one-key map is the same key. */
  lemma SingleKey(f: map<string, Json>, a: string, b: string)
    requires |f| == 1 && a in f && b in f
    ensures a == b
  {
    if a != b {
      assert {a, b} <= f.Keys;
      assert |{a, b}| == 2;
      SubsetCard({a, b}, f.Keys);
    }
  }

  lemma {:induction false} SubsetCard(s: set<string>, t: set<string>)
    requires s <= t
    ensures |s| <= |t|
    decreases |t|
  {
    if s != {} {
      var x :| x in s;
      SubsetCard(s - {x}, t - {x});
    }
  }

  /** The only key of a one-key map. */
  function TheKey(f: map<string, Json>): (k: string)
    requires |f| == 1
    ensures k in f && forall k' :: k' in f ==> k' == k
  {
    var k :| k in f;
    assert forall k' :: k' in f ==> k' == k by {
      forall k' | k' in f
        ensures k' == k
      {
        SingleKey(f, k', k);
      }
    }
    k
  }

  /** Unpacking a step into its single (action type, parameters) pair, and the
      action built from the pair: a step must be an object with exactly one
      key. */
  function StepAction(step: Json): (r: Result<Action, ConfigError>)
    ensures r.Success? <==> step.JObject? && |step.fields| == 1
    ensures !step.JObject? ==> r == Failure(AttributeError)
    ensures step.JObject? && |step.fields| != 1 ==> r == Failure(ValueError)
    ensures r.Success? ==> r.value.kind in step.fields && r.value.params == step.fields[r.value.kind]
  {
    match step
    case JObject(f) =>
      if |f| != 1 then Failure(ValueError)
      else var k := TheKey(f); Success(Action(k, f[k]))
    case _ => Failure(AttributeError)
  }

  /** The actions of `steps`, in order, or the first error. */
  function Actions(steps: seq<Json>): Result<seq<Action>, ConfigError>
    decreases |steps|
  {
    if steps == [] then Success([])
    else
      match Actions(steps[..|steps| - 1])
      case Failure(err) => Failure(err)
      case Success(acts) =>
        match StepAction(steps[|steps| - 1])
        case Failure(err) => Failure(err)
        case Success(a) => Success(acts + [a])
  }

  /** Exactly one action per step, in step order; a step without exactly one
      key makes the whole parse fail with the first such step's error. */
  lemma {:induction false} ActionsPerStep(steps: seq<Json>)
    ensures Actions(steps).Success? <==> forall i :: 0 <= i < |steps| ==> StepAction(steps[i]).Success?
    ensures Actions(steps).Success? ==>
              && |Actions(steps).value| == |steps|
              && forall i :: 0 <= i < |steps| ==> Actions(steps).value[i] == StepAction(steps[i]).value
    ensures Actions(steps).Failure? ==>
              exists i :: 0 <= i < |steps| && StepAction(steps[i]).Failure?
                && Actions(steps).error == StepAction(steps[i]).error
                && forall j :: 0 <= j < i ==> StepAction(steps[j]).Success?
    decreases |steps|
  {
    if steps != [] {
      var init := steps[..|steps| - 1];
      ActionsPerStep(init);
      assert forall i :: 0 <= i < |init| ==> init[i] == steps[i];
      var last := |steps| - 1;
      if Actions(init).Success? && StepAction(steps[last]).Failure? {
        assert forall j :: 0 <= j < last ==> StepAction(steps[j]).Success?;
      }
    }
  }

  /** Once a step has failed, further steps change nothing. */
  lemma {:induction false} ActionsFailureSticks(steps: seq<Json>, k: nat, m: nat)
    requires k <= m <= |steps| && Actions(steps[..k]).Failure?
    ensures Actions(steps[..m]) == Actions(steps[..k])
    decreases m
  {
    if m > k {
      ActionsFailureSticks(steps, k, m - 1);
      assert steps[..m][..m - 1] == steps[..m - 1];
    }
  }

  // ---------------------------------------------------------------------------
  // The whole configuration (`CoonConfig.__init__`).

  /** The attributes of a parsed configuration. */
  datatype CoonFields = CoonFields(
    name: Json, dropUnknown: Json, withSource: Json, prebuild: seq<Action>,
    buildVars: Json, cBuildVars: Json, deps: map<Json, DepRef>,
    confVsn: Json, gitVsn: Json, url: Json)

  /** The `url` argument as a JSON value. */
  function UrlArg(url: Option<string>): Json
  {
    match url
    case None => JNull
    case Some(s) => JString(s)
  }

  /** The prebuild actions of a configuration, or the error parsing them. */
  function Prebuild(config: map<string, Json>): (r: Result<seq<Action>, ConfigError>)
    ensures "prebuild" !in config ==> r == Success([])
  {
    match PrebuildSteps(Get(config, "prebuild", JArray([])))
    case Failure(err) => Failure(err)
    case Success(steps) => Actions(steps)
  }

  /** The table after inserting the entries `declared` yields into `acc`, or
      the error iterating or inserting them. */
  function Declared(acc: map<Json, DepRef>, declared: Json): Result<map<Json, DepRef>, ConfigError>
  {
    match DepEntries(declared)
    case Failure(err) => Failure(err)
    case Success(items) => InsertDeps(acc, items)
  }

  /** The dependency table of a configuration, or the error parsing it. */
  function DepTable(config: map<string, Json>): (r: Result<map<Json, DepRef>, ConfigError>)
    ensures "deps" !in config ==> r == Success(map[])
  {
    Declared(map[], Get(config, "deps", JObject(map[])))
  }

  /** `CoonConfig(config, url)`: `name` is required; the flags default to true,
      the build variables to empty lists and the versions to None; the
      configuration's own `url` takes precedence over the argument; errors are
      raised in the order name, prebuild, deps. */
  function Parse(config: map<string, Json>, url: Option<string>): (r: Result<CoonFields, ConfigError>)
    ensures "name" !in config ==> r == Failure(KeyMissing("name"))
    ensures "name" in config && Prebuild(config).Failure? ==> r == Failure(Prebuild(config).error)
    ensures "name" in config && Prebuild(config).Success? && DepTable(config).Failure? ==> r == Failure(DepTable(config).error)
    ensures r.Success? <==> "name" in config && Prebuild(config).Success? && DepTable(config).Success?
    ensures r.Success? ==>
              && r.value.name == config["name"]
              && r.value.dropUnknown == Get(config, "drop_unknown_deps", JBool(true))
              && r.value.withSource == Get(config, "with_source", JBool(true))
              && r.value.prebuild == Prebuild(config).value
              && r.value.buildVars == Get(config, "build_vars", JArray([]))
              && r.value.cBuildVars == Get(config, "c_build_vars", JArray([]))
              && r.value.deps == DepTable(config).value
              && r.value.confVsn == Get(config, "app_vsn", JNull)
              && r.value.gitVsn == Get(config, "tag", JNull)
              && r.value.url == (if "url" in config then config["url"] else UrlArg(url))
  {
    if "name" !in config then Failure(KeyMissing("name"))
    else
      match Prebuild(config)
      case Failure(err) => Failure(err)
      case Success(actions) =>
        match DepTable(config)
        case Failure(err) => Failure(err)
        case Success(deps) =>
          Success(CoonFields(
            config["name"], Get(config, "drop_unknown_deps", JBool(true)), Get(config, "with_source", JBool(true)),
            actions, Get(config, "build_vars", JArray([])), Get(config, "c_build_vars", JArray([])), deps,
            Get(config, "app_vsn", JNull), Get(config, "tag", JNull), Get(config, "url", UrlArg(url))))
  }

  lemma ParseSucceeds(config: map<string, Json>, url: Option<string>, actions: seq<Action>, table: map<Json, DepRef>)
    requires "name" in config && Prebuild(config) == Success(actions) && DepTable(config) == Success(table)
    ensures Parse(config, url) == Success(CoonFields(
              config["name"], Get(config, "drop_unknown_deps", JBool(true)), Get(config, "with_source", JBool(true)),
              actions, Get(config, "build_vars", JArray([])), Get(config, "c_build_vars", JArray([])), table,
              Get(config, "app_vsn", JNull), Get(config, "tag", JNull), Get(config, "url", UrlArg(url))))
  {
  }

  /** A configuration with only a name gets every default. */
  lemma NameOnly(name: Json, url: Option<string>)
    ensures Parse(map["name" := name], url)
         == Success(CoonFields(name, JBool(true), JBool(true), [], JArray([]), JArray([]), map[], JNull, JNull, UrlArg(url)))
  {
    var config := map["name" := name];
    assert "prebuild" !in config && "deps" !in config;
  }

  /** With a list of well-formed entries the table's keys are exactly their
      names, each mapped to the `(url, tag)` of its last entry; any malformed
      entry makes the parse fail. */
  lemma DepsFromList(config: map<string, Json>, url: Option<string>, items: seq<Json>)
    requires "name" in config && Prebuild(config).Success?
    requires "deps" in config && config["deps"] == JArray(items)
    ensures Parse(config, url).Success? <==> AllEntries(items)
    ensures Parse(config, url).Success? ==>
              var deps := Parse(config, url).value.deps;
              && (forall k :: k in deps <==> exists i :: 0 <= i < |items| && NameOf(items[i]) == k)
              && (forall i :: 0 <= i < |items| && (forall j :: i < j < |items| ==> NameOf(items[j]) != NameOf(items[i])) ==>
                    deps[NameOf(items[i])] == DepEntry(items[i]).value.ref)
  {
    InsertDepsSucceeds(map[], items);
    if AllEntries(items) {
      InsertDepsKeys(map[], items);
      InsertDepsLastWins(map[], items);
    }
  }

  /** With a list of steps, `prebuild` holds exactly one action per step, in
      step order. */
  lemma PrebuildFromList(config: map<string, Json>, url: Option<string>, steps: seq<Json>)
    requires "name" in config && DepTable(config).Success?
    requires "prebuild" in config && config["prebuild"] == JArray(steps)
    ensures Parse(config, url).Success? <==> forall i :: 0 <= i < |steps| ==> StepAction(steps[i]).Success?
    ensures Parse(config, url).Success? ==>
              && |Parse(config, url).value.prebuild| == |steps|
              && forall i :: 0 <= i < |steps| ==> Parse(config, url).value.prebuild[i] == StepAction(steps[i]).value
  {
    ActionsPerStep(steps);
  }

  // ---------------------------------------------------------------------------
  // The configuration object.

  class CoonConfig {
    var name: Json
    var dropUnknown: Json
    var withSource: Json
    var prebuild: seq<Action>
    var buildVars: Json
    var cBuildVars: Json
    var deps: map<Json, DepRef>
    var confVsn: Json
    var gitVsn: Json
    var url: Json

    function Fields(): CoonFields
      reads this
    {
      CoonFields(name, dropUnknown, withSource, prebuild, buildVars, cBuildVars, deps, confVsn, gitVsn, url)
    }

    /** The base class initialiser: an empty dependency table and an empty
        prebuild list. */
    constructor ()
      ensures deps == map[] && prebuild == []
      ensures name == JNull && dropUnknown == JNull && withSource == JNull && buildVars == JNull && cBuildVars == JNull
      ensures confVsn == JNull && gitVsn == JNull && url == JNull
    {
      name, dropUnknown, withSource, prebuild := JNull, JNull, JNull, [];
      buildVars, cBuildVars, deps := JNull, JNull, map[];
      confVsn, gitVsn, url := JNull, JNull, JNull;
    }

    /** `CoonConfig(config, url)`: the base initialiser, then `Init`. */
    static method FromDict(config: map<string, Json>, url: Option<string>) returns (r: Result<CoonConfig, ConfigError>)
      ensures Parse(config, url).Failure? ==> r == Failure(Parse(config, url).error)
      ensures Parse(config, url).Success? ==> r.Success? && fresh(r.value) && r.value.Fields() == Parse(config, url).value
    {
      var c := new CoonConfig();
      var o := c.Init(config, url);
      if o.Fail? {
        return Failure(o.error);
      }
      ParseSucceeds(config, url, Prebuild(config).value, DepTable(config).value);
      return Success(c);
    }

    /** The body of `CoonConfig.__init__`: the fields set step by step, in the
        source's order, failing where `Parse` fails and with the same error. */
    method Init(config: map<string, Json>, url: Option<string>) returns (o: Outcome<ConfigError>)
      requires deps == map[] && prebuild == []
      modifies this
      ensures "name" !in config ==> o == Fail(KeyMissing("name"))
      ensures "name" in config && Prebuild(config).Failure? ==> o == Fail(Prebuild(config).error)
      ensures "name" in config && Prebuild(config).Success? && DepTable(config).Failure? ==> o == Fail(DepTable(config).error)
      ensures "name" in config && Prebuild(config).Success? && DepTable(config).Success? ==>
                && o == Pass && name == config["name"]
                && dropUnknown == Get(config, "drop_unknown_deps", JBool(true))
                && withSource == Get(config, "with_source", JBool(true))
                && prebuild == Prebuild(config).value
                && buildVars == Get(config, "build_vars", JArray([]))
                && cBuildVars == Get(config, "c_build_vars", JArray([]))
                && deps == DepTable(config).value
                && confVsn == Get(config, "app_vsn", JNull) && gitVsn == Get(config, "tag", JNull)
                && this.url == Get(config, "url", UrlArg(url))
    {
      if "name" !in config {
        return Fail(KeyMissing("name"));
      }
      o := InitHead(config);
      if o.Fail? {
        return;
      }
      o := InitTail(config, url);
    }

    /** The first half of `__init__`: name, the two flags, then the prebuild
        steps. */
    method InitHead(config: map<string, Json>) returns (o: Outcome<ConfigError>)
      requires "name" in config && prebuild == []
      modifies this`name, this`dropUnknown, this`withSource, this`prebuild
      ensures Prebuild(config).Failure? ==> o == Fail(Prebuild(config).error)
      ensures Prebuild(config).Success? ==>
                && o == Pass && name == config["name"]
                && dropUnknown == Get(config, "drop_unknown_deps", JBool(true))
                && withSource == Get(config, "with_source", JBool(true))
                && prebuild == Prebuild(config).value
    {
      name := config["name"];
      dropUnknown := Get(config, "drop_unknown_deps", JBool(true));
      withSource := Get(config, "with_source", JBool(true));
      o := ParsePrebuild(config);
    }

    /** The second half of `__init__`: build variables, dependencies, the two
        versions and the url. */
    method InitTail(config: map<string, Json>, url: Option<string>) returns (o: Outcome<ConfigError>)
      requires deps == map[]
      modifies this`buildVars, this`cBuildVars, this`deps, this`confVsn, this`gitVsn, this`url
      ensures DepTable(config).Failure? ==> o == Fail(DepTable(config).error)
      ensures DepTable(config).Success? ==>
                && o == Pass
                && buildVars == Get(config, "build_vars", JArray([]))
                && cBuildVars == Get(config, "c_build_vars", JArray([]))
                && deps == DepTable(config).value
                && confVsn == Get(config, "app_vsn", JNull) && gitVsn == Get(config, "tag", JNull)
                && this.url == Get(config, "url", UrlArg(url))
    {
      ParseBuildVars(config);
      var declared := Get(config, "deps", JObject(map[]));
      assert DepTable(config) == Declared(map[], declared);
      o := ParseDeps(declared);
      if o.Fail? {
        return;
      }
      confVsn := Get(config, "app_vsn", JNull);
      gitVsn := Get(config, "tag", JNull);
      this.url := Get(config, "url", UrlArg(url));
    }

    /** `__parse_prebuild(parsed)`: one action appended per step. */
    method ParsePrebuild(parsed: map<string, Json>) returns (r: Outcome<ConfigError>)
      modifies this`prebuild
      ensures Prebuild(parsed).Failure? ==> r == Fail(Prebuild(parsed).error)
      ensures Prebuild(parsed).Success? ==> r == Pass && prebuild == old(prebuild) + Prebuild(parsed).value
    {
      var stepsOf := PrebuildSteps(Get(parsed, "prebuild", JArray([])));
      if stepsOf.Failure? {
        return Fail(stepsOf.error);
      }
      var steps := stepsOf.value;
      var i := 0;
      while i < |steps|
        invariant 0 <= i <= |steps|
        invariant Actions(steps[..i]).Success?
        invariant prebuild == old(prebuild) + Actions(steps[..i]).value
      {
        var step := steps[i];
        assert steps[..i + 1][..i] == steps[..i];
        if !step.JObject? || |step.fields| != 1 {
          ActionsFailureSticks(steps, i + 1, |steps|);
          assert steps[..|steps|] == steps;
          return Fail(if step.JObject? then ValueError else AttributeError);
        }
        var kind :| kind in step.fields;
        SingleKey(step.fields, kind, TheKey(step.fields));
        ConcatAssoc(old(prebuild), Actions(steps[..i]).value, [Action(kind, step.fields[kind])], []);
        prebuild := prebuild + [Action(kind, step.fields[kind])];
        i := i + 1;
      }
      assert steps[..i] == steps;
      return Pass;
    }

    /** `__parse_build_vars(parsed)`: both lists default to empty. */
    method ParseBuildVars(parsed: map<string, Json>)
      modifies this`buildVars, this`cBuildVars
      ensures buildVars == Get(parsed, "build_vars", JArray([])) && cBuildVars == Get(parsed, "c_build_vars", JArray([]))
    {
      buildVars := Get(parsed, "build_vars", JArray([]));
      cBuildVars := Get(parsed, "c_build_vars", JArray([]));
    }

    /** `__parse_deps(declared)`: each entry inserted into the table in order. */
    method ParseDeps(declared: Json) returns (r: Outcome<ConfigError>)
      modifies this`deps
      ensures Declared(old(deps), declared).Failure? ==> r == Fail(Declared(old(deps), declared).error)
      ensures Declared(old(deps), declared).Success? ==> r == Pass && deps == Declared(old(deps), declared).value
    {
      var itemsOf := DepEntries(declared);
      if itemsOf.Failure? {
        return Fail(itemsOf.error);
      }
      var items := itemsOf.value;
      ghost var acc := deps;
      var i := 0;
      while i < |items|
        invariant 0 <= i <= |items|
        invariant InsertDeps(acc, items[..i]) == Success(deps)
      {
        var dep := items[i];
        assert items[..i + 1][..i] == items[..i];
        if !dep.JObject? || "name" !in dep.fields || "url" !in dep.fields || "tag" !in dep.fields
           || !Hashable(dep.fields["name"]) {
          InsertDepsFailureSticks(acc, items, i + 1, |items|);
          assert items[..|items|] == items;
          return Fail(DepEntry(dep).error);
        }
        var name := dep.fields["name"];
        deps := deps[name := DepRef(dep.fields["url"], dep.fields["tag"])];
        i := i + 1;
      }
      assert items[..i] == items;
      return Pass;
    }

    /** `need_coonsify()`: a coon configuration needs no conversion. */
    method NeedCoonsify() returns (r: bool)
      ensures !r
    {
      return false;
    }

    /** `get_compiler()`. */
    method GetCompiler() returns (c: Compiler)
      ensures c == Coon
    {
      return Coon;
    }
  }
}
