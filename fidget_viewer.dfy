/** The fidget configuration preview: default settings synthesised from a
    fidget's field schema, and the save action that replaces the instance
    configuration held by the preview. */
module FidgetViewer {
  import opened Common

  /** The JavaScript values a field default can hold. */
  datatype Value =
    | Bool(b: bool)
    | Number(n: real)
    | Text(s: string)
    | List(items: seq<Value>)
    | Record(entries: map<string, Value>)

  /** JavaScript truthiness: `false`, `0` and `""` are falsy; arrays and objects,
      even empty ones, are truthy. */
  predicate IsTruthy(v: Value) {
    match v
    case Bool(b) => b
    case Number(n) => n != 0.0
    case Text(s) => s != ""
    case List(_) => true
    case Record(_) => true
  }

  /** One entry of `editConfig.fields`; `default` is `None` when the field has none. */
  datatype FieldSpec = FieldSpec(fieldName: string, default: Option<Value>)

  datatype EditConfig = EditConfig(fields: seq<FieldSpec>)

  /** A settings object: field name to value, `None` standing for `null`. */
  type Settings = map<string, Option<Value>>

  datatype InstanceConfig = InstanceConfig(editable: bool, settings: Settings)

  datatype FidgetConfig = FidgetConfig(id: string, editConfig: EditConfig, instanceConfig: InstanceConfig)

  /** What the preview is given: the module's schema and the fidget's name. */
  datatype FidgetModule = FidgetModule(editConfig: EditConfig, fidgetName: string)

  /** `f.default || null`: a present, truthy default survives; anything else is null. */
  function DefaultValue(default: Option<Value>): (r: Option<Value>)
    ensures r.Some? <==> default.Some? && IsTruthy(default.value)
    ensures r.Some? ==> r == default
  {
    if default.Some? && IsTruthy(default.value) then default else None
  }

  function FieldNames(fields: seq<FieldSpec>): set<string> {
    set i | 0 <= i < |fields| :: fields[i].fieldName
  }

  /** The `reduce` over the schema: a left fold that spreads the accumulator and
      then writes `[f.fieldName]`, so a later field overwrites an earlier one of
      the same name. */
  function DefaultSettings(fields: seq<FieldSpec>): (s: Settings)
    ensures s.Keys == FieldNames(fields)
  {
    if fields == [] then map[]
    else
      var init := fields[..|fields| - 1];
      var f := fields[|fields| - 1];
      assert FieldNames(fields) == FieldNames(init) + {f.fieldName} by {
        forall name | name in FieldNames(fields) ensures name in FieldNames(init) + {f.fieldName} {
          var i :| 0 <= i < |fields| && fields[i].fieldName == name;
          if i < |fields| - 1 { assert init[i] == fields[i]; }
        }
        forall name | name in FieldNames(init) ensures name in FieldNames(fields) {
          var i :| 0 <= i < |init| && init[i].fieldName == name;
          assert fields[i] == init[i];
        }
      }
      DefaultSettings(init)[f.fieldName := DefaultValue(f.default)]
  }

  /** Field `i` is the last one in the schema carrying its name. */
  predicate LastWithName(fields: seq<FieldSpec>, i: nat)
    requires i < |fields|
  {
    forall j :: i < j < |fields| ==> fields[j].fieldName != fields[i].fieldName
  }

  /** Each name's setting comes from the last field with that name, as the
      spread-then-assign fold dictates. */
  lemma {:induction false} LastFieldWins(fields: seq<FieldSpec>, i: nat)
    requires i < |fields| && LastWithName(fields, i)
    ensures fields[i].fieldName in DefaultSettings(fields)
    ensures DefaultSettings(fields)[fields[i].fieldName] == DefaultValue(fields[i].default)
  {
    var n := |fields|;
    if i < n - 1 {
      var init := fields[..n - 1];
      assert init[i] == fields[i];
      assert LastWithName(init, i) by {
        forall j | i < j < |init| ensures init[j].fieldName != init[i].fieldName {
          assert init[j] == fields[j];
        }
      }
      LastFieldWins(init, i);
      assert fields[n - 1].fieldName != fields[i].fieldName;
    }
  }

  /** Of two fields sharing a name, the setting is decided by the later one
      whenever it is the last with that name. */
  lemma LaterDuplicateOverrides(fields: seq<FieldSpec>, i: nat, j: nat)
    requires i < j < |fields| && fields[i].fieldName == fields[j].fieldName
    requires LastWithName(fields, j)
    ensures DefaultSettings(fields)[fields[i].fieldName] == DefaultValue(fields[j].default)
  {
    LastFieldWins(fields, j);
  }

  /** The configuration the preview starts from. */
  function DefaultConfig(m: FidgetModule): (c: FidgetConfig)
    ensures c.id == m.fidgetName && c.editConfig == m.editConfig
    ensures c.instanceConfig.editable
    ensures c.instanceConfig.settings.Keys == FieldNames(m.editConfig.fields)
    ensures forall i :: 0 <= i < |m.editConfig.fields| && LastWithName(m.editConfig.fields, i) ==>
              c.instanceConfig.settings[m.editConfig.fields[i].fieldName]
                == DefaultValue(m.editConfig.fields[i].default)
  {
    forall i | 0 <= i < |m.editConfig.fields| && LastWithName(m.editConfig.fields, i)
      ensures DefaultSettings(m.editConfig.fields)[m.editConfig.fields[i].fieldName]
                == DefaultValue(m.editConfig.fields[i].default)
    {
      LastFieldWins(m.editConfig.fields, i);
    }
    FidgetConfig(m.fidgetName, m.editConfig, InstanceConfig(true, DefaultSettings(m.editConfig.fields)))
  }

  /** The state a save produces: `id` from the default configuration, the
      current `editConfig`, and exactly the supplied instance configuration. */
  function Saved(current: FidgetConfig, id: string, conf: InstanceConfig): (r: FidgetConfig)
    ensures r.instanceConfig == conf
    ensures r.id == id && r.editConfig == current.editConfig
  {
    FidgetConfig(id, current.editConfig, conf)
  }

  /** Saving the same instance configuration twice leaves the state of one save. */
  lemma SaveIdempotent(current: FidgetConfig, id: string, conf: InstanceConfig)
    ensures Saved(Saved(current, id, conf), id, conf) == Saved(current, id, conf)
  {
  }

  /** A later save wipes out an earlier one entirely: no field of the earlier
      instance configuration survives. */
  lemma LastSaveWins(current: FidgetConfig, id: string, first: InstanceConfig, second: InstanceConfig)
    ensures Saved(Saved(current, id, first), id, second) == Saved(current, id, second)
  {
  }

  /** The preview component: it holds the configuration state. */
  class Viewer {
    const fidgetModule: FidgetModule
    var config: FidgetConfig

    /** `id` and `editConfig` never move away from the default configuration's. */
    ghost predicate Valid()
      reads this
    {
      config.id == fidgetModule.fidgetName && config.editConfig == fidgetModule.editConfig
    }

    constructor (m: FidgetModule)
      ensures fidgetModule == m && config == DefaultConfig(m)
      ensures Valid()
    {
      fidgetModule := m;
      config := DefaultConfig(m);
    }

    /** `saveConifg`: replaces the whole state and reports success. */
    method SaveConfig(conf: InstanceConfig) returns (ok: bool)
      requires Valid()
      modifies this
      ensures Valid()
      ensures ok
      ensures config == Saved(old(config), DefaultConfig(fidgetModule).id, conf)
      ensures config.instanceConfig == conf
    {
      config := FidgetConfig(DefaultConfig(fidgetModule).id, config.editConfig, conf);
      ok := true;
    }
  }
}
