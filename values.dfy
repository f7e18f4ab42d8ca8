/** The dynamically shaped values the source passes around: configuration
    documents read from YAML, JSON metadata and row values. Python's `None`
    is `Null`; ints and floats are both `Num` (mathematical reals). */
module Values {
  import opened Wrappers

  datatype Json =
    | Null
    | Bool(b: bool)
    | Num(r: real)
    | Str(s: string)
    | Arr(items: seq<Json>)
    | Obj(fields: map<string, Json>)

  const EmptyObj: Json := Obj(map[])

  /** Python truthiness: None, False, 0, "", [] and {} are false. */
  predicate Truthy(j: Json)
  {
    match j
    case Null => false
    case Bool(b) => b
    case Num(r) => r != 0.0
    case Str(s) => s != ""
    case Arr(items) => items != []
    case Obj(fields) => fields != map[]
  }

  /** `config or {}` */
  function OrEmpty(config: Json): (c: Json)
    ensures Truthy(config) ==> c == config
    ensures !Truthy(config) ==> c == EmptyObj
  {
    if Truthy(config) then config else EmptyObj
  }

  /** The numeric reading Python's comparison operators give a value:
      `bool` is a subclass of `int`, everything else but int/float raises. */
  function AsNumber(j: Json): (n: Option<real>)
    ensures n.Some? <==> j.Num? || j.Bool?
    ensures j.Num? ==> n == Some(j.r)
  {
    match j
    case Num(r) => Some(r)
    case Bool(b) => Some(if b then 1.0 else 0.0)
    case _ => None
  }

  /** `(config or {}).get(section, {}).get(key)`: `Ok(None)` when either
      level is absent (the caller then uses its default), `Err` when the
      configuration or the section is not a mapping (Python raises
      AttributeError on `.get`). */
  function Setting(config: Json, section: string, key: string): (r: Result<Option<Json>>)
    ensures !Truthy(config) ==> r == Ok(None)
    ensures r.Ok? && r.value.Some? ==>
      config.Obj? && section in config.fields && config.fields[section].Obj?
      && key in config.fields[section].fields
      && r.value.value == config.fields[section].fields[key]
    ensures (config.Obj? && section in config.fields && config.fields[section].Obj?
             && key in config.fields[section].fields) ==> r == Ok(Some(config.fields[section].fields[key]))
    ensures r.Err? <==> Truthy(config) && (!config.Obj? || (section in config.fields && !config.fields[section].Obj?))
  {
    var c := OrEmpty(config);
    if !c.Obj? then Err("configuration is not a mapping")
    else
      var sec := if section in c.fields then c.fields[section] else EmptyObj;
      if !sec.Obj? then Err("configuration section " + section + " is not a mapping")
      else if key in sec.fields then Ok(Some(sec.fields[key]))
      else Ok(None)
  }

  /** `Setting` with the caller's default filled in. */
  function SettingOr(config: Json, section: string, key: string, default: Json): (r: Result<Json>)
    ensures r.Ok? <==> Setting(config, section, key).Ok?
    ensures r.Ok? && Setting(config, section, key).value.None? ==> r.value == default
    ensures r.Ok? && Setting(config, section, key).value.Some? ==> r.value == Setting(config, section, key).value.value
  {
    match Setting(config, section, key)
    case Err(e) => Err(e)
    case Ok(o) => Ok(OptionOr(o, default))
  }
}
