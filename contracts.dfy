/** Data contracts: the schema of a model's input rows (features, an
    optional target, identifier columns) and its dict form. */
module Contracts {
  import opened Wrappers
  import opened Values

  /** One field of a contract. `minVal`/`maxVal` are the numeric bounds. */
  datatype FieldSpec = FieldSpec(
    name: string,
    dtype: string,
    required: bool,
    allowedValues: Option<seq<Json>>,
    minVal: Option<real>,
    maxVal: Option<real>)

  datatype DataContract = DataContract(
    name: string,
    version: string,
    features: seq<FieldSpec>,
    target: Option<FieldSpec>,
    identifiers: seq<string>)

  /** `FieldSpec(name, dtype)`: required, with no allowed values and no bounds. */
  function NewField(name: string, dtype: string): FieldSpec
  {
    FieldSpec(name, dtype, true, None, None, None)
  }

  /** `DataContract(name)`: version "1.0", no features, no target, no identifiers. */
  function NewContract(name: string): DataContract
  {
    DataContract(name, "1.0", [], None, [])
  }

  /** feature_names */
  function FeatureNames(c: DataContract): (names: seq<string>)
    ensures |names| == |c.features|
    ensures forall i :: 0 <= i < |names| ==> names[i] == c.features[i].name
  {
    seq(|c.features|, i requires 0 <= i < |c.features| => c.features[i].name)
  }

  /** An optional number as JSON: `None` is null. */
  function NumOrNull(x: Option<real>): Json
  {
    if x.Some? then Num(x.value) else Null
  }

  /** The dict of one feature: all six fields. */
  function FeatureToJson(f: FieldSpec): Json
  {
    Obj(map[
      "name" := Str(f.name),
      "dtype" := Str(f.dtype),
      "required" := Bool(f.required),
      "allowed_values" := if f.allowedValues.Some? then Arr(f.allowedValues.value) else Null,
      "min_val" := NumOrNull(f.minVal),
      "max_val" := NumOrNull(f.maxVal)])
  }

  /** The dict of the target: only name, dtype and required. */
  function TargetToJson(t: FieldSpec): Json
  {
    Obj(map["name" := Str(t.name), "dtype" := Str(t.dtype), "required" := Bool(t.required)])
  }

  function StrList(ss: seq<string>): (j: Json)
    ensures j.Arr? && |j.items| == |ss|
    ensures forall i :: 0 <= i < |ss| ==> j.items[i] == Str(ss[i])
  {
    Arr(seq(|ss|, i requires 0 <= i < |ss| => Str(ss[i])))
  }

  /** to_dict */
  function ToDict(c: DataContract): (d: Json)
    ensures d.Obj? && d.fields.Keys == {"name", "version", "features", "target", "identifiers"}
    ensures d.fields["name"] == Str(c.name) && d.fields["version"] == Str(c.version)
    ensures d.fields["features"].Arr? && |d.fields["features"].items| == |c.features|
    ensures forall i :: 0 <= i < |c.features| ==> d.fields["features"].items[i] == FeatureToJson(c.features[i])
    ensures d.fields["target"] == Null <==> c.target.None?
    ensures c.target.Some? ==> d.fields["target"] == TargetToJson(c.target.value)
    ensures d.fields["identifiers"] == StrList(c.identifiers)
  {
    Obj(map[
      "name" := Str(c.name),
      "version" := Str(c.version),
      "features" := Arr(seq(|c.features|, i requires 0 <= i < |c.features| => FeatureToJson(c.features[i]))),
      "target" := if c.target.Some? then TargetToJson(c.target.value) else Null,
      "identifiers" := StrList(c.identifiers)])
  }
}
