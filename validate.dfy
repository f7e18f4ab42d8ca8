/** Validation of rows and data frames against a data contract, and the
    construction of a contract from its dict form. */
module Validate {
  import opened Wrappers
  import opened Values
  import opened Contracts

  /** The messages validate_row / validate_dataframe append, by kind. */
  datatype ValidationError =
    | MissingRequired(field: string)
    | NotAllowed(field: string, found: Json, allowed: seq<Json>)
    | BelowMin(field: string, value: real, bound: real)
    | AboveMax(field: string, value: real, bound: real)
    | MissingTarget(field: string)
    | MissingColumn(field: string)
    | MissingTargetColumn(field: string)

  /** A row: column name to value. */
  type Row = map<string, Json>

  /** `row.get(name)`: null when the key is absent. */
  function Lookup(row: Row, name: string): (v: Json)
    ensures name !in row ==> v == Null
    ensures name in row ==> v == row[name]
  {
    if name in row then row[name] else Null
  }

  /** Python `==` as list membership applies it: ints, floats and bools
      compare by numeric value. */
  predicate PyEq(a: Json, b: Json)
  {
    if AsNumber(a).Some? && AsNumber(b).Some? then AsNumber(a) == AsNumber(b) else a == b
  }

  /** `v in xs` on a Python list. */
  predicate InList(v: Json, xs: seq<Json>)
  {
    exists i :: 0 <= i < |xs| && PyEq(v, xs[i])
  }

  /** The errors validate_row reports for one feature. */
  function FeatureErrors(f: FieldSpec, row: Row): (r: seq<ValidationError>)
    ensures Lookup(row, f.name).Null? && f.required ==> r == [MissingRequired(f.name)]
    ensures Lookup(row, f.name).Null? && !f.required ==> r == []
    ensures !Lookup(row, f.name).Null? && AsNumber(Lookup(row, f.name)).None? ==>
      forall e :: e in r ==> e.NotAllowed?
    ensures forall e :: e in r ==> e.field == f.name
  {
    var v := Lookup(row, f.name);
    if v.Null? then
      if f.required then [MissingRequired(f.name)] else []
    else
      (if f.allowedValues.Some? && !InList(v, f.allowedValues.value)
       then [NotAllowed(f.name, v, f.allowedValues.value)] else [])
      + (if f.minVal.Some? && AsNumber(v).Some? && AsNumber(v).value < f.minVal.value
         then [BelowMin(f.name, AsNumber(v).value, f.minVal.value)] else [])
      + (if f.maxVal.Some? && AsNumber(v).Some? && AsNumber(v).value > f.maxVal.value
         then [AboveMax(f.name, AsNumber(v).value, f.maxVal.value)] else [])
  }

  /** The errors for a list of features, in order. */
  function FeaturesErrors(fs: seq<FieldSpec>, row: Row): seq<ValidationError>
  {
    if fs == [] then [] else FeaturesErrors(fs[..|fs| - 1], row) + FeatureErrors(fs[|fs| - 1], row)
  }

  /** The target check: only a required target whose key is absent is an
      error; a present key holding null is not. */
  function TargetErrors(row: Row, target: Option<FieldSpec>): (r: seq<ValidationError>)
    ensures r != [] <==> target.Some? && target.value.required && target.value.name !in row
    ensures r != [] ==> r == [MissingTarget(target.value.name)]
  {
    if target.Some? && target.value.required && target.value.name !in row
    then [MissingTarget(target.value.name)] else []
  }

  function RowErrors(row: Row, contract: DataContract): seq<ValidationError>
  {
    FeaturesErrors(contract.features, row) + TargetErrors(row, contract.target)
  }

  /** The checks validate_row makes on one feature of the row. */
  method CheckFeature(f: FieldSpec, row: Row) returns (found: seq<ValidationError>)
    ensures found == FeatureErrors(f, row)
  {
    var val := Lookup(row, f.name);
    found := [];
    if f.required && val.Null? {
      found := [MissingRequired(f.name)];
      return;
    }
    if val.Null? {
      return;
    }
    if f.allowedValues.Some? && !InList(val, f.allowedValues.value) {
      found := found + [NotAllowed(f.name, val, f.allowedValues.value)];
    }
    var num := AsNumber(val);
    if f.minVal.Some? && num.Some? && num.value < f.minVal.value {
      found := found + [BelowMin(f.name, num.value, f.minVal.value)];
    }
    if f.maxVal.Some? && num.Some? && num.value > f.maxVal.value {
      found := found + [AboveMax(f.name, num.value, f.maxVal.value)];
    }
  }

  /** One more feature adds its own errors at the end. */
  lemma FeaturesErrorsSnoc(fs: seq<FieldSpec>, i: nat, row: Row)
    requires i < |fs|
    ensures FeaturesErrors(fs[..i + 1], row) == FeaturesErrors(fs[..i], row) + FeatureErrors(fs[i], row)
  {
    assert fs[..i + 1][..i] == fs[..i];
  }

  /** validate_row */
  method ValidateRow(row: Row, contract: DataContract) returns (errors: seq<ValidationError>)
    ensures errors == RowErrors(row, contract)
  {
    errors := [];
    var fs := contract.features;
    var i := 0;
    while i < |fs|
      invariant 0 <= i <= |fs|
      invariant errors == FeaturesErrors(fs[..i], row)
    {
      FeaturesErrorsSnoc(fs, i, row);
      var found := CheckFeature(fs[i], row);
      errors := errors + found;
      i := i + 1;
    }
    assert fs[..i] == fs;
    if contract.target.Some? && contract.target.value.required && contract.target.value.name !in row {
      errors := errors + [MissingTarget(contract.target.value.name)];
    }
  }

  /** A feature's constraints, stated directly. */
  predicate FieldConforms(f: FieldSpec, row: Row)
  {
    var v := Lookup(row, f.name);
    && (f.required ==> !v.Null?)
    && (!v.Null? && f.allowedValues.Some? ==> InList(v, f.allowedValues.value))
    && (!v.Null? && f.minVal.Some? && AsNumber(v).Some? ==> f.minVal.value <= AsNumber(v).value)
    && (!v.Null? && f.maxVal.Some? && AsNumber(v).Some? ==> AsNumber(v).value <= f.maxVal.value)
  }

  /** A row satisfying every constraint of the contract. */
  predicate RowConforms(row: Row, contract: DataContract)
  {
    && (forall i :: 0 <= i < |contract.features| ==> FieldConforms(contract.features[i], row))
    && (contract.target.Some? && contract.target.value.required ==> contract.target.value.name in row)
  }

  lemma FeatureErrorsEmptyIff(f: FieldSpec, row: Row)
    ensures FeatureErrors(f, row) == [] <==> FieldConforms(f, row)
  {
  }

  lemma {:induction false} FeaturesErrorsEmptyIff(fs: seq<FieldSpec>, row: Row)
    ensures FeaturesErrors(fs, row) == [] <==> forall i :: 0 <= i < |fs| ==> FieldConforms(fs[i], row)
  {
    if fs != [] {
      var init := fs[..|fs| - 1];
      FeaturesErrorsEmptyIff(init, row);
      FeatureErrorsEmptyIff(fs[|fs| - 1], row);
      if forall i :: 0 <= i < |fs| ==> FieldConforms(fs[i], row) {
        forall i | 0 <= i < |init| ensures FieldConforms(init[i], row) {
          assert init[i] == fs[i];
        }
      }
      if FeaturesErrors(fs, row) == [] {
        forall i | 0 <= i < |fs| ensures FieldConforms(fs[i], row) {
          if i < |init| {
            assert init[i] == fs[i];
          }
        }
      }
    }
  }

  /** validate_row reports nothing exactly when the row meets every
      constraint of the contract. */
  lemma RowErrorsEmptyIff(row: Row, contract: DataContract)
    ensures RowErrors(row, contract) == [] <==> RowConforms(row, contract)
  {
    FeaturesErrorsEmptyIff(contract.features, row);
  }

  /** Every error of a feature appears among the row's errors. */
  lemma {:induction false} FeatureErrorsIncluded(fs: seq<FieldSpec>, i: int, row: Row)
    requires 0 <= i < |fs|
    ensures forall e :: e in FeatureErrors(fs[i], row) ==> e in FeaturesErrors(fs, row)
  {
    if i < |fs| - 1 {
      var init := fs[..|fs| - 1];
      assert init[i] == fs[i];
      FeatureErrorsIncluded(init, i, row);
    }
  }

  /** Each error names a field of the contract. */
  lemma {:induction false} FeaturesErrorsNameFeatures(fs: seq<FieldSpec>, row: Row)
    ensures forall e :: e in FeaturesErrors(fs, row) ==> exists i :: 0 <= i < |fs| && fs[i].name == e.field
  {
    if fs != [] {
      var init := fs[..|fs| - 1];
      FeaturesErrorsNameFeatures(init, row);
      forall e | e in FeaturesErrors(fs, row)
        ensures exists i :: 0 <= i < |fs| && fs[i].name == e.field
      {
        if e in FeaturesErrors(init, row) {
          var i :| 0 <= i < |init| && init[i].name == e.field;
          assert fs[i] == init[i];
        } else {
          assert fs[|fs| - 1].name == e.field;
        }
      }
    }
  }

  /** A required feature that is absent or null is reported as missing. */
  lemma MissingRequiredReported(row: Row, contract: DataContract, i: int)
    requires 0 <= i < |contract.features|
    requires contract.features[i].required && Lookup(row, contract.features[i].name).Null?
    ensures MissingRequired(contract.features[i].name) in RowErrors(row, contract)
  {
    FeatureErrorsIncluded(contract.features, i, row);
  }

  /** validate_row's errors only ever name contract fields. */
  lemma RowErrorsNameContractFields(row: Row, contract: DataContract)
    ensures forall e :: e in RowErrors(row, contract) ==>
      e.field in FeatureNames(contract) || (contract.target.Some? && e.field == contract.target.value.name)
  {
    FeaturesErrorsNameFeatures(contract.features, row);
    var names := FeatureNames(contract);
    forall e | e in RowErrors(row, contract) && !(contract.target.Some? && e.field == contract.target.value.name)
      ensures e.field in names
    {
      var i :| 0 <= i < |contract.features| && contract.features[i].name == e.field;
      assert names[i] == e.field;
    }
  }

  /** The missing-column errors for a list of feature names, in order. */
  function MissingColumns(names: seq<string>, columns: set<string>): (r: seq<ValidationError>)
    ensures |r| <= |names|
    ensures forall e :: e in r ==> e.MissingColumn?
    ensures forall n :: MissingColumn(n) in r <==> n in names && n !in columns
  {
    if names == [] then []
    else
      var init := names[..|names| - 1];
      var last := names[|names| - 1];
      assert names == init + [last];
      MissingColumns(init, columns) + (if last in columns then [] else [MissingColumn(last)])
  }

  /** One more feature name adds its own error at the end. */
  lemma MissingColumnsSnoc(names: seq<string>, i: nat, columns: set<string>)
    requires i < |names|
    ensures MissingColumns(names[..i + 1], columns)
      == MissingColumns(names[..i], columns) + (if names[i] in columns then [] else [MissingColumn(names[i])])
  {
    assert names[..i + 1][..i] == names[..i];
  }

  /** validate_dataframe over the frame's column set: the row values are
      not inspected. The target column is checked whether or not the
      target is required. */
  function FrameErrors(columns: set<string>, contract: DataContract): seq<ValidationError>
  {
    MissingColumns(FeatureNames(contract), columns)
      + (if contract.target.Some? && contract.target.value.name !in columns
         then [MissingTargetColumn(contract.target.value.name)] else [])
  }

  /** validate_dataframe */
  method ValidateDataframe(columns: set<string>, contract: DataContract) returns (errors: seq<ValidationError>)
    ensures errors == FrameErrors(columns, contract)
  {
    var names := FeatureNames(contract);
    errors := [];
    var i := 0;
    while i < |names|
      invariant 0 <= i <= |names|
      invariant errors == MissingColumns(names[..i], columns)
    {
      MissingColumnsSnoc(names, i, columns);
      if names[i] !in columns {
        errors := errors + [MissingColumn(names[i])];
      }
      i := i + 1;
    }
    assert names[..i] == names;
    if contract.target.Some? && contract.target.value.name !in columns {
      errors := errors + [MissingTargetColumn(contract.target.value.name)];
    }
  }

  /** One error per missing feature column and one for a missing target
      column; none exactly when all those columns exist. */
  lemma FrameErrorsCharacterised(columns: set<string>, contract: DataContract)
    ensures forall n :: MissingColumn(n) in FrameErrors(columns, contract) <==>
      n in FeatureNames(contract) && n !in columns
    ensures forall n :: MissingTargetColumn(n) in FrameErrors(columns, contract) <==>
      contract.target.Some? && n == contract.target.value.name && n !in columns
    ensures FrameErrors(columns, contract) == [] <==>
      (forall n :: n in FeatureNames(contract) ==> n in columns)
      && (contract.target.Some? ==> contract.target.value.name in columns)
    ensures |FrameErrors(columns, contract)| <= |contract.features| + 1
  {
    var missing := MissingColumns(FeatureNames(contract), columns);
    if missing != [] {
      assert missing[0] in missing;
    }
  }

  // ---- load_contract_from_dict ----

  /** `d.get(key, default)` on a mapping. */
  function Get(fields: map<string, Json>, key: string, default: Json): Json
  {
    if key in fields then fields[key] else default
  }

  /** An optional bound: null is None; ints, floats and bools are numbers. */
  function LoadBound(j: Json): (r: Result<Option<real>>)
    ensures j.Null? ==> r == Ok(None)
    ensures j.Num? ==> r == Ok(Some(j.r))
  {
    if j.Null? then Ok(None)
    else if AsNumber(j).Some? then Ok(Some(AsNumber(j).value))
    else Err("bound is not a number")
  }

  /** One FieldSpec from its dict: name is required; dtype defaults to
      "float" and required to true; a present value is kept. The target
      ignores the other keys. */
  function LoadField(fd: Json, isTarget: bool): (r: Result<FieldSpec>)
    ensures r.Ok? ==> fd.Obj? && "name" in fd.fields && fd.fields["name"] == Str(r.value.name)
    ensures r.Ok? && "dtype" !in fd.fields ==> r.value.dtype == "float"
    ensures r.Ok? && "required" !in fd.fields ==> r.value.required
    ensures r.Ok? && "dtype" in fd.fields ==> fd.fields["dtype"] == Str(r.value.dtype)
    ensures r.Ok? && "required" in fd.fields ==> fd.fields["required"] == Bool(r.value.required)
    ensures r.Ok? && isTarget ==> r.value.allowedValues.None? && r.value.minVal.None? && r.value.maxVal.None?
    ensures r.Ok? && !isTarget ==>
      (r.value.allowedValues.Some? <==> "allowed_values" in fd.fields && !fd.fields["allowed_values"].Null?)
    ensures r.Ok? && !isTarget && r.value.allowedValues.Some? ==>
      fd.fields["allowed_values"] == Arr(r.value.allowedValues.value)
    ensures r.Ok? && !isTarget ==> (r.value.minVal.Some? <==> "min_val" in fd.fields && !fd.fields["min_val"].Null?)
    ensures r.Ok? && !isTarget && r.value.minVal.Some? ==> AsNumber(fd.fields["min_val"]) == r.value.minVal
    ensures r.Ok? && !isTarget ==> (r.value.maxVal.Some? <==> "max_val" in fd.fields && !fd.fields["max_val"].Null?)
    ensures r.Ok? && !isTarget && r.value.maxVal.Some? ==> AsNumber(fd.fields["max_val"]) == r.value.maxVal
    ensures !fd.Obj? || "name" !in fd.fields ==> r.Err?
  {
    if !fd.Obj? then Err("TypeError: field spec is not a mapping")
    else if "name" !in fd.fields then Err("KeyError: 'name'")
    else
      var m := fd.fields;
      var dtype := Get(m, "dtype", Str("float"));
      var required := Get(m, "required", Bool(true));
      if !m["name"].Str? || !dtype.Str? || !required.Bool? then Err("field spec of the wrong type")
      else if isTarget then Ok(FieldSpec(m["name"].s, dtype.s, required.b, None, None, None))
      else
        var allowed := Get(m, "allowed_values", Null);
        var minVal := LoadBound(Get(m, "min_val", Null));
        var maxVal := LoadBound(Get(m, "max_val", Null));
        if !(allowed.Null? || allowed.Arr?) || minVal.Err? || maxVal.Err? then Err("field spec of the wrong type")
        else Ok(FieldSpec(m["name"].s, dtype.s, required.b,
                          if allowed.Arr? then Some(allowed.items) else None, minVal.value, maxVal.value))
  }

  /** One FieldSpec per entry, in order; the first entry that does not load
      makes the whole list raise. */
  function LoadFeatures(items: seq<Json>): (r: Result<seq<FieldSpec>>)
    ensures r.Ok? <==> forall i :: 0 <= i < |items| ==> LoadField(items[i], false).Ok?
    ensures r.Ok? ==> |r.value| == |items|
    ensures r.Ok? ==> forall i :: 0 <= i < |items| ==> LoadField(items[i], false) == Ok(r.value[i])
  {
    if items == [] then Ok([])
    else match LoadField(items[0], false)
      case Err(e) => Err(e)
      case Ok(f) =>
        match LoadFeatures(items[1..])
        case Err(e) => Err(e)
        case Ok(fs) => Ok([f] + fs)
  }

  /** Iterating `d.get("features", [])`: a list gives its items; an empty
      dict or string gives nothing; iterating any other value, or a
      non-empty dict or string (whose elements are strings), raises. */
  function LoadFeatureList(j: Json): (r: Result<seq<FieldSpec>>)
    ensures j.Arr? ==> r == LoadFeatures(j.items)
    ensures j.Null? ==> r.Err?
  {
    match j
    case Arr(items) => LoadFeatures(items)
    case Obj(m) => if m == map[] then Ok([]) else Err("TypeError: string indices must be integers")
    case Str(s) => if s == "" then Ok([]) else Err("TypeError: string indices must be integers")
    case _ => Err("TypeError: object is not iterable")
  }

  /** The identifiers: one string per entry, in order; any other entry raises. */
  function LoadStrings(items: seq<Json>): (r: Result<seq<string>>)
    ensures r.Ok? <==> forall i :: 0 <= i < |items| ==> items[i].Str?
    ensures r.Ok? ==> |r.value| == |items|
    ensures r.Ok? ==> forall i :: 0 <= i < |items| ==> r.value[i] == items[i].s
  {
    if items == [] then Ok([])
    else if !items[0].Str? then Err("identifier is not a string")
    else match LoadStrings(items[1..])
      case Err(e) => Err(e)
      case Ok(ss) => Ok([items[0].s] + ss)
  }

  /** load_contract_from_dict */
  function LoadContractFromDict(d: Json): (r: Result<DataContract>)
    ensures !d.Obj? ==> r.Err?
    ensures r.Ok? ==> d.Obj?
    ensures r.Ok? ==> (r.value.target.None? <==> !Truthy(Get(d.fields, "target", Null)))
    ensures r.Ok? && r.value.target.Some? ==>
      r.value.target.value.allowedValues.None? && r.value.target.value.minVal.None? && r.value.target.value.maxVal.None?
    ensures r.Ok? && "name" !in d.fields ==> r.value.name == "contract"
    ensures r.Ok? && "version" !in d.fields ==> r.value.version == "1.0"
    ensures r.Ok? && "identifiers" !in d.fields ==> r.value.identifiers == []
    ensures r.Ok? && "features" !in d.fields ==> r.value.features == []
  {
    if !d.Obj? then Err("AttributeError: contract is not a mapping")
    else
      var m := d.fields;
      var features := LoadFeatureList(Get(m, "features", Arr([])));
      var targetJson := Get(m, "target", Null);
      var target := if Truthy(targetJson) then LoadField(targetJson, true) else Ok(NewField("", ""));
      var name := Get(m, "name", Str("contract"));
      var version := Get(m, "version", Str("1.0"));
      var ids := Get(m, "identifiers", Arr([]));
      if features.Err? then Err(features.error)
      else if target.Err? then Err(target.error)
      else if !name.Str? || !version.Str? || !ids.Arr? then Err("contract entry of the wrong type")
      else
        match LoadStrings(ids.items)
        case Err(e) => Err(e)
        case Ok(identifiers) =>
          Ok(DataContract(name.s, version.s, features.value,
                          if Truthy(targetJson) then Some(target.value) else None, identifiers))
  }

  lemma FeatureRoundTrip(f: FieldSpec)
    ensures LoadField(FeatureToJson(f), false) == Ok(f)
  {
  }

  /** The target's dict (name, dtype, required) is truthy and loads back to
      the target, when it has no allowed values and no bounds. */
  lemma TargetRoundTrip(t: FieldSpec)
    requires t.allowedValues.None? && t.minVal.None? && t.maxVal.None?
    ensures Truthy(TargetToJson(t))
    ensures LoadField(TargetToJson(t), true) == Ok(t)
  {
    assert "name" in TargetToJson(t).fields;
  }

  lemma {:induction false} FeaturesRoundTrip(items: seq<Json>, fs: seq<FieldSpec>)
    requires |items| == |fs|
    requires forall i :: 0 <= i < |fs| ==> items[i] == FeatureToJson(fs[i])
    ensures LoadFeatures(items) == Ok(fs)
  {
    if fs != [] {
      FeatureRoundTrip(fs[0]);
      FeaturesRoundTrip(items[1..], fs[1..]);
      assert fs == [fs[0]] + fs[1..];
    }
  }

  lemma {:induction false} StringsRoundTrip(ss: seq<string>)
    ensures LoadStrings(StrList(ss).items) == Ok(ss)
  {
    if ss != [] {
      StringsRoundTrip(ss[1..]);
      assert StrList(ss).items[1..] == StrList(ss[1..]).items;
      assert ss == [ss[0]] + ss[1..];
    }
  }

  /** A contract survives to_dict then load_contract_from_dict, provided its
      target (which to_dict writes without them) has no allowed values and
      no bounds. */
  lemma ContractRoundTrip(c: DataContract)
    requires c.target.Some? ==>
      c.target.value.allowedValues.None? && c.target.value.minVal.None? && c.target.value.maxVal.None?
    ensures LoadContractFromDict(ToDict(c)) == Ok(c)
  {
    var d := ToDict(c);
    FeaturesRoundTrip(d.fields["features"].items, c.features);
    assert LoadFeatureList(Get(d.fields, "features", Arr([]))) == Ok(c.features);
    StringsRoundTrip(c.identifiers);
    if c.target.Some? {
      TargetRoundTrip(c.target.value);
    }
  }

  /** The loader's defaults are the dataclasses' defaults. */
  lemma LoaderDefaults(name: string)
    ensures LoadField(Obj(map["name" := Str(name)]), false) == Ok(NewField(name, "float"))
    ensures LoadContractFromDict(Obj(map["name" := Str(name)])) == Ok(NewContract(name))
    ensures LoadContractFromDict(EmptyObj) == Ok(NewContract("contract"))
  {
  }

  /** The fraud detector's contract in its tests: one required float
      feature, "amount". */
  const AmountField := FieldSpec("amount", "float", true, None, None, None)
  const AmountContract := DataContract("test", "1.0", [AmountField], None, [])

  /** The contract dict the test loads. */
  const AmountContractJson: Json := Obj(map[
    "name" := Str("test"),
    "features" := Arr([AmountFieldJson])])

  /** The test's one feature entry. */
  const AmountFieldJson: Json := Obj(map["name" := Str("amount"), "dtype" := Str("float"), "required" := Bool(true)])

  /** The test's feature list loads to its one field. */
  lemma AmountFeaturesLoad()
    ensures LoadFeatures([AmountFieldJson]) == Ok([AmountField])
  {
    var fd := AmountFieldJson;
    assert LoadField(fd, false) == Ok(AmountField);
    assert [fd][0] == fd && [fd][1..] == [];
    assert LoadFeatures([]) == Ok([]);
    assert [AmountField] + [] == [AmountField];
  }

  /** The test's dict loads to that contract. */
  lemma AmountContractLoads()
    ensures LoadContractFromDict(AmountContractJson) == Ok(AmountContract)
  {
    var fd := AmountFieldJson;
    AmountFeaturesLoad();
    var m := AmountContractJson.fields;
    assert Get(m, "features", Arr([])) == Arr([fd]);
    assert LoadFeatureList(Arr([fd])) == Ok([AmountField]);
    assert Get(m, "target", Null) == Null;
    assert Get(m, "name", Str("contract")) == Str("test");
    assert Get(m, "version", Str("1.0")) == Str("1.0");
    assert Get(m, "identifiers", Arr([])) == Arr([]);
    assert LoadStrings([]) == Ok([]);
  }

  /** The row and frame checks of the tests: an empty row misses the
      required amount; a row with an amount passes; a frame without the
      column reports it; one with it passes. */
  lemma AmountContractChecks()
    ensures RowErrors(map[], AmountContract) == [MissingRequired("amount")]
    ensures RowErrors(map["amount" := Num(10.0)], AmountContract) == []
    ensures FrameErrors({"other"}, AmountContract) == [MissingColumn("amount")]
    ensures FrameErrors({"amount"}, AmountContract) == []
  {
    var fs := AmountContract.features;
    assert fs == [AmountField] && fs[..0] == [] && fs[0] == AmountField;
    assert FeaturesErrors(fs, map[]) == FeatureErrors(AmountField, map[]) == [MissingRequired("amount")];
    assert Lookup(map["amount" := Num(10.0)], "amount") == Num(10.0);
    assert FeaturesErrors(fs, map["amount" := Num(10.0)]) == FeatureErrors(AmountField, map["amount" := Num(10.0)]) == [];
    assert FeatureNames(AmountContract) == ["amount"];
    assert FeatureNames(AmountContract)[..0] == [];
  }
}
