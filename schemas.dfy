/**
 * The bookkeeping half of `DFVarSchema`: mapping annotated field types to
 * pandas dtype names, the pandera field options, the check that every index
 * column is a declared field, grouping field names by dtype when a schema
 * class is declared, and turning records into columns (`to_vect_dict`) and
 * columns back into records (`from_dict`).  Field values are opaque (`V`).
 */
module Schemas {
  import opened Errors

  // ----- dtypes ---------------------------------------------------------------------

  /**
   * The base type of an annotation once `Optional[...]` and `Annotated[...]`
   * are peeled off.  Python's builtin and numpy spellings of a type (`int` and
   * `np.integer`, ...) fall in the same case.
   */
  datatype BaseType = IntType | FloatType | BoolType | StrType | OtherType(typeName: string)

  /** `_standardize_dtype`: pandas' extension dtypes (capitalised) for nullable fields, numpy's otherwise. */
  function StandardizeDtype(tp: BaseType, nullable: bool): (r: string)
    ensures r == "Other" <==> tp.OtherType?
    ensures |r| > 0
    ensures !tp.OtherType? ==> (nullable <==> 'A' <= r[0] <= 'Z')
  {
    match tp
    case IntType => if nullable then "Int64" else "int64"
    case FloatType => if nullable then "Float64" else "float64"
    case BoolType => if nullable then "Boolean" else "boolean"
    case StrType => if nullable then "String" else "string"
    case OtherType(_) => "Other"
  }

  /** Reads a dtype name back: the base type and nullability it stands for. */
  function ParseDtype(s: string): (r: Option<(BaseType, bool)>)
    ensures r.Some? ==> !r.value.0.OtherType?
  {
    if s == "int64" then Some((IntType, false))
    else if s == "Int64" then Some((IntType, true))
    else if s == "float64" then Some((FloatType, false))
    else if s == "Float64" then Some((FloatType, true))
    else if s == "boolean" then Some((BoolType, false))
    else if s == "Boolean" then Some((BoolType, true))
    else if s == "string" then Some((StrType, false))
    else if s == "String" then Some((StrType, true))
    else None
  }

  /**
   * A dtype name determines the known base type and nullability it came from,
   * and every other type shares the single name "Other".
   */
  lemma DtypeRoundTrip(tp: BaseType, nullable: bool)
    ensures tp.OtherType? ==> ParseDtype(StandardizeDtype(tp, nullable)).None?
    ensures !tp.OtherType? ==> ParseDtype(StandardizeDtype(tp, nullable)) == Some((tp, nullable))
  {
  }

  lemma ParsedDtypeRoundTrip(s: string)
    requires ParseDtype(s).Some?
    ensures StandardizeDtype(ParseDtype(s).value.0, ParseDtype(s).value.1) == s
  {
  }

  // ----- pandera field options ----------------------------------------------------------

  /** The part of a pandera `FieldInfo` the model follows: its nullable flag and its other options, opaque. */
  datatype FieldInfo = FieldInfo(nullable: bool, options: seq<string>)

  /** `pa.Field(nullable=True)`: nullable, every other option at its default. */
  const NullableField: FieldInfo := FieldInfo(true, [])

  /**
   * `_build_pandera_field_info`: a copy of the declared constraints, made
   * nullable for an `Optional` field; a bare nullable field for an `Optional`
   * without constraints; nothing otherwise.  The copy leaves the declared
   * constraints themselves untouched, which values give for free.
   */
  function BuildFieldInfo(nullable: bool, constraints: Option<FieldInfo>): (r: Option<FieldInfo>)
    ensures r.Some? <==> constraints.Some? || nullable
    ensures constraints.Some? ==> r.value.options == constraints.value.options
    ensures constraints.Some? ==> (r.value.nullable <==> constraints.value.nullable || nullable)
    ensures constraints.None? && nullable ==> r == Some(NullableField)
    ensures !nullable ==> r == constraints
  {
    if constraints.Some? then
      if nullable then Some(constraints.value.(nullable := true)) else constraints
    else if nullable then Some(NullableField)
    else None
  }

  // ----- declaring a schema class ------------------------------------------------------

  /**
   * One merged annotation of the class, already parsed: the field name, its
   * base type, whether it was `Optional`, and the `FieldInfo` found among the
   * `Annotated` extras.
   */
  datatype Hint = Hint(name: string, tp: BaseType, nullable: bool, constraints: Option<FieldInfo>)

  function DtypeOf(h: Hint): string {
    StandardizeDtype(h.tp, h.nullable)
  }

  /** The merged annotations come from a dict, so no name occurs twice. */
  predicate DistinctNames(hs: seq<Hint>) {
    forall i, j :: 0 <= i < j < |hs| ==> hs[i].name != hs[j].name
  }

  predicate Declared(hs: seq<Hint>, name: string) {
    exists i :: 0 <= i < |hs| && hs[i].name == name
  }

  /** The index columns that are not declared fields, in the order they were listed. */
  function MissingIndexColumns(hs: seq<Hint>, indexCols: seq<string>): (r: seq<string>)
    ensures forall c :: c in r <==> c in indexCols && !Declared(hs, c)
  {
    if |indexCols| == 0 then []
    else MissingIndexColumns(hs, indexCols[..|indexCols| - 1])
         + (if Declared(hs, indexCols[|indexCols| - 1]) then [] else [indexCols[|indexCols| - 1]])
  }

  function MissingIndexMessage(className: string): string {
    "Missing index columns for schema '" + className + "'"
  }

  /** The `dtypes` dict built by `__init_subclass__`: each dtype name mapped to the fields declared with it. */
  function Grouped(hs: seq<Hint>): map<string, seq<string>> {
    if |hs| == 0 then map[]
    else
      var g := Grouped(hs[..|hs| - 1]);
      var h := hs[|hs| - 1];
      var d := DtypeOf(h);
      if d in g then g[d := g[d] + [h.name]] else g[d := [h.name]]
  }

  predicate InGroup(dtypes: map<string, seq<string>>, d: string, name: string) {
    d in dtypes && name in dtypes[d]
  }

  /** The names of the fields declared with dtype `d`, in declaration order. */
  function Bucket(hs: seq<Hint>, d: string): seq<string> {
    if |hs| == 0 then []
    else Bucket(hs[..|hs| - 1], d) + (if DtypeOf(hs[|hs| - 1]) == d then [hs[|hs| - 1].name] else [])
  }

  lemma {:induction false} BucketHasOwn(hs: seq<Hint>, i: nat)
    requires i < |hs|
    ensures hs[i].name in Bucket(hs, DtypeOf(hs[i]))
  {
    if i < |hs| - 1 {
      var prev := hs[..|hs| - 1];
      assert prev[i] == hs[i];
      BucketHasOwn(prev, i);
    }
  }

  lemma {:induction false} BucketMembers(hs: seq<Hint>, d: string, n: string)
    requires n in Bucket(hs, d)
    ensures exists j :: 0 <= j < |hs| && hs[j].name == n && DtypeOf(hs[j]) == d
  {
    var prev := hs[..|hs| - 1];
    if n in Bucket(prev, d) {
      BucketMembers(prev, d, n);
      var j :| 0 <= j < |prev| && prev[j].name == n && DtypeOf(prev[j]) == d;
      assert hs[j] == prev[j];
    } else {
      assert hs[|hs| - 1].name == n && DtypeOf(hs[|hs| - 1]) == d;
    }
  }

  /** `Index[tp]` for an index column, `Series[tp]` for any other field. */
  datatype Annotation = IndexOf(tp: BaseType) | SeriesOf(tp: BaseType)

  function AnnotationOf(h: Hint, indexCols: seq<string>): Annotation {
    if h.name in indexCols then IndexOf(h.tp) else SeriesOf(h.tp)
  }

  /** The `pandera_annotations` dict. */
  function Annotations(hs: seq<Hint>, indexCols: seq<string>): map<string, Annotation> {
    if |hs| == 0 then map[]
    else Annotations(hs[..|hs| - 1], indexCols)[hs[|hs| - 1].name := AnnotationOf(hs[|hs| - 1], indexCols)]
  }

  /** The `pandera_fields` dict: a field appears only when it has options to carry. */
  function Fields(hs: seq<Hint>): map<string, FieldInfo> {
    if |hs| == 0 then map[]
    else
      var f := Fields(hs[..|hs| - 1]);
      var h := hs[|hs| - 1];
      var info := BuildFieldInfo(h.nullable, h.constraints);
      if info.Some? then f[h.name := info.value] else f
  }

  /** The options of `PaConfig` the model follows. */
  datatype Config = Config(strict: bool, coerce: bool)

  /** `PaConfig(strict=True, coerce=True)`, used when no config is given. */
  const DefaultConfig: Config := Config(true, true)

  /** What the synthesised pandera model is made of. */
  datatype PanderaModel = PanderaModel(annotations: map<string, Annotation>, fields: map<string, FieldInfo>, config: Config)

  /** A `DFVarSchema` subclass: the class attributes `M` and `dtypes` that `__init_subclass__` sets. */
  class SchemaClass {
    const className: string
    var model: Option<PanderaModel>
    var dtypes: map<string, seq<string>>

    constructor (className: string)
      ensures this.className == className && model == None && dtypes == map[]
    {
      this.className := className;
      model := None;
      dtypes := map[];
    }

    /**
     * `__init_subclass__`: a ValueError when an index column is not a field,
     * before anything is built; otherwise one pass over the fields fills the
     * dtype groups, the annotations and the field options.  `None` and an empty
     * list of index columns mean the same (`index_cols or []`).
     */
    method InitSubclass(hints: seq<Hint>, config: Option<Config>, indexCols: Option<seq<string>>)
      returns (err: Option<Exception>)
      modifies this`model, this`dtypes
      ensures var idx := if indexCols.Some? then indexCols.value else [];
              err.Some? <==> exists c :: c in idx && !Declared(hints, c)
      ensures err.Some? ==> err.value == ValueError(MissingIndexMessage(className))
      ensures err.Some? ==> model == old(model) && dtypes == old(dtypes)
      ensures err.None? ==> dtypes == Grouped(hints)
      ensures err.None? ==>
                var idx := if indexCols.Some? then indexCols.value else [];
                var cfg := if config.Some? then config.value else DefaultConfig;
                model == Some(PanderaModel(Annotations(hints, idx), Fields(hints), cfg))
    {
      var cfg := if config.Some? then config.value else DefaultConfig;
      var idx := if indexCols.Some? then indexCols.value else [];
      var missing := MissingIndexColumns(hints, idx);
      if |missing| > 0 {
        assert missing[0] in missing;
        return Some(ValueError(MissingIndexMessage(className)));
      }
      var groups, annotations, fields := CollectFields(hints, idx);
      model := Some(PanderaModel(annotations, fields, cfg));
      dtypes := groups;
      err := None;
    }
  }

  lemma CollectStep(hints: seq<Hint>, idx: seq<string>, i: nat)
    requires i < |hints|
    ensures var h := hints[i];
            var g := Grouped(hints[..i]);
            Grouped(hints[..i + 1])
              == if DtypeOf(h) in g then g[DtypeOf(h) := g[DtypeOf(h)] + [h.name]] else g[DtypeOf(h) := [h.name]]
    ensures Annotations(hints[..i + 1], idx) == Annotations(hints[..i], idx)[hints[i].name := AnnotationOf(hints[i], idx)]
    ensures var h := hints[i];
            var info := BuildFieldInfo(h.nullable, h.constraints);
            Fields(hints[..i + 1]) == if info.Some? then Fields(hints[..i])[h.name := info.value] else Fields(hints[..i])
  {
    assert hints[..i + 1][..i] == hints[..i];
  }

  /** The loop of `__init_subclass__` over the merged annotations. */
  method CollectFields(hints: seq<Hint>, idx: seq<string>)
    returns (groups: map<string, seq<string>>, annotations: map<string, Annotation>, fields: map<string, FieldInfo>)
    ensures groups == Grouped(hints)
    ensures annotations == Annotations(hints, idx)
    ensures fields == Fields(hints)
  {
    groups, annotations, fields := map[], map[], map[];
    for i := 0 to |hints|
      invariant groups == Grouped(hints[..i])
      invariant annotations == Annotations(hints[..i], idx)
      invariant fields == Fields(hints[..i])
    {
      var h := hints[i];
      CollectStep(hints, idx, i);
      var d := DtypeOf(h);
      if d in groups {
        groups := groups[d := groups[d] + [h.name]];
      } else {
        groups := groups[d := [h.name]];
      }
      annotations := annotations[h.name := AnnotationOf(h, idx)];
      var info := BuildFieldInfo(h.nullable, h.constraints);
      if info.Some? {
        fields := fields[h.name := info.value];
      }
    }
    assert hints[..|hints|] == hints;
  }

  /** Each dtype group lists exactly the fields of that dtype, in declaration order; no group is empty. */
  lemma {:induction false} GroupedIsBuckets(hs: seq<Hint>, d: string)
    ensures d in Grouped(hs) <==> |Bucket(hs, d)| > 0
    ensures d in Grouped(hs) ==> Grouped(hs)[d] == Bucket(hs, d)
  {
    if |hs| > 0 {
      GroupedIsBuckets(hs[..|hs| - 1], d);
    }
  }

  /** A field is in the group of dtype `d` exactly when `d` is its own dtype. */
  lemma InGroupIff(hs: seq<Hint>, i: nat, d: string)
    requires DistinctNames(hs) && i < |hs|
    ensures InGroup(Grouped(hs), d, hs[i].name) <==> d == DtypeOf(hs[i])
  {
    GroupedIsBuckets(hs, d);
    BucketHasOwn(hs, i);
    if hs[i].name in Bucket(hs, d) {
      BucketMembers(hs, d, hs[i].name);
    }
  }

  /** Every field name lands in exactly one dtype group: the one of its own dtype, and only once there. */
  lemma ExactlyOneBucket(hs: seq<Hint>, i: nat, d: string)
    requires DistinctNames(hs) && i < |hs|
    ensures DtypeOf(hs[i]) in Grouped(hs) && hs[i].name in Grouped(hs)[DtypeOf(hs[i])]
    ensures d in Grouped(hs) && hs[i].name in Grouped(hs)[d] ==> d == DtypeOf(hs[i])
    ensures d in Grouped(hs) ==> multiset(Grouped(hs)[d])[hs[i].name] <= 1
  {
    InGroupIff(hs, i, d);
    InGroupIff(hs, i, DtypeOf(hs[i]));
    GroupedIsBuckets(hs, d);
    BucketOnce(hs, d, hs[i].name);
  }

  lemma {:induction false} BucketOnce(hs: seq<Hint>, d: string, n: string)
    requires DistinctNames(hs)
    ensures multiset(Bucket(hs, d))[n] <= 1
  {
    if |hs| > 0 {
      var prev := hs[..|hs| - 1];
      assert DistinctNames(prev) by {
        assert forall i :: 0 <= i < |prev| ==> prev[i] == hs[i];
      }
      BucketOnce(prev, d, n);
      if n in Bucket(prev, d) {
        BucketMembers(prev, d, n);
        var j :| 0 <= j < |prev| && prev[j].name == n && DtypeOf(prev[j]) == d;
        assert hs[j].name == n;
      }
    }
  }

  /** Every declared field is annotated, as an index exactly when it is listed among the index columns. */
  lemma {:induction false} AnnotationsOfFields(hs: seq<Hint>, indexCols: seq<string>, i: nat)
    requires DistinctNames(hs) && i < |hs|
    ensures hs[i].name in Annotations(hs, indexCols)
    ensures Annotations(hs, indexCols)[hs[i].name].tp == hs[i].tp
    ensures Annotations(hs, indexCols)[hs[i].name].IndexOf? <==> hs[i].name in indexCols
  {
    var prev := hs[..|hs| - 1];
    if i < |hs| - 1 {
      assert DistinctNames(prev) by {
        assert forall j :: 0 <= j < |prev| ==> prev[j] == hs[j];
      }
      AnnotationsOfFields(prev, indexCols, i);
    }
  }

  /** Nothing but declared fields is annotated. */
  lemma {:induction false} AnnotationsOnlyFields(hs: seq<Hint>, indexCols: seq<string>, n: string)
    requires n in Annotations(hs, indexCols)
    ensures Declared(hs, n)
  {
    var prev := hs[..|hs| - 1];
    if n != hs[|hs| - 1].name {
      AnnotationsOnlyFields(prev, indexCols, n);
      var j :| 0 <= j < |prev| && prev[j].name == n;
      assert hs[j].name == n;
    }
  }

  /** A field carries pandera options exactly when `_build_pandera_field_info` gives some, and then those. */
  lemma {:induction false} FieldsOfHints(hs: seq<Hint>, i: nat)
    requires DistinctNames(hs) && i < |hs|
    ensures hs[i].name in Fields(hs) <==> BuildFieldInfo(hs[i].nullable, hs[i].constraints).Some?
    ensures hs[i].name in Fields(hs) ==> Fields(hs)[hs[i].name] == BuildFieldInfo(hs[i].nullable, hs[i].constraints).value
  {
    var prev := hs[..|hs| - 1];
    if i < |hs| - 1 {
      assert DistinctNames(prev) by {
        assert forall j :: 0 <= j < |prev| ==> prev[j] == hs[j];
      }
      FieldsOfHints(prev, i);
    } else {
      assert !Declared(prev, hs[i].name);
      FieldsOnlyDeclared(prev, hs[i].name);
    }
  }

  lemma {:induction false} FieldsOnlyDeclared(hs: seq<Hint>, n: string)
    requires !Declared(hs, n)
    ensures n !in Fields(hs)
  {
    if |hs| > 0 {
      var prev := hs[..|hs| - 1];
      assert !Declared(prev, n) by {
        assert forall j :: 0 <= j < |prev| ==> prev[j] == hs[j];
      }
      FieldsOnlyDeclared(prev, n);
    }
  }

  // ----- records and columns ------------------------------------------------------------

  /**
   * An instance of a schema dataclass: the `__slots__` of its class, in
   * order, and the attributes it has.
   */
  datatype Instance<V> = Instance(slots: seq<string>, attrs: map<string, V>)

  /** The numpy array kind `to_vect_dict` picks for a column. */
  datatype ColumnKind = Int64Column | Float64Column | BoolColumn | StrColumn | ObjectColumn

  /** One entry of a dict of columns.  The kind is ignored when columns are read back. */
  datatype Column<V> = Column(name: string, kind: ColumnKind, values: seq<V>)

  /** The argument of `to_vect_dict`: one instance or a list of them. */
  datatype OneOrMany<V> = One(instance: Instance<V>) | Many(instances: seq<Instance<V>>)

  function AsList<V>(x: OneOrMany<V>): (r: seq<Instance<V>>)
    ensures x.One? ==> r == [x.instance]
    ensures x.Many? ==> r == x.instances
  {
    match x
    case One(inst) => [inst]
    case Many(xs) => xs
  }

  /** The array kind that belongs to a dtype name. */
  function KindOfDtype(d: string): (r: ColumnKind)
    ensures r != ObjectColumn <==> ParseDtype(d).Some?
  {
    if d == "int64" || d == "Int64" then Int64Column
    else if d == "float64" || d == "Float64" then Float64Column
    else if d == "boolean" || d == "Boolean" then BoolColumn
    else if d == "string" || d == "String" then StrColumn
    else ObjectColumn
  }

  /**
   * The array kind `to_vect_dict` picks as written: it looks the FIELD NAME
   * up in `cls.dtypes` and reads the first entry of what it finds as a dtype
   * name, although `dtypes` is keyed by dtype name and holds field names.
   */
  function KindAsWritten(dtypes: map<string, seq<string>>, name: string): ColumnKind {
    if name in dtypes && |dtypes[name]| > 0 then KindOfDtype(dtypes[name][0]) else ObjectColumn
  }

  /** The evidently intended kind: that of the dtype group holding the field. */
  function KindFor(dtypes: map<string, seq<string>>, name: string): ColumnKind {
    if InGroup(dtypes, "int64", name) || InGroup(dtypes, "Int64", name) then Int64Column
    else if InGroup(dtypes, "float64", name) || InGroup(dtypes, "Float64", name) then Float64Column
    else if InGroup(dtypes, "boolean", name) || InGroup(dtypes, "Boolean", name) then BoolColumn
    else if InGroup(dtypes, "string", name) || InGroup(dtypes, "String", name) then StrColumn
    else ObjectColumn
  }

  /** With the groups of a declared schema, every field gets the array kind of its own dtype. */
  lemma KindForMatchesDeclaration(hs: seq<Hint>, i: nat)
    requires DistinctNames(hs) && i < |hs|
    ensures KindFor(Grouped(hs), hs[i].name) == KindOfDtype(DtypeOf(hs[i]))
  {
    var d := DtypeOf(hs[i]);
    forall e | InGroup(Grouped(hs), e, hs[i].name)
      ensures e == d
    {
      InGroupIff(hs, i, e);
    }
    InGroupIff(hs, i, d);
    KindForOnlyGroup(Grouped(hs), hs[i].name, d);
  }

  /** A field that sits in exactly one group gets the array kind of that group's dtype. */
  lemma KindForOnlyGroup(dtypes: map<string, seq<string>>, name: string, d: string)
    requires InGroup(dtypes, d, name)
    requires forall e :: InGroup(dtypes, e, name) ==> e == d
    ensures KindFor(dtypes, name) == KindOfDtype(d)
  {
  }

  /**
   * As written, an `int` field named "x" gets an object array instead of an
   * int64 one, because "x" is not a dtype name.
   */
  lemma AsWrittenLooksUpByName()
    ensures var hs := [Hint("x", IntType, false, None)];
            Grouped(hs) == map["int64" := ["x"]]
            && KindAsWritten(Grouped(hs), "x") == ObjectColumn
            && KindOfDtype(DtypeOf(hs[0])) == Int64Column
  {
    var hs := [Hint("x", IntType, false, None)];
    assert hs[..0] == [];
  }

  /**
   * As written, a column gets a typed array only when its field is itself
   * named like a dtype group ("int64", "Float64", ...) of the schema.
   */
  lemma AsWrittenTypedOnlyForDtypeNames(hs: seq<Hint>, n: string)
    ensures KindAsWritten(Grouped(hs), n) != ObjectColumn ==>
              exists j :: 0 <= j < |hs| && DtypeOf(hs[j]) == n
  {
    if KindAsWritten(Grouped(hs), n) != ObjectColumn {
      GroupedIsBuckets(hs, n);
      BucketMembers(hs, n, Bucket(hs, n)[0]);
    }
  }

  /** `[getattr(inst, name) for inst in instance]`: an AttributeError at the first instance without it. */
  function Gather<V>(xs: seq<Instance<V>>, name: string): (r: Result<seq<V>, Exception>)
    ensures r.Ok? <==> forall i :: 0 <= i < |xs| ==> name in xs[i].attrs
    ensures r.Ok? ==> |r.value| == |xs| && forall i :: 0 <= i < |xs| ==> r.value[i] == xs[i].attrs[name]
    ensures r.Err? ==> r.error == AttributeError(name)
  {
    if |xs| == 0 then Ok([])
    else if name !in xs[0].attrs then Err(AttributeError(name))
    else
      var rest := Gather(xs[1..], name);
      if rest.Err? then rest else Ok([xs[0].attrs[name]] + rest.value)
  }

  /** The columns for the slot names `names`, in order; the first slot some instance lacks is an AttributeError. */
  function Columns<V>(dtypes: map<string, seq<string>>, xs: seq<Instance<V>>, names: seq<string>): Result<seq<Column<V>>, Exception> {
    if |names| == 0 then Ok([])
    else
      var prev := Columns(dtypes, xs, names[..|names| - 1]);
      var name := names[|names| - 1];
      if prev.Err? then prev
      else
        var col := Gather(xs, name);
        if col.Err? then Err(col.error) else Ok(prev.value + [Column(name, KindAsWritten(dtypes, name), col.value)])
  }

  /** What `to_vect_dict` returns for `x`, where `dtypes` is the `dtypes` of the first instance's class. */
  function VectDict<V>(dtypes: map<string, seq<string>>, x: OneOrMany<V>): Result<seq<Column<V>>, Exception> {
    var xs := AsList(x);
    if |xs| == 0 then Ok([]) else Columns(dtypes, xs, xs[0].slots)
  }

  /** `to_vect_dict`: one column per slot of the first instance's class, filled slot by slot. */
  method ToVectDict<V>(dtypes: map<string, seq<string>>, x: OneOrMany<V>) returns (r: Result<seq<Column<V>>, Exception>)
    ensures r == VectDict(dtypes, x)
  {
    var xs := AsList(x);
    if |xs| == 0 {
      return Ok([]);
    }
    var slots := xs[0].slots;
    var result: seq<Column<V>> := [];
    for k := 0 to |slots|
      invariant Columns(dtypes, xs, slots[..k]) == Ok(result)
    {
      assert slots[..k + 1][..k] == slots[..k];
      var col := Gather(xs, slots[k]);
      if col.Err? {
        ColumnsErrorStays(dtypes, xs, slots, k + 1);
        return Err(col.error);
      }
      result := result + [Column(slots[k], KindAsWritten(dtypes, slots[k]), col.value)];
    }
    assert slots[..|slots|] == slots;
    r := Ok(result);
  }

  /** Once a slot is missing, the later slots are never reached. */
  lemma {:induction false} ColumnsErrorStays<V>(dtypes: map<string, seq<string>>, xs: seq<Instance<V>>, names: seq<string>, k: nat)
    requires k <= |names| && Columns(dtypes, xs, names[..k]).Err?
    ensures Columns(dtypes, xs, names) == Columns(dtypes, xs, names[..k])
    decreases |names| - k
  {
    if k < |names| {
      assert names[..k + 1][..k] == names[..k];
      ColumnsErrorStays(dtypes, xs, names, k + 1);
    } else {
      assert names[..k] == names;
    }
  }

  predicate HasAll<V>(xs: seq<Instance<V>>, names: seq<string>) {
    forall i, k :: 0 <= i < |xs| && 0 <= k < |names| ==> names[k] in xs[i].attrs
  }

  /**
   * The columns exist exactly when every instance has every slot; otherwise
   * the error is an AttributeError for a slot.
   */
  lemma {:induction false} ColumnsDefined<V>(dtypes: map<string, seq<string>>, xs: seq<Instance<V>>, names: seq<string>)
    ensures Columns(dtypes, xs, names).Ok? <==> HasAll(xs, names)
    ensures Columns(dtypes, xs, names).Err? ==> Columns(dtypes, xs, names).error.AttributeError?
  {
    if |names| > 0 {
      var prefix := names[..|names| - 1];
      ColumnsDefined(dtypes, xs, prefix);
      assert forall k :: 0 <= k < |prefix| ==> prefix[k] == names[k];
      if !HasAll(xs, prefix) {
        var i, k :| 0 <= i < |xs| && 0 <= k < |prefix| && prefix[k] !in xs[i].attrs;
        assert names[k] !in xs[i].attrs;
      }
    }
  }

  /**
   * The columns are the slots in order; each holds one value per instance, the
   * instance's attribute, in instance order.
   */
  lemma {:induction false} ColumnsShape<V>(dtypes: map<string, seq<string>>, xs: seq<Instance<V>>, names: seq<string>)
    requires HasAll(xs, names)
    ensures Columns(dtypes, xs, names).Ok?
    ensures var cols := Columns(dtypes, xs, names).value;
            |cols| == |names|
            && (forall k :: 0 <= k < |names| ==> cols[k].name == names[k] && cols[k].kind == KindAsWritten(dtypes, names[k]))
            && (forall k :: 0 <= k < |names| ==> |cols[k].values| == |xs|)
            && (forall k, i :: 0 <= k < |names| && 0 <= i < |xs| ==> cols[k].values[i] == xs[i].attrs[names[k]])
  {
    ColumnsDefined(dtypes, xs, names);
    if |names| > 0 {
      var prefix := names[..|names| - 1];
      assert forall k :: 0 <= k < |prefix| ==> prefix[k] == names[k];
      ColumnsShape(dtypes, xs, prefix);
    }
  }

  /** An empty list gives no columns. */
  lemma EmptyVectDict<V>(dtypes: map<string, seq<string>>)
    ensures VectDict<V>(dtypes, Many([])) == Ok([])
  {
  }

  /** A single instance is treated as a one-element list: each column holds that instance's attribute. */
  lemma SingleInstanceVectDict<V>(dtypes: map<string, seq<string>>, inst: Instance<V>)
    requires forall k :: 0 <= k < |inst.slots| ==> inst.slots[k] in inst.attrs
    ensures VectDict(dtypes, One(inst)) == VectDict(dtypes, Many([inst]))
    ensures VectDict(dtypes, One(inst)).Ok? && |VectDict(dtypes, One(inst)).value| == |inst.slots|
    ensures forall k :: 0 <= k < |inst.slots| ==> VectDict(dtypes, One(inst)).value[k].values == [inst.attrs[inst.slots[k]]]
  {
    ColumnsShape(dtypes, [inst], inst.slots);
  }

  /** `{col: data[col][i] for col in cols}`: record `i` of the columns; a later column of the same name wins. */
  function Row<V>(data: seq<Column<V>>, i: nat): map<string, V>
    requires forall c :: 0 <= c < |data| ==> i < |data[c].values|
  {
    if |data| == 0 then map[]
    else Row(data[..|data| - 1], i)[data[|data| - 1].name := data[|data| - 1].values[i]]
  }

  /**
   * A stand-in for the IndexError's text: Python's own wording depends on the
   * column's container ("list index out of range", "tuple index out of range",
   * numpy's "index N is out of bounds ...").
   */
  const ShortColumnMessage: string := "index out of range"

  /**
   * `from_dict`: an empty mapping gives no records; otherwise there are as many
   * records as the first column has values, and a column shorter than that is
   * an IndexError.  `slots` are the `__slots__` of the class constructed.
   */
  function FromDict<V>(slots: seq<string>, data: seq<Column<V>>): (r: Result<seq<Instance<V>>, Exception>)
    ensures |data| == 0 ==> r == Ok([])
    ensures r.Err? <==> exists c :: 0 <= c < |data| && |data[c].values| < |data[0].values|
    ensures r.Err? ==> r.error == IndexError(ShortColumnMessage)
    ensures r.Ok? && |data| > 0 ==> |r.value| == |data[0].values|
    ensures r.Ok? ==> forall i :: 0 <= i < |r.value| ==> r.value[i].slots == slots
  {
    if |data| == 0 then Ok([])
    else
      var n := |data[0].values|;
      if exists c :: 0 <= c < |data| && |data[c].values| < n then Err(IndexError(ShortColumnMessage))
      else Ok(seq(n, i requires 0 <= i < n => Instance(slots, Row(data, i))))
  }

  /** Field `c` of record `i` is value `i` of column `c`, when no two columns share a name. */
  lemma {:induction false} RowLookup<V>(data: seq<Column<V>>, i: nat, c: nat)
    requires forall k :: 0 <= k < |data| ==> i < |data[k].values|
    requires forall a, b :: 0 <= a < b < |data| ==> data[a].name != data[b].name
    requires c < |data|
    ensures data[c].name in Row(data, i) && Row(data, i)[data[c].name] == data[c].values[i]
  {
    if c < |data| - 1 {
      var prev := data[..|data| - 1];
      assert forall k :: 0 <= k < |prev| ==> prev[k] == data[k];
      RowLookup(prev, i, c);
    }
  }

  lemma {:induction false} RowKeys<V>(data: seq<Column<V>>, i: nat, n: string)
    requires forall k :: 0 <= k < |data| ==> i < |data[k].values|
    ensures n in Row(data, i) <==> exists k :: 0 <= k < |data| && data[k].name == n
  {
    if |data| > 0 {
      var prev := data[..|data| - 1];
      assert forall k :: 0 <= k < |prev| ==> prev[k] == data[k];
      RowKeys(prev, i, n);
    }
  }

  /** The instances `to_vect_dict` can take apart and `from_dict` can rebuild: one class, every slot set, nothing else. */
  ghost predicate SameClass<V>(slots: seq<string>, xs: seq<Instance<V>>) {
    && (forall a, b :: 0 <= a < b < |slots| ==> slots[a] != slots[b])
    && (forall i :: 0 <= i < |xs| ==> xs[i].slots == slots)
    && (forall i, n :: 0 <= i < |xs| ==> (n in xs[i].attrs <==> n in slots))
  }

  /**
   * `from_dict` after `to_vect_dict` gives back the same records, for
   * instances of one class with at least one slot.
   */
  lemma RecordsRoundTrip<V>(dtypes: map<string, seq<string>>, slots: seq<string>, xs: seq<Instance<V>>)
    requires SameClass(slots, xs) && |slots| > 0
    ensures VectDict(dtypes, Many(xs)).Ok?
    ensures FromDict(slots, VectDict(dtypes, Many(xs)).value) == Ok(xs)
  {
    if |xs| > 0 {
      assert HasAll(xs, slots) by {
        forall i, k | 0 <= i < |xs| && 0 <= k < |slots|
          ensures slots[k] in xs[i].attrs
        {
          assert slots[k] in slots;
        }
      }
      ColumnsShape(dtypes, xs, slots);
      var cols := Columns(dtypes, xs, slots).value;
      forall i | 0 <= i < |xs|
        ensures Instance(slots, Row(cols, i)) == xs[i]
      {
        RowIsRecord(cols, slots, xs[i], i);
      }
      assert FromDict(slots, cols).value == xs;
    } else {
      assert VectDict(dtypes, Many(xs)) == Ok([]);
    }
  }

  /** Reading record `i` back out of the columns of `x` gives the attributes of `x`. */
  lemma RowIsRecord<V>(cols: seq<Column<V>>, slots: seq<string>, x: Instance<V>, i: nat)
    requires |cols| == |slots|
    requires forall a, b :: 0 <= a < b < |slots| ==> slots[a] != slots[b]
    requires forall k :: 0 <= k < |cols| ==> cols[k].name == slots[k] && i < |cols[k].values|
    requires forall k :: 0 <= k < |cols| ==> slots[k] in x.attrs && cols[k].values[i] == x.attrs[slots[k]]
    requires forall n :: n in x.attrs ==> n in slots
    ensures Row(cols, i) == x.attrs
  {
    forall n
      ensures n in Row(cols, i) <==> n in x.attrs
    {
      RowKeys(cols, i, n);
    }
    forall n | n in x.attrs
      ensures Row(cols, i)[n] == x.attrs[n]
    {
      var k :| 0 <= k < |slots| && slots[k] == n;
      RowLookup(cols, i, k);
    }
  }

  /**
   * `to_vect_dict` after `from_dict` gives back the same column values, for
   * columns of equal length that are exactly the slots of the class, in order.
   */
  lemma ColumnsRoundTrip<V>(dtypes: map<string, seq<string>>, slots: seq<string>, data: seq<Column<V>>)
    requires |data| == |slots| > 0
    requires forall a, b :: 0 <= a < b < |slots| ==> slots[a] != slots[b]
    requires forall c :: 0 <= c < |data| ==> data[c].name == slots[c] && |data[c].values| == |data[0].values|
    requires |data[0].values| > 0
    ensures FromDict(slots, data).Ok?
    ensures VectDict(dtypes, Many(FromDict(slots, data).value)).Ok?
    ensures var cols := VectDict(dtypes, Many(FromDict(slots, data).value)).value;
            |cols| == |data| && forall c :: 0 <= c < |data| ==> cols[c].name == data[c].name && cols[c].values == data[c].values
  {
    var n := |data[0].values|;
    assert FromDict(slots, data).Ok?;
    var xs := FromDict(slots, data).value;
    assert |xs| == n;
    forall i, k | 0 <= i < n && 0 <= k < |slots|
      ensures slots[k] in xs[i].attrs && xs[i].attrs[slots[k]] == data[k].values[i]
    {
      assert xs[i] == Instance(slots, Row(data, i));
      RowLookup(data, i, k);
    }
    assert HasAll(xs, slots);
    ColumnsShape(dtypes, xs, slots);
    var cols := Columns(dtypes, xs, slots).value;
    forall c | 0 <= c < |data|
      ensures cols[c].values == data[c].values
    {
      assert |cols[c].values| == n == |data[c].values|;
      forall i | 0 <= i < n
        ensures cols[c].values[i] == data[c].values[i]
      {
        assert cols[c].values[i] == xs[i].attrs[slots[c]];
      }
    }
  }

}
