/** `SparkTypeChecker`: records the column-to-dtype signature of a Spark DataFrame when fitted and
    validates later frames against it. A frame is abstracted as its sequence of columns, each with
    a name, a dtype string and its (opaque) values. */
module SparkTypeChecking {
  import opened Results
  import opened Dicts

  /** The Python types a dtype string is mapped to. */
  datatype PyType = StrType | IntType | FloatType | BoolType

  /** The supported dtype strings and the Python type each stands for. */
  const DtypeTable: map<string, PyType> :=
    map["str" := StrType, "int" := IntType, "float" := FloatType, "double" := FloatType, "bool" := BoolType]

  /** `raw_types`: column name to (dtype string, Python type), in column order. */
  type Signature = seq<(string, (string, PyType))>

  datatype Column<V> = Column(name: string, dtype: string, values: V)

  type Frame<V> = seq<Column<V>>

  /** `data.columns`. */
  function Columns<V>(f: Frame<V>): (names: seq<string>)
    ensures |names| == |f| && forall i {:trigger names[i]} :: 0 <= i < |f| ==> names[i] == f[i].name
  {
    seq(|f|, i requires 0 <= i < |f| => f[i].name)
  }

  /** `data.dtypes`: (name, dtype string) pairs in column order. */
  function Dtypes<V>(f: Frame<V>): (pairs: seq<(string, string)>)
    ensures |pairs| == |f| && forall i {:trigger pairs[i]} :: 0 <= i < |f| ==> pairs[i] == (f[i].name, f[i].dtype)
    ensures Keys(pairs) == Columns(f)
  {
    seq(|f|, i requires 0 <= i < |f| => (f[i].name, f[i].dtype))
  }

  /** `_convert_dtype`: the if/elif chain agrees with the dispatch table, keeps the dtype string
      alongside the type, and rejects every other string. */
  function ConvertDtype(t: string): (r: Result<(string, PyType), string>)
    ensures r.Ok? <==> t in DtypeTable
    ensures r.Ok? ==> r.value == (t, DtypeTable[t])
    ensures r.Err? ==> r.error == t + " not supported"
  {
    if t == "str" then Ok((t, StrType))
    else if t == "int" then Ok((t, IntType))
    else if t == "float" || t == "double" then Ok((t, FloatType))
    else if t == "bool" then Ok((t, BoolType))
    else Err(t + " not supported")
  }

  /** `_convert_dtypes`: converts every entry in order; the first unsupported dtype raises. */
  function ConvertDtypes(d: seq<(string, string)>): (r: Result<Signature, string>)
    ensures r.Ok? <==> forall i :: 0 <= i < |d| ==> d[i].1 in DtypeTable
    ensures r.Ok? ==> |r.value| == |d| &&
                      forall i :: 0 <= i < |d| ==> r.value[i] == (d[i].0, (d[i].1, DtypeTable[d[i].1]))
    ensures r.Err? ==> exists i :: 0 <= i < |d| && d[i].1 !in DtypeTable && r.error == d[i].1 + " not supported"
                                   && forall j :: 0 <= j < i ==> d[j].1 in DtypeTable
  {
    if |d| == 0 then Ok([])
    else
      match ConvertDtype(d[0].1)
      case Err(e) => Err(e)
      case Ok(p) =>
        assert forall i :: 1 <= i < |d| ==> d[i] == d[1..][i - 1];
        match ConvertDtypes(d[1..])
        case Ok(rest) => Ok([(d[0].0, p)] + rest)
        case Err(e) => Err(e)
  }

  /** The signature `fit` records: `_convert_dtypes(dict(data.dtypes))`. Its keys are exactly the
      frame's column names, each once; on a frame with distinct column names it fails exactly when
      some column's dtype is unsupported, and otherwise maps each column, in order, to its dtype
      string and that string's type. */
  function FitSignature<V>(f: Frame<V>): (r: Result<Signature, string>)
    ensures Distinct(Columns(f)) ==> (r.Ok? <==> forall i :: 0 <= i < |f| ==> f[i].dtype in DtypeTable)
    ensures r.Ok? ==> Distinct(Keys(r.value)) && forall x :: x in Keys(r.value) <==> x in Columns(f)
    ensures Distinct(Columns(f)) && r.Ok? ==>
              |r.value| == |f| && forall i :: 0 <= i < |f| ==> r.value[i] == (f[i].name, (f[i].dtype, DtypeTable[f[i].dtype]))
  {
    var d: seq<(string, string)> := FromPairs(Dtypes(f));
    var c := ConvertDtypes(d);
    assert Distinct(Columns(f)) ==> forall i :: 0 <= i < |f| ==> d[i].1 == f[i].dtype by {
      if Distinct(Columns(f)) {
        assert d == Dtypes(f);
      }
    }
    assert c.Ok? ==> Keys(c.value) == Keys(d);
    c
  }

  const NotFittedMessage := "'SparkTypeChecker' object has no attribute 'raw_types'"

  function MissingMessage(col: string): string {
    "`" + col + "` is missing from the dataset"
  }

  function MismatchMessage(name: string, expected: string, actual: string): string {
    "Dtypes did not match up for col " + name + ": Expected " + expected + ", got " + actual
  }

  /** The index of the first name not among `cols`, if any. */
  function FirstAbsent(names: seq<string>, cols: seq<string>): (r: Option<nat>)
    ensures r.None? <==> forall i :: 0 <= i < |names| ==> names[i] in cols
    ensures r.Some? ==> r.value < |names| && names[r.value] !in cols
                        && forall j :: 0 <= j < r.value ==> names[j] in cols
  {
    if |names| == 0 then None
    else if names[0] !in cols then Some(0)
    else
      match FirstAbsent(names[1..], cols)
      case None => None
      case Some(i) => Some(i + 1)
  }

  /** The index of the first signature entry whose dtype string differs from the frame's. */
  function FirstMismatch(sig: Signature, dtypes: seq<(string, string)>): (r: Option<nat>)
    ensures r.None? <==> forall i :: 0 <= i < |sig| ==> Get(dtypes, sig[i].0) == Some(sig[i].1.0)
    ensures r.Some? ==> r.value < |sig| && Get(dtypes, sig[r.value].0) != Some(sig[r.value].1.0)
                        && forall j :: 0 <= j < r.value ==> Get(dtypes, sig[j].0) == Some(sig[j].1.0)
  {
    if |sig| == 0 then None
    else if Get(dtypes, sig[0].0) != Some(sig[0].1.0) then Some(0)
    else
      match FirstMismatch(sig[1..], dtypes)
      case None => None
      case Some(i) => Some(i + 1)
  }

  /** The first column with the given name. */
  function Find<V>(f: Frame<V>, name: string): (c: Column<V>)
    requires name in Columns(f)
    ensures c in f && c.name == name
    ensures Get(Dtypes(f), name) == Some(c.dtype)
  {
    assert Dtypes(f)[0] == (f[0].name, f[0].dtype);
    if f[0].name == name then f[0]
    else
      assert Dtypes(f)[1..] == Dtypes(f[1..]) by {
        forall j | 0 <= j < |f| - 1 ensures Dtypes(f)[1..][j] == Dtypes(f[1..])[j] {
          assert Dtypes(f)[j + 1] == (f[j + 1].name, f[j + 1].dtype);
        }
      }
      assert name in Columns(f[1..]) by {
        var j :| 0 <= j < |f| && Columns(f)[j] == name;
        assert Columns(f)[0] == f[0].name;
        assert Columns(f[1..])[j - 1] == f[j].name;
      }
      Find(f[1..], name)
  }

  /** `data.select(names)`. */
  function Select<V>(f: Frame<V>, names: seq<string>): (g: Frame<V>)
    requires forall i :: 0 <= i < |names| ==> names[i] in Columns(f)
    ensures |g| == |names| && forall i {:trigger g[i]} :: 0 <= i < |names| ==> g[i] == Find(f, names[i])
  {
    seq(|names|, i requires 0 <= i < |names| => Find(f, names[i]))
  }

  /** What `transform` does with a fitted signature: it fails on the first fitted column missing
      from the frame, then on the first column whose dtype string is not exactly the fitted one;
      otherwise it returns the fitted columns, in fitted order, and nothing else. */
  function Check<V>(sig: Signature, f: Frame<V>): (r: Result<Frame<V>, string>)
    ensures r.Ok? <==> (forall i :: 0 <= i < |sig| ==> sig[i].0 in Columns(f))
                       && (forall i :: 0 <= i < |sig| ==> Get(FromPairs(Dtypes(f)), sig[i].0) == Some(sig[i].1.0))
    ensures r.Ok? ==> |r.value| == |sig| && forall i :: 0 <= i < |sig| ==> r.value[i] == Find(f, sig[i].0)
  {
    var names := Keys(sig);
    match FirstAbsent(names, Columns(f))
    case Some(i) => Err(MissingMessage(names[i]))
    case None =>
      var dtypes := FromPairs(Dtypes(f));
      match FirstMismatch(sig, dtypes)
      case Some(i) =>
        assert names[i] == sig[i].0;
        assert sig[i].0 in Keys(dtypes);
        Err(MismatchMessage(sig[i].0, sig[i].1.0, Get(dtypes, sig[i].0).value))
      case None =>
        var g := Select(f, names);
        assert Columns(g) == names;
        Ok(g)
  }

  lemma {:induction false} FirstAbsentAt(names: seq<string>, cols: seq<string>, i: nat)
    requires i < |names| && names[i] !in cols && forall j :: 0 <= j < i ==> names[j] in cols
    ensures FirstAbsent(names, cols) == Some(i)
  {
    if i > 0 {
      FirstAbsentAt(names[1..], cols, i - 1);
    }
  }

  lemma {:induction false} FirstMismatchAt(sig: Signature, dtypes: seq<(string, string)>, i: nat)
    requires i < |sig| && Get(dtypes, sig[i].0) != Some(sig[i].1.0)
    requires forall j :: 0 <= j < i ==> Get(dtypes, sig[j].0) == Some(sig[j].1.0)
    ensures FirstMismatch(sig, dtypes) == Some(i)
  {
    if i > 0 {
      FirstMismatchAt(sig[1..], dtypes, i - 1);
    }
  }

  /** The first fitted column absent from the frame is the one reported. */
  lemma CheckMissing<V>(sig: Signature, f: Frame<V>, i: nat)
    requires i < |sig| && sig[i].0 !in Columns(f) && forall j :: 0 <= j < i ==> sig[j].0 in Columns(f)
    ensures Check(sig, f) == Err(MissingMessage(sig[i].0))
  {
    FirstAbsentAt(Keys(sig), Columns(f), i);
  }

  /** With every fitted column present, the first dtype mismatch is the one reported, with the
      dtype string the frame actually has. */
  lemma CheckMismatch<V>(sig: Signature, f: Frame<V>, i: nat)
    requires forall j :: 0 <= j < |sig| ==> sig[j].0 in Columns(f)
    requires i < |sig| && Get(FromPairs(Dtypes(f)), sig[i].0) != Some(sig[i].1.0)
    requires forall j :: 0 <= j < i ==> Get(FromPairs(Dtypes(f)), sig[j].0) == Some(sig[j].1.0)
    ensures Check(sig, f) == Err(MismatchMessage(sig[i].0, sig[i].1.0, Get(FromPairs(Dtypes(f)), sig[i].0).value))
  {
    FirstMismatchAt(sig, FromPairs(Dtypes(f)), i);
  }

  lemma CheckPass<V>(sig: Signature, f: Frame<V>)
    requires forall j :: 0 <= j < |sig| ==> sig[j].0 in Columns(f)
    requires forall j :: 0 <= j < |sig| ==> Get(FromPairs(Dtypes(f)), sig[j].0) == Some(sig[j].1.0)
    ensures Check(sig, f) == Ok(Select(f, Keys(sig)))
  {
  }

  class SparkTypeChecker {
    var rawTypes: Option<Signature>

    ghost predicate Valid()
      reads this
    {
      rawTypes.Some? ==> Distinct(Keys(rawTypes.value))
    }

    constructor ()
      ensures Valid() && rawTypes == None
    {
      rawTypes := None;
    }

    /** `fit`: records the frame's signature, or raises and leaves the checker as it was. */
    method Fit<V>(data: Frame<V>) returns (r: Outcome<string>)
      requires Valid()
      modifies this
      ensures Valid()
      ensures FitSignature(data).Ok? ==> r == Pass && rawTypes == Some(FitSignature(data).value)
      ensures FitSignature(data).Err? ==> r == Fail(FitSignature(data).error) && rawTypes == old(rawTypes)
    {
      var converted := FitSignature(data);
      if converted.Ok? {
        rawTypes := Some(converted.value);
        r := Pass;
      } else {
        r := Fail(converted.error);
      }
    }

    /** `transform`: the column checks, then the projection onto the fitted columns. */
    method Transform<V>(data: Frame<V>) returns (r: Result<Frame<V>, string>)
      ensures rawTypes.None? ==> r == Err(NotFittedMessage)
      ensures rawTypes.Some? ==> r == Check(rawTypes.value, data)
    {
      if rawTypes.None? {
        return Err(NotFittedMessage);
      }
      var sig := rawTypes.value;
      var colnames := Keys(sig);
      var missing := ScanMissing(colnames, Columns(data));
      if missing.Some? {
        return Err(MissingMessage(colnames[missing.value]));
      }
      var dtypeDict := FromPairs(Dtypes(data));
      forall j | 0 <= j < |sig| ensures sig[j].0 in Keys(dtypeDict) {
        assert colnames[j] == sig[j].0;
      }
      var selected := Select(data, colnames);
      var mismatch := ScanMismatch(sig, dtypeDict);
      if mismatch.Some? {
        var i := mismatch.value;
        return Err(MismatchMessage(sig[i].0, sig[i].1.0, Get(dtypeDict, sig[i].0).value));
      }
      return Ok(selected);
    }
  }

  /** The loop asserting that every fitted column is present: it stops at the first absent one. */
  method ScanMissing(names: seq<string>, cols: seq<string>) returns (r: Option<nat>)
    ensures r == FirstAbsent(names, cols)
  {
    var i := 0;
    while i < |names|
      invariant 0 <= i <= |names|
      invariant forall j :: 0 <= j < i ==> names[j] in cols
    {
      if names[i] !in cols {
        FirstAbsentAt(names, cols, i);
        return Some(i);
      }
      i := i + 1;
    }
    return None;
  }

  /** The loop comparing each fitted dtype string with the frame's: it stops at the first
      mismatch. */
  method ScanMismatch(sig: Signature, dtypes: seq<(string, string)>) returns (r: Option<nat>)
    requires forall j :: 0 <= j < |sig| ==> sig[j].0 in Keys(dtypes)
    ensures r == FirstMismatch(sig, dtypes)
  {
    var i := 0;
    while i < |sig|
      invariant 0 <= i <= |sig|
      invariant forall j :: 0 <= j < i ==> Get(dtypes, sig[j].0) == Some(sig[j].1.0)
    {
      var actual := Get(dtypes, sig[i].0).value;
      if actual != sig[i].1.0 {
        FirstMismatchAt(sig, dtypes, i);
        return Some(i);
      }
      i := i + 1;
    }
    return None;
  }

  /** Transforming the frame a checker was fitted on always succeeds. */
  lemma FitThenTransform<V>(f: Frame<V>)
    requires FitSignature(f).Ok?
    ensures Check(FitSignature(f).value, f).Ok?
  {
    var d := FromPairs(Dtypes(f));
    var sig := FitSignature(f).value;
    forall i | 0 <= i < |sig|
      ensures sig[i].0 in Columns(f) && Get(d, sig[i].0) == Some(sig[i].1.0)
    {
      assert sig[i].0 == d[i].0 && sig[i].1.0 == d[i].1;
      assert Keys(d)[i] == d[i].0;
      GetAt(d, i);
    }
  }

  /** On a frame whose column names are distinct, the lookup of a name finds its only column. */
  lemma {:induction false} FindAt<V>(f: Frame<V>, i: nat)
    requires Distinct(Columns(f)) && i < |f|
    ensures f[i].name in Columns(f) && Find(f, f[i].name) == f[i]
  {
    assert Columns(f)[i] == f[i].name;
    if i > 0 {
      assert Columns(f)[0] != Columns(f)[i];
      assert Columns(f[1..]) == Columns(f)[1..];
      FindAt(f[1..], i - 1);
    }
  }

  /** On a frame with distinct column names, `dict(data.dtypes)` gives each column its own dtype. */
  lemma DtypeOfColumn<V>(f: Frame<V>, i: nat)
    requires Distinct(Columns(f)) && i < |f|
    ensures Get(FromPairs(Dtypes(f)), f[i].name) == Some(f[i].dtype)
  {
    assert FromPairs(Dtypes(f)) == Dtypes(f);
    GetAt(Dtypes(f), i);
  }

  /** Selecting all of a frame's columns, in order, returns the frame when the names are distinct. */
  lemma SelectAll<V>(f: Frame<V>)
    requires Distinct(Columns(f))
    ensures Select(f, Columns(f)) == f
  {
    forall i | 0 <= i < |f| ensures Select(f, Columns(f))[i] == f[i] {
      FindAt(f, i);
    }
  }

  /** `transform` is idempotent on frames with distinct column names: its output passes the same
      checks and is returned unchanged. */
  lemma TransformIdempotent<V>(sig: Signature, f: Frame<V>)
    requires Distinct(Keys(sig)) && Distinct(Columns(f))
    requires Check(sig, f).Ok?
    ensures Check(sig, Check(sig, f).value) == Check(sig, f)
  {
    var t := Check(sig, f).value;
    assert Columns(t) == Keys(sig);
    forall i | 0 <= i < |sig|
      ensures sig[i].0 in Columns(t) && Get(FromPairs(Dtypes(t)), sig[i].0) == Some(sig[i].1.0)
    {
      assert t[i] == Find(f, sig[i].0);
      assert Columns(t)[i] == sig[i].0;
      DtypeOfColumn(t, i);
    }
    CheckPass(sig, t);
    SelectAll(t);
  }

  /** The comparison is on dtype strings: a column fitted as "double" rejects "float", though both
      map to the same Python type. */
  lemma DoubleRejectsFloat<V>(v: V)
    ensures var sig := FitSignature([Column("x", "double", v)]).value;
            && sig == [("x", ("double", FloatType))]
            && Check(sig, [Column("x", "float", v)]) == Err(MismatchMessage("x", "double", "float"))
  {
    var f := [Column("x", "double", v)];
    assert Distinct(Keys(Dtypes(f)));
    var sig := FitSignature(f).value;
    var g := [Column("x", "float", v)];
    assert Distinct(Keys(Dtypes(g)));
    assert FromPairs(Dtypes(g)) == [("x", "float")];
    assert Columns(g) == ["x"];
    assert Get(FromPairs(Dtypes(g)), "x") == Some("float");
    assert FirstMismatch(sig, FromPairs(Dtypes(g))) == Some(0);
  }
}
