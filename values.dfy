/** The data the parameter engine reads: field values of a parameter-range
    record (a row of a pandas Series), records as ordered named fields, and the
    Python exceptions the engine can raise. */
module Values {
  import opened Wrappers
  import opened Text

  /** A cell of a record: a Python int, a float (modelled exactly as a real),
      a string, or None. */
  datatype Value = Int(i: int) | Float(r: real) | Str(s: string) | Null

  /** One labelled cell of a record. */
  datatype Field = Field(name: string, value: Value)

  /** A record in column order; position matters for `iloc`, the name for `rec[name]`. */
  type Record = seq<Field>

  /** The exceptions the engine raises or lets through. */
  datatype Error =
    | KeyError(key: string)
    | TypeError
    | ValueError(message: string)
    | AttributeError(name: string)
    | IndexError

  /** `rec[name]`: the value of the first field so named, or `KeyError`. */
  function Get(rec: Record, name: string): (r: Result<Value, Error>)
    ensures r.Ok? <==> exists i :: 0 <= i < |rec| && rec[i].name == name
    ensures r.Ok? ==> exists i :: 0 <= i < |rec| && rec[i] == Field(name, r.value)
    ensures r.Err? ==> r.error == KeyError(name)
  {
    if rec == [] then Err(KeyError(name))
    else if rec[0].name == name then Ok(rec[0].value)
    else Get(rec[1..], name)
  }

  /** `rec[name]` is the value of the first field with that name. */
  lemma {:induction false} GetFirst(rec: Record, name: string, i: nat)
    requires i < |rec| && rec[i].name == name
    requires forall j | 0 <= j < i :: rec[j].name != name
    ensures Get(rec, name) == Ok(rec[i].value)
    decreases i
  {
    if i > 0 {
      assert rec[1..][i - 1] == rec[i];
      assert forall j | 0 <= j < i - 1 :: rec[1..][j] == rec[j + 1];
      GetFirst(rec[1..], name, i - 1);
    }
  }

  /** `rec.iloc[1:5]`: the fields at positions 1 to 4 (fewer when the record is shorter). */
  function Metadata(rec: Record): (m: Record)
    ensures |m| == if |rec| <= 1 then 0 else if |rec| < 5 then |rec| - 1 else 4
    ensures forall k :: 0 <= k < |m| ==> m[k] == rec[k + 1]
  {
    if |rec| <= 1 then [] else rec[1..if |rec| < 5 then |rec| else 5]
  }

  /** Python's `int(x)` on a float: truncation toward zero. */
  function Truncate(x: real): (n: int)
    ensures 0.0 <= x ==> 0 <= n && n as real <= x < n as real + 1.0
    ensures x < 0.0 ==> n <= 0 && n as real - 1.0 < x <= n as real
  {
    if x >= 0.0 then x.Floor else -((-x).Floor)
  }

  /** Python's `int(v)`. */
  function PyInt(v: Value): Result<int, Error> {
    match v
    case Int(i) => Ok(i)
    case Float(x) => Ok(Truncate(x))
    case Str(t) =>
      (match ParseInt(t)
       case Some(n) => Ok(n)
       case None => Err(ValueError("invalid literal for int() with base 10: '" + t + "'")))
    case Null => Err(TypeError)
  }

  /** `int(str(n))` gives `n` back, also when the count arrives as text. */
  lemma PyIntOfText(n: int)
    ensures PyInt(Str(IntToString(n))) == Ok(n)
  {
    IntToStringRoundTrip(n);
  }

  /** `v[0:3]` succeeds only on a string (the model has no lists or tuples). */
  function TextPrefix(v: Value, n: nat): (r: Result<string, Error>)
    ensures r.Ok? <==> v.Str?
    ensures r.Ok? ==> r.value == v.s[..if |v.s| < n then |v.s| else n]
  {
    if v.Str? then Ok(v.s[..if |v.s| < n then |v.s| else n]) else Err(TypeError)
  }
}
