/** Dynamically typed values (`any` in Go) as they appear in metadata maps and in the
    payload of structured wire parts, together with the two JSON round trips the core
    relies on: `json.Marshal` (used for the text fallback of opaque data) and
    `toMapStructure` (marshal, then unmarshal into `map[string]any`). */
module Values {
  import opened Wrappers
  import Text

  /** A JSON-like value. Objects keep their fields in a list so that their canonical
      text is a function of the value. `Unsupported` stands for a Go value that
      `json.Marshal` rejects (a NaN or infinite float, a channel, a function). */
  datatype Value =
    | Null
    | Bool(b: bool)
    | Num(n: int)
    | Str(s: string)
    | List(items: seq<Value>)
    | Obj(fields: seq<Field>)
    | Unsupported

  datatype Field = Field(key: string, value: Value)

  type Fields = seq<Field>

  /** Metadata attached to wire parts, wire events and session events. */
  type Meta = map<string, Value>

  /** The value stored under `key`, if any (the first one: Go maps have unique keys). */
  function Lookup(fs: Fields, key: string): (r: Option<Value>)
    ensures r.Some? <==> exists i | 0 <= i < |fs| :: fs[i].key == key
    ensures r.Some? ==> Field(key, r.value) in fs
  {
    if fs == [] then None
    else if fs[0].key == key then Some(fs[0].value)
    else Lookup(fs[1..], key)
  }

  function Keys(fs: Fields): seq<string> {
    seq(|fs|, i requires 0 <= i < |fs| => fs[i].key)
  }

  /** True when `json.Marshal` accepts the value. */
  predicate Encodable(v: Value)
    decreases v
  {
    match v
    case Unsupported => false
    case List(items) => EncodableItems(items)
    case Obj(fs) => EncodableFields(fs)
    case _ => true
  }

  predicate EncodableItems(vs: seq<Value>)
    decreases vs
  {
    vs == [] || (Encodable(vs[0]) && EncodableItems(vs[1..]))
  }

  predicate EncodableFields(fs: Fields)
    decreases fs
  {
    fs == [] || (Encodable(fs[0].value) && EncodableFields(fs[1..]))
  }

  /** Canonical JSON text of a value. Go's encoder sorts object keys and escapes
      strings; here keys keep their order and strings are written between quotes. */
  function Render(v: Value): string
    decreases v
  {
    match v
    case Null => "null"
    case Bool(b) => if b then "true" else "false"
    case Num(n) => Text.IntToString(n)
    case Str(s) => "\"" + s + "\""
    case List(items) => "[" + RenderItems(items) + "]"
    case Obj(fs) => "{" + RenderFields(fs) + "}"
    case Unsupported => "null"
  }

  function RenderItems(vs: seq<Value>): string
    decreases vs
  {
    if vs == [] then ""
    else Render(vs[0]) + (if |vs| == 1 then "" else ",") + RenderItems(vs[1..])
  }

  function RenderFields(fs: Fields): string
    decreases fs
  {
    if fs == [] then ""
    else "\"" + fs[0].key + "\":" + Render(fs[0].value)
         + (if |fs| == 1 then "" else ",") + RenderFields(fs[1..])
  }

  const UnsupportedValueError := "json: unsupported value"

  /** `json.Marshal` of a value: its canonical text, or an error for an unsupported value. */
  function Marshal(v: Value): (r: Result<string>)
    ensures r.Ok? <==> Encodable(v)
    ensures r.Ok? ==> r.value == Render(v)
  {
    if Encodable(v) then Ok(Render(v)) else Err(UnsupportedValueError)
  }

  /** `toMapStructure`: marshal the value to JSON and unmarshal the text into a
      `map[string]any`. It yields the object's fields; JSON `null` unmarshals into a nil
      map; any other kind of JSON does not fit a map. */
  function ToMapStructure(v: Value): (r: Result<Fields>)
    ensures r.Ok? <==> Encodable(v) && (v.Obj? || v.Null?)
    ensures r.Ok? && v.Obj? ==> r.value == v.fields
    ensures r.Ok? && v.Null? ==> r.value == []
  {
    if !Encodable(v) then Err(UnsupportedValueError)
    else match v
      case Obj(fs) => Ok(fs)
      case Null => Ok([])
      case _ => Err("json: cannot unmarshal into Go value of type map[string]interface {}")
  }

  /** `fmt.Sprintf("%v", v)` of a decoded JSON value: maps print as `map[k:v ...]`
      with the keys in ascending order, slices as `[a b]`, nil as `<nil>`. */
  function GoString(v: Value): string
    decreases v
  {
    match v
    case Null => "<nil>"
    case Bool(b) => if b then "true" else "false"
    case Num(n) => Text.IntToString(n)
    case Str(s) => s
    case List(items) => "[" + GoStringItems(items) + "]"
    case Obj(fs) => "map[" + GoStringPairs(Text.SortByKey(RenderedFields(fs))) + "]"
    case Unsupported => "NaN"
  }

  function GoStringItems(vs: seq<Value>): string
    decreases vs
  {
    if vs == [] then ""
    else GoString(vs[0]) + (if |vs| == 1 then "" else " ") + GoStringItems(vs[1..])
  }

  /** Each field's key with its value printed, in stored order. */
  function RenderedFields(fs: Fields): (r: seq<(string, string)>)
    ensures |r| == |fs|
    decreases fs
  {
    if fs == [] then []
    else [(fs[0].key, GoString(fs[0].value))] + RenderedFields(fs[1..])
  }

  /** The `k:v` entries of a printed map, separated by spaces. */
  function GoStringPairs(ps: seq<(string, string)>): string
  {
    if ps == [] then ""
    else ps[0].0 + ":" + ps[0].1 + (if |ps| == 1 then "" else " ") + GoStringPairs(ps[1..])
  }

  /** A printed map lists its keys in ascending order whatever order they were stored in:
      the arguments `{"b": 1, "a": 2}` print as `map[a:2 b:1]`. */
  lemma GoStringSortsKeys()
    ensures GoString(Obj([Field("b", Num(1)), Field("a", Num(2))])) == "map[a:2 b:1]"
  {
    var fs := [Field("b", Num(1)), Field("a", Num(2))];
    var pa, pb := ("a", "2"), ("b", "1");
    assert Text.IntToString(1) == "1" && Text.IntToString(2) == "2";
    assert fs[1..][1..] == [];
    assert RenderedFields(fs[1..]) == [pa];
    assert RenderedFields(fs) == [pb, pa];
    assert [pb, pa][1..] == [pa];
    assert Text.SortByKey([pa]) == [pa];
    assert Text.Less("a", "b");
    assert [pa][1..] == [];
    assert Text.InsertByKey(pb, [pa]) == [pa, pb];
    assert [pa, pb][1..] == [pb];
    assert [pb][1..] == [];
    assert GoStringPairs([pb]) == "b" + ":" + "1" + "" + "";
    assert GoStringPairs([pa, pb]) == "a" + ":" + "2" + " " + GoStringPairs([pb]);
    assert "a" + ":" + "2" + " " + ("b" + ":" + "1" + "" + "") == "a:2 b:1";
  }

  /** Marshalling an object whose values are all encodable succeeds. */
  lemma {:induction false} EncodableFieldsAt(fs: Fields)
    ensures EncodableFields(fs) <==> forall i | 0 <= i < |fs| :: Encodable(fs[i].value)
  {
    if fs != [] {
      EncodableFieldsAt(fs[1..]);
      assert forall i | 1 <= i < |fs| :: fs[i] == fs[1..][i - 1];
    }
  }

  /** An object built by concatenating two field lists is encodable exactly when both are. */
  lemma {:induction false} EncodableFieldsAppend(a: Fields, b: Fields)
    ensures EncodableFields(a + b) <==> EncodableFields(a) && EncodableFields(b)
    decreases |a|
  {
    if a == [] {
      assert a + b == b;
    } else {
      assert (a + b)[0] == a[0] && (a + b)[1..] == a[1..] + b;
      EncodableFieldsAppend(a[1..], b);
    }
  }
}
