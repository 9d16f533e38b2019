/** JSON-like values as Python holds them after `json.loads` or builds them as
    dict/list literals: insertion-ordered dicts, subscripting, `.get`,
    `{**a, **b}` merging, `str()` and `json.dumps(..., ensure_ascii=False)`. */
module JsonValue {
  import opened Outcomes
  import opened Text

  datatype Json =
    | JNull
    | JBool(b: bool)
    | JInt(i: int)
    | JFloat(text: string)  // a float, carried as the text Python prints for it
    | JStr(s: string)
    | JArr(items: seq<Json>)
    | JObj(fields: Dict)

  /** A Python dict: its items in insertion order. */
  type Dict = seq<(string, Json)>

  function Keys(d: Dict): (ks: seq<string>)
    ensures |ks| == |d|
    ensures forall i :: 0 <= i < |d| ==> ks[i] == d[i].0
  {
    seq(|d|, i requires 0 <= i < |d| => d[i].0)
  }

  /** No key appears twice, as in every Python dict. */
  predicate UniqueKeys(d: Dict)
  {
    forall i, j :: 0 <= i < j < |d| ==> d[i].0 != d[j].0
  }

  lemma KeysCons(x: (string, Json), d: Dict)
    ensures Keys([x] + d) == [x.0] + Keys(d)
  {
  }

  /** `d.get(k)`, with `None` for a missing key. */
  function Lookup(d: Dict, k: string): (r: Option<Json>)
    ensures r.Some? <==> k in Keys(d)
  {
    if d == [] then None
    else if d[0].0 == k then Some(d[0].1)
    else
      assert Keys(d) == [d[0].0] + Keys(d[1..]);
      Lookup(d[1..], k)
  }

  /** In a dict with unique keys, the key at position `i` looks up the value there. */
  lemma {:induction false} LookupAt(d: Dict, i: nat)
    requires UniqueKeys(d) && i < |d|
    ensures Lookup(d, d[i].0) == Some(d[i].1)
  {
    if i > 0 {
      assert d[0].0 != d[i].0;
      assert d[1..][i - 1] == d[i];
      LookupAt(d[1..], i - 1);
    }
  }

  /** `d[k] = v`: an existing key keeps its place and takes the new value; a
      new key is added at the end. */
  function Put(d: Dict, k: string, v: Json): (r: Dict)
  {
    if d == [] then [(k, v)]
    else if d[0].0 == k then [(k, v)] + d[1..]
    else [d[0]] + Put(d[1..], k, v)
  }

  /** After `d[k] = v`, `k` maps to `v` and every other key to what it mapped to before. */
  lemma {:induction false} PutLookup(d: Dict, k: string, v: Json, k': string)
    ensures Lookup(Put(d, k, v), k') == if k' == k then Some(v) else Lookup(d, k')
  {
    if d != [] && d[0].0 != k {
      PutLookup(d[1..], k, v, k');
      assert Put(d, k, v)[1..] == Put(d[1..], k, v);
    }
  }

  /** `d[k] = v` keeps the key order, appending `k` only when it is new. */
  lemma {:induction false} PutKeys(d: Dict, k: string, v: Json)
    ensures k in Keys(d) ==> Keys(Put(d, k, v)) == Keys(d)
    ensures k !in Keys(d) ==> Keys(Put(d, k, v)) == Keys(d) + [k]
  {
    if d == [] {
    } else if d[0].0 == k {
      KeysCons(d[0], d[1..]);
      KeysCons((k, v), d[1..]);
      assert [d[0]] + d[1..] == d;
    } else {
      PutKeys(d[1..], k, v);
      KeysCons(d[0], d[1..]);
      KeysCons(d[0], Put(d[1..], k, v));
      assert [d[0]] + d[1..] == d;
    }
  }

  /** `d[k] = v` for a new key appends the item. */
  lemma {:induction false} PutNew(d: Dict, k: string, v: Json)
    requires k !in Keys(d)
    ensures Put(d, k, v) == d + [(k, v)]
  {
    if d != [] {
      KeysCons(d[0], d[1..]);
      assert [d[0]] + d[1..] == d;
      PutNew(d[1..], k, v);
    }
  }

  /** Keys stay unique under `d[k] = v`. */
  lemma PutUnique(d: Dict, k: string, v: Json)
    requires UniqueKeys(d)
    ensures UniqueKeys(Put(d, k, v))
  {
    PutKeys(d, k, v);
    var r := Put(d, k, v);
    forall i, j | 0 <= i < j < |r| ensures r[i].0 != r[j].0 {
      assert Keys(r)[i] == r[i].0 && Keys(r)[j] == r[j].0;
      if k in Keys(d) {
        assert Keys(d)[i] == d[i].0 && Keys(d)[j] == d[j].0;
      } else if j < |d| {
        assert Keys(d)[i] == d[i].0 && Keys(d)[j] == d[j].0;
      } else {
        assert Keys(d)[i] == d[i].0;
      }
    }
  }

  /** `{**a, **b}`: the items of `a`, then each item of `b` assigned in order. */
  function Merge(a: Dict, b: Dict): Dict
    decreases |b|
  {
    if b == [] then a else Merge(Put(a, b[0].0, b[0].1), b[1..])
  }

  /** In `{**a, **b}` a key of `b` takes `b`'s value; any other key keeps `a`'s. */
  lemma {:induction false} MergeLookup(a: Dict, b: Dict, k: string)
    requires UniqueKeys(b)
    ensures Lookup(Merge(a, b), k) == if Lookup(b, k).Some? then Lookup(b, k) else Lookup(a, k)
    decreases |b|
  {
    if b != [] {
      var rest := b[1..];
      assert UniqueKeys(rest);
      MergeLookup(Put(a, b[0].0, b[0].1), rest, k);
      PutLookup(a, b[0].0, b[0].1, k);
      if k == b[0].0 {
        assert Keys(rest) == Keys(b)[1..];
        assert k !in Keys(rest) by {
          forall i | 0 <= i < |rest| ensures Keys(rest)[i] != k {
            assert rest[i] == b[i + 1];
          }
        }
      }
    }
  }

  /** A subscript key: `x["name"]` or `x[0]`. */
  datatype Key = KStr(name: string) | KInt(index: int)

  /** `v[k]` with Python's semantics for dicts, lists and strings
      (negative list and string indices count from the end). */
  function Index(v: Json, k: Key): (r: Result<Json>)
    ensures v.JObj? && k.KStr? ==> (r.Ok? <==> Lookup(v.fields, k.name).Some?)
    ensures v.JArr? && k.KInt? ==> (r.Ok? <==> -|v.items| <= k.index < |v.items|)
  {
    match v
    case JObj(fields) =>
      (match k
       case KStr(name) =>
         (match Lookup(fields, name)
          case Some(x) => Ok(x)
          case None => Err(KeyError(name)))
       case KInt(i) => Err(KeyError(IntToString(i))))
    case JArr(items) =>
      (match k
       case KInt(i) =>
         if -|items| <= i < |items| then Ok(items[if i < 0 then i + |items| else i])
         else Err(IndexError("list index out of range"))
       case KStr(_) => Err(TypeError("list indices must be integers or slices, not str")))
    case JStr(s) =>
      (match k
       case KInt(i) =>
         if -|s| <= i < |s| then Ok(JStr([s[if i < 0 then i + |s| else i]]))
         else Err(IndexError("string index out of range"))
       case KStr(_) => Err(TypeError("string indices must be integers, not 'str'")))
    case _ => Err(TypeError("object is not subscriptable"))
  }

  /** `v[k0][k1]...`: the subscripts applied left to right, stopping at the first error. */
  function IndexPath(v: Json, path: seq<Key>): Result<Json>
    decreases |path|
  {
    if path == [] then Ok(v)
    else
      var x :- Index(v, path[0]);
      IndexPath(x, path[1..])
  }

  /** `v.get(k, default)`; only dicts have `.get`. */
  function GetOr(v: Json, k: string, default: Json): (r: Result<Json>)
    ensures r.Err? <==> !v.JObj?
    ensures v.JObj? && Lookup(v.fields, k).Some? ==> r == Ok(Lookup(v.fields, k).value)
    ensures v.JObj? && Lookup(v.fields, k).None? ==> r == Ok(default)
  {
    match v
    case JObj(fields) =>
      (match Lookup(fields, k)
       case Some(x) => Ok(x)
       case None => Ok(default))
    case _ => Err(AttributeError("object has no attribute 'get'"))
  }

  /** `str(v)`. */
  function Show(v: Json): string
    decreases v, 0
  {
    match v
    case JNull => "None"
    case JBool(b) => if b then "True" else "False"
    case JInt(i) => IntToString(i)
    case JFloat(t) => t
    case JStr(s) => s
    case JArr(items) => "[" + Join(", ", ReprItems(items)) + "]"
    case JObj(fields) => "{" + Join(", ", ReprFields(fields)) + "}"
  }

  /** `repr(v)`: as `str(v)` except that strings are quoted. */
  function Repr(v: Json): string
    decreases v, 1
  {
    match v
    case JStr(s) => "'" + s + "'"
    case _ => Show(v)
  }

  function ReprItems(items: seq<Json>): seq<string>
    decreases items, 0
  {
    if items == [] then [] else [Repr(items[0])] + ReprItems(items[1..])
  }

  function ReprFields(fields: Dict): seq<string>
    decreases fields, 0
  {
    if fields == [] then []
    else
      var f := fields[0];
      assert f.1 < f;
      ["'" + f.0 + "': " + Repr(f.1)] + ReprFields(fields[1..])
  }

  function HexDigit(d: nat): char
    requires d < 16
  {
    "0123456789abcdef"[d]
  }

  /** The JSON escape of one character with `ensure_ascii=False`: quotes,
      backslashes and control characters are escaped, all else is kept. */
  function EscapeChar(c: char): string
  {
    if c == '"' then "\\\""
    else if c == '\\' then "\\\\"
    else if c == '\n' then "\\n"
    else if c == '\r' then "\\r"
    else if c == '\t' then "\\t"
    else if c as int == 8 then "\\b"
    else if c as int == 12 then "\\f"
    else if c as int < 32 then "\\u00" + [HexDigit(c as int / 16), HexDigit(c as int % 16)]
    else [c]
  }

  function EscapeString(s: string): string
  {
    if s == [] then "" else EscapeChar(s[0]) + EscapeString(s[1..])
  }

  /** A character that `json.dumps(..., ensure_ascii=False)` keeps as it is. */
  predicate Verbatim(c: char)
  {
    c != '"' && c != '\\' && c as int >= 32
  }

  /** With `ensure_ascii=False`, a string without quotes, backslashes or
      control characters is encoded as itself between quotes: non-ASCII text
      is not escaped. */
  lemma {:induction false} EscapeVerbatim(s: string)
    requires forall i :: 0 <= i < |s| ==> Verbatim(s[i])
    ensures EscapeString(s) == s
  {
    if s != [] {
      EscapeVerbatim(s[1..]);
      assert [s[0]] + s[1..] == s;
    }
  }

  /** `json.dumps(v, ensure_ascii=False)` with the default separators. */
  function Dumps(v: Json): string
  {
    match v
    case JNull => "null"
    case JBool(b) => if b then "true" else "false"
    case JInt(i) => IntToString(i)
    case JFloat(t) => t
    case JStr(s) => "\"" + EscapeString(s) + "\""
    case JArr(items) => "[" + Join(", ", DumpsItems(items)) + "]"
    case JObj(fields) => "{" + Join(", ", DumpsFields(fields)) + "}"
  }

  function DumpsItems(items: seq<Json>): seq<string>
  {
    if items == [] then [] else [Dumps(items[0])] + DumpsItems(items[1..])
  }

  function DumpsFields(fields: Dict): seq<string>
  {
    if fields == [] then []
    else
      var f := fields[0];
      assert f.1 < f;
      ["\"" + EscapeString(f.0) + "\": " + Dumps(f.1)] + DumpsFields(fields[1..])
  }
}
