/**
 * The attribute view of internal/client/client.go: a Kanidm entry is a schemaless map from
 * attribute name to a dynamically typed value, and `GetString` / `GetStringSlice` normalise it
 * to the shape a caller wants. Also the JSON values that request bodies are made of, and the
 * `{"attrs": ...}` wrapper of create and update requests.
 */
module Attrs {
  import opened Wrappers

  /** A JSON value as encoding/json marshals it or decodes it into an `any`. */
  datatype Json =
    | JNull
    | JBool(b: bool)
    | JNum(n: int)
    | JStr(s: string)
    | JArr(items: seq<Json>)
    | JObj(fields: map<string, Json>)

  /** The dynamic type of one attribute value, as the accessors' type switches see it. */
  datatype AttrVal =
    | Str(s: string)               // string
    | List(items: seq<AttrVal>)    // []any
    | StrList(strs: seq<string>)   // []string
    | Other                        // any other dynamic type: number, bool, object, null

  /** `Entry.Attrs`; a nil map reads like an empty one. */
  type Entry = map<string, AttrVal>

  /** The dynamic value encoding/json leaves in an `any` for a decoded JSON value. */
  function FromJson(j: Json): AttrVal
    decreases j
  {
    match j
    case JStr(s) => Str(s)
    case JArr(items) => List(seq(|items|, i requires 0 <= i < |items| => FromJson(items[i])))
    case _ => Other
  }

  /**
   * `GetString`: the scalar itself, or the first element of a list when that element is a
   * string; the empty string for an absent key and for every other shape.
   */
  function GetString(e: Entry, key: string): (r: string)
    ensures key !in e ==> r == ""
    ensures r != "" ==> key in e
    ensures key in e && e[key].Str? ==> r == e[key].s
    ensures key in e && e[key].List? && |e[key].items| > 0 && e[key].items[0].Str? ==>
              r == e[key].items[0].s
    ensures key in e && (e[key].StrList? || e[key].Other?) ==> r == ""
    ensures key in e && e[key].List? && (e[key].items == [] || !e[key].items[0].Str?) ==> r == ""
  {
    if key !in e then ""
    else match e[key]
      case Str(s) => s
      case List(items) => if |items| > 0 && items[0].Str? then items[0].s else ""
      case _ => ""
  }

  /** The string elements of a generic list, in their original order; the others are dropped. */
  function StringElems(items: seq<AttrVal>): (r: seq<string>)
    ensures |r| <= |items|
    ensures forall s :: s in r <==> Str(s) in items
  {
    if items == [] then []
    else (if items[0].Str? then [items[0].s] else []) + StringElems(items[1..])
  }

  /** Filtering distributes over concatenation: the kept strings keep their relative order. */
  lemma {:induction false} StringElemsAppend(a: seq<AttrVal>, b: seq<AttrVal>)
    ensures StringElems(a + b) == StringElems(a) + StringElems(b)
  {
    if a == [] {
      assert a + b == b;
    } else {
      assert (a + b)[0] == a[0];
      assert (a + b)[1..] == a[1..] + b;
      StringElemsAppend(a[1..], b);
    }
  }

  /** A list made only of strings loses nothing. */
  lemma {:induction false} StringElemsAllStrings(items: seq<AttrVal>)
    requires forall i :: 0 <= i < |items| ==> items[i].Str?
    ensures |StringElems(items)| == |items|
    ensures forall i :: 0 <= i < |items| ==> StringElems(items)[i] == items[i].s
  {
    if items != [] {
      StringElemsAllStrings(items[1..]);
    }
  }

  /**
   * `GetStringSlice` as a value: None stands for the nil slice. An absent key or an
   * unrecognised type gives nil, a scalar a one-element slice, a `[]string` itself and a
   * generic list its string elements.
   */
  function StringSlice(e: Entry, key: string): (r: Option<seq<string>>)
    ensures r.None? <==> key !in e || e[key].Other?
    ensures key in e && e[key].Str? ==> r == Some([e[key].s])
    ensures key in e && e[key].StrList? ==> r == Some(e[key].strs)
    ensures key in e && e[key].List? ==>
              r.Some? && |r.value| <= |e[key].items| &&
              forall s :: s in r.value <==> Str(s) in e[key].items
  {
    if key !in e then None
    else match e[key]
      case List(items) => Some(StringElems(items))
      case StrList(strs) => Some(strs)
      case Str(s) => Some([s])
      case Other => None
  }

  /** `Entry.GetStringSlice`: the append loop over a generic list. */
  method GetStringSlice(e: Entry, key: string) returns (r: Option<seq<string>>)
    ensures r == StringSlice(e, key)
  {
    if key !in e {
      return None;
    }
    match e[key]
    case List(v) =>
      var result: seq<string> := [];
      for i := 0 to |v|
        invariant result == StringElems(v[..i])
      {
        assert v[..i + 1] == v[..i] + [v[i]];
        StringElemsAppend(v[..i], [v[i]]);
        if v[i].Str? {
          result := result + [v[i].s];
        }
      }
      assert v[..|v|] == v;
      return Some(result);
    case StrList(v) =>
      return Some(v);
    case Str(s) =>
      return Some([s]);
    case Other =>
      return None;
  }

  /**
   * Where `GetString` finds a string, it is the first element of what `GetStringSlice`
   * returns for the same key.
   */
  lemma GetStringIsSliceHead(e: Entry, key: string)
    requires key in e
    requires e[key].Str? || (e[key].List? && |e[key].items| > 0 && e[key].items[0].Str?)
    ensures StringSlice(e, key).Some? && |StringSlice(e, key).value| > 0
    ensures GetString(e, key) == StringSlice(e, key).value[0]
  {
  }

  /** `[]string{...}` as encoding/json marshals it. */
  function StrArr(ss: seq<string>): Json
  {
    JArr(seq(|ss|, i requires 0 <= i < |ss| => JStr(ss[i])))
  }

  /** Distinct string lists encode differently. */
  lemma StrArrInjective(a: seq<string>, b: seq<string>)
    requires StrArr(a) == StrArr(b)
    ensures a == b
  {
    assert |a| == |StrArr(a).items| == |b|;
    forall i | 0 <= i < |a|
      ensures a[i] == b[i]
    {
      assert StrArr(a).items[i] == JStr(a[i]);
      assert StrArr(b).items[i] == JStr(b[i]);
    }
  }

  /** `NewCreateRequest` and `NewUpdateRequest`: both wrap the attribute map under "attrs". */
  function AttrsRequest(attrs: map<string, Json>): Json
  {
    JObj(map["attrs" := JObj(attrs)])
  }

  /** An attribute map seen through the accessors, as if it were decoded back from JSON. */
  function ToEntry(attrs: map<string, Json>): (e: Entry)
    ensures e.Keys == attrs.Keys
  {
    map k | k in attrs :: FromJson(attrs[k])
  }

  /**
   * The list-valued encoding the client writes is the one its accessors read: a list of
   * strings comes back whole from `GetStringSlice`, and a single-element list comes back
   * from `GetString` as its element.
   */
  lemma StrArrReadsBack(attrs: map<string, Json>, key: string, ss: seq<string>)
    requires key in attrs && attrs[key] == StrArr(ss)
    ensures StringSlice(ToEntry(attrs), key) == Some(ss)
    ensures |ss| == 1 ==> GetString(ToEntry(attrs), key) == ss[0]
  {
    var j := StrArr(ss);
    assert ToEntry(attrs)[key] == FromJson(j);
    var items := seq(|j.items|, i requires 0 <= i < |j.items| => FromJson(j.items[i]));
    assert FromJson(j) == List(items);
    forall i | 0 <= i < |ss| ensures items[i] == Str(ss[i]) {
      assert j.items[i] == JStr(ss[i]);
    }
    StringElemsAllStrings(items);
    assert StringElems(items) == ss;
  }
}
