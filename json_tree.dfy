/** The JSON token tree the JSON codec reads and builds: null, booleans,
    integers, floating-point numbers (kept as their text), strings, arrays and
    objects whose properties keep their insertion order. */
module JsonTree {
  import opened Wrappers

  datatype Json =
    | JNull
    | JBool(b: bool)
    | JInt(i: int)
    | JFloat(token: string)
    | JString(s: string)
    | JArray(items: seq<Json>)
    | JObject(props: seq<Prop>)

  datatype Prop = Prop(key: string, val: Json)

  /** Number of nodes of a token: the measure the importer's recursion descends on. */
  function Size(j: Json): nat
  {
    match j
    case JArray(items) => 1 + ItemsSize(items)
    case JObject(props) => 1 + PropsSize(props)
    case _ => 1
  }

  function ItemsSize(items: seq<Json>): nat
  {
    if |items| == 0 then 0 else Size(items[0]) + ItemsSize(items[1..])
  }

  function PropsSize(props: seq<Prop>): nat
  {
    if |props| == 0 then 0 else Size(props[0].val) + PropsSize(props[1..])
  }

  lemma {:induction false} ItemSmaller(items: seq<Json>, i: nat)
    requires i < |items|
    ensures Size(items[i]) <= ItemsSize(items)
  {
    if i > 0 {
      ItemSmaller(items[1..], i - 1);
    }
  }

  lemma {:induction false} PropSmaller(props: seq<Prop>, i: nat)
    requires i < |props|
    ensures Size(props[i].val) <= PropsSize(props)
  {
    if i > 0 {
      PropSmaller(props[1..], i - 1);
    }
  }

  /** Position of the first property named `key`. */
  function FindKey(props: seq<Prop>, key: string): (r: Option<nat>)
    ensures r.Some? ==> r.value < |props| && props[r.value].key == key
    ensures r.Some? ==> forall i :: 0 <= i < r.value ==> props[i].key != key
    ensures r.None? <==> forall i :: 0 <= i < |props| ==> props[i].key != key
  {
    if |props| == 0 then None
    else if props[0].key == key then Some(0)
    else match FindKey(props[1..], key)
      case None => None
      case Some(k) => Some(k + 1)
  }

  /** What the string indexer `token[key]` gives: an exception on anything but
      an object, a null reference for an absent key, the property value otherwise. */
  datatype Lookup = NotObject | Absent | Found(val: Json)

  function Index(j: Json, key: string): (r: Lookup)
    ensures r.NotObject? <==> !j.JObject?
    ensures r.Absent? <==> j.JObject? && FindKey(j.props, key).None?
    ensures r.Found? ==> j.JObject? && exists i :: 0 <= i < |j.props| && j.props[i] == Prop(key, r.val)
    ensures r.Found? ==> Size(r.val) < Size(j)
  {
    match j
    case JObject(props) =>
      (match FindKey(props, key)
       case None => Absent
       case Some(i) => PropSmaller(props, i); Found(props[i].val))
    case _ => NotObject
  }

  /** The keys of an object's properties, in order. */
  function Keys(props: seq<Prop>): (r: seq<string>)
    ensures |r| == |props| && forall i :: 0 <= i < |props| ==> r[i] == props[i].key
  {
    if |props| == 0 then [] else [props[0].key] + Keys(props[1..])
  }
}
