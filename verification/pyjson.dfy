/** Decoded JSON values with the Python semantics the scripts rely on:
    truthiness (`if not x`), `dict.get`, and what `list.extend(x)` appends. */
module PyJson {
  import opened Wrappers

  /** A value produced by `response.json()`.  An object keeps its members in
      text order, duplicates included; `Get` and `Keys` give the Python dict
      that `json.loads` builds from them. */
  datatype Json =
    | Null
    | Bool(b: bool)
    | Int(i: int)
    | Float(f: real)
    | Str(s: string)
    | List(items: seq<Json>)
    | Obj(fields: seq<Field>)

  datatype Field = Field(key: string, value: Json)

  /** Python truthiness: None, False, 0, 0.0, "", [] and {} are falsy. */
  predicate Truthy(v: Json) {
    match v
    case Null => false
    case Bool(b) => b
    case Int(i) => i != 0
    case Float(f) => f != 0.0
    case Str(s) => |s| > 0
    case List(xs) => |xs| > 0
    case Obj(fs) => |fs| > 0
  }

  /** True when some member of the object text is named `k`. */
  ghost predicate HasKey(fields: seq<Field>, k: string) {
    exists i :: 0 <= i < |fields| && fields[i].key == k
  }

  /** `d.get(k)` on the dict decoded from `fields`: the LAST member named `k`
      wins, as `json.loads` overwrites earlier duplicates. */
  function Get(fields: seq<Field>, k: string): (r: Option<Json>)
    ensures r.Some? <==> HasKey(fields, k)
  {
    if |fields| == 0 then None
    else if fields[|fields| - 1].key == k then Some(fields[|fields| - 1].value)
    else
      var init := fields[..|fields| - 1];
      assert forall i :: 0 <= i < |init| ==> init[i] == fields[i];
      Get(init, k)
  }

  /** The value `Get` finds is that of the last member named `k`. */
  lemma {:induction false} GetFindsLast(fields: seq<Field>, k: string)
    requires HasKey(fields, k)
    ensures exists i :: 0 <= i < |fields| && fields[i] == Field(k, Get(fields, k).value)
                        && forall j :: i < j < |fields| ==> fields[j].key != k
  {
    var n := |fields|;
    var init := fields[..n - 1];
    if fields[n - 1].key != k {
      assert forall i :: 0 <= i < |init| ==> init[i] == fields[i];
      assert Get(fields, k) == Get(init, k);
      GetFindsLast(init, k);
      var i :| 0 <= i < |init| && init[i] == Field(k, Get(init, k).value)
               && forall j :: i < j < |init| ==> init[j].key != k;
      assert fields[i] == Field(k, Get(fields, k).value);
      assert forall j :: i < j < n ==> fields[j].key != k;
    } else {
      assert fields[n - 1] == Field(k, Get(fields, k).value);
    }
  }

  /** `d.get(k)` with Python's implicit default: a missing key reads as null. */
  function GetOrNull(fields: seq<Field>, k: string): Json {
    Get(fields, k).GetOr(Null)
  }

  /** The keys of the decoded dict in iteration order (first occurrence). */
  function Keys(fields: seq<Field>): (ks: seq<string>)
    ensures forall k :: k in ks <==> HasKey(fields, k)
    ensures forall i, j :: 0 <= i < j < |ks| ==> ks[i] != ks[j]
    ensures |ks| <= |fields|
    ensures |ks| == 0 <==> |fields| == 0
  {
    if |fields| == 0 then []
    else
      var init := fields[..|fields| - 1];
      var ks := Keys(init);
      assert forall i :: 0 <= i < |init| ==> init[i] == fields[i];
      assert forall k :: HasKey(fields, k) <==> HasKey(init, k) || k == fields[|fields| - 1].key;
      if fields[|fields| - 1].key in ks then ks else ks + [fields[|fields| - 1].key]
  }

  /** What `for x in v` yields, hence what `list.extend(v)` appends: a list's
      items, a dict's keys (as strings), a string's characters; `None` stands
      for the TypeError raised on anything else. */
  function Iterate(v: Json): (r: Option<seq<Json>>)
    ensures r.Some? <==> v.List? || v.Obj? || v.Str?
    ensures r.Some? ==> (|r.value| > 0 <==> Truthy(v))
    ensures v.List? ==> r == Some(v.items)
    ensures v.Obj? ==> r.Some? && forall x :: x in r.value ==> x.Str? && HasKey(v.fields, x.s)
    ensures v.Obj? ==> forall k :: HasKey(v.fields, k) ==> Str(k) in r.value
    ensures v.Obj? ==> forall i, j :: 0 <= i < j < |r.value| ==> r.value[i] != r.value[j]
    ensures v.Str? ==> |r.value| == |v.s| && forall i :: 0 <= i < |v.s| ==> r.value[i] == Str([v.s[i]])
  {
    match v
    case List(xs) => Some(xs)
    case Obj(fs) => Some(KeyStrings(Keys(fs)))
    case Str(s) => Some(seq(|s|, i requires 0 <= i < |s| => Str([s[i]])))
    case _ => None
  }

  /** Each key as a JSON string. */
  function KeyStrings(ks: seq<string>): (r: seq<Json>)
    ensures |r| == |ks|
    ensures forall i :: 0 <= i < |ks| ==> r[i] == Str(ks[i])
  {
    seq(|ks|, i requires 0 <= i < |ks| => Str(ks[i]))
  }
}
