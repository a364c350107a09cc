/** The dict literal built inside each `insert_tickets`: one raw API record
    flattened into one row, column by column, by a table of lookup rules. */
module FieldMapper {
  import opened Wrappers
  import opened PyJson

  /** A flat row: one value per declared column, in the table's order. */
  type Row = seq<Json>

  /** Where a column's value comes from.
      - `Top(k)`: `t.get(k)`.
      - `Nested(p, k)`: `(t.get(p) or {}).get(k)`.
      - `Head(l, k)`: `t[l][0].get(k)` when `t.get(l)` is a non-empty list,
        null otherwise. */
  datatype Source = Top(key: string) | Nested(parent: string, key: string) | Head(list: string, key: string)

  datatype Column = Column(name: string, source: Source)

  /** The top-level key a rule reads first. */
  function Anchor(src: Source): string {
    match src
    case Top(k) => k
    case Nested(p, _) => p
    case Head(l, _) => l
  }

  /** True when `v` is a list with at least one element. */
  predicate NonEmptyList(v: Json) {
    v.List? && |v.items| > 0
  }

  /** `(t.get(p) or {})` has a `.get`: the value is falsy or a dict. */
  predicate ParentOk(fs: seq<Field>, p: string) {
    !Truthy(GetOrNull(fs, p)) || GetOrNull(fs, p).Obj?
  }

  /** `t[l][0]` has a `.get` whenever it is read: `t.get(l)` is not a
      non-empty list, or its first element is a dict. */
  predicate HeadOk(fs: seq<Field>, l: string) {
    !NonEmptyList(GetOrNull(fs, l)) || GetOrNull(fs, l).items[0].Obj?
  }

  /** The shapes on which a rule does not raise. */
  predicate Tolerates(fs: seq<Field>, src: Source) {
    match src
    case Top(_) => true
    case Nested(p, _) => ParentOk(fs, p)
    case Head(l, _) => HeadOk(fs, l)
  }

  /** Member `k` of the first element of `xs` when `xs` is a non-empty list
      starting with a dict, null otherwise. */
  function HeadMember(xs: Json, k: string): Json {
    if NonEmptyList(xs) && xs.items[0].Obj? then GetOrNull(xs.items[0].fields, k) else Null
  }

  /** Member `k` of `o` when `o` is a dict, null otherwise: what
      `(o or {}).get(k)` gives whenever it does not raise. */
  function NestedMember(o: Json, k: string): Json {
    if o.Obj? then GetOrNull(o.fields, k) else Null
  }

  /** The members `keys` of parent `p`, each null unless `p` is a dict. */
  function NestedRow(fs: seq<Field>, p: string, keys: seq<string>): (r: Row)
    ensures |r| == |keys|
    ensures forall j :: 0 <= j < |keys| ==> r[j] == NestedMember(GetOrNull(fs, p), keys[j])
  {
    seq(|keys|, j requires 0 <= j < |keys| => NestedMember(GetOrNull(fs, p), keys[j]))
  }

  /** One column's value read from the record's members `fs`. */
  function Resolve(fs: seq<Field>, src: Source): (r: Py<Json>)
    ensures r.Returns? <==> Tolerates(fs, src)
  {
    match src
    case Top(k) => Returns(GetOrNull(fs, k))
    case Nested(p, k) =>
      var o := GetOrNull(fs, p);
      if !Truthy(o) then Returns(Null)
      else if o.Obj? then Returns(GetOrNull(o.fields, k))
      else Raises
    case Head(l, k) =>
      var xs := GetOrNull(fs, l);
      if !NonEmptyList(xs) then Returns(Null)
      else if xs.items[0].Obj? then Returns(GetOrNull(xs.items[0].fields, k))
      else Raises
  }

  /** Every column of `cols` resolved against `fs`, raising as soon as one
      rule raises. */
  function ResolveAll(cols: seq<Column>, fs: seq<Field>): (r: Py<Row>)
    ensures r.Returns? <==> forall i :: 0 <= i < |cols| ==> Tolerates(fs, cols[i].source)
    ensures r.Returns? ==> |r.value| == |cols|
    ensures r.Returns? ==> forall i :: 0 <= i < |cols| ==> Resolve(fs, cols[i].source) == Returns(r.value[i])
  {
    if |cols| == 0 then Returns([])
    else
      var tail := cols[1..];
      assert forall i :: 1 <= i < |cols| ==> tail[i - 1] == cols[i];
      match Resolve(fs, cols[0].source)
      case Raises => Raises
      case Returns(v) =>
        match ResolveAll(tail, fs)
        case Raises => Raises
        case Returns(rest) => Returns([v] + rest)
  }

  /** The row built for record `t`.  A record that is not a dict raises at its
      first `t.get`. */
  function Flatten(cols: seq<Column>, t: Json): (r: Py<Row>)
    ensures r.Returns? <==> t.Obj? && forall i :: 0 <= i < |cols| ==> Tolerates(t.fields, cols[i].source)
    ensures r.Returns? ==> |r.value| == |cols|
  {
    if !t.Obj? then Raises else ResolveAll(cols, t.fields)
  }

  /** A column whose top-level key is missing is null; so is a nested or
      list-head column whose top-level value is falsy (null, {}, [], "", 0,
      false) -- the row never holds a stale or defaulted value for it. */
  lemma AbsentSourceGivesNull(cols: seq<Column>, t: Json, i: int)
    requires Flatten(cols, t).Returns? && 0 <= i < |cols|
    requires !HasKey(t.fields, Anchor(cols[i].source))
             || (!cols[i].source.Top? && !Truthy(GetOrNull(t.fields, Anchor(cols[i].source))))
    ensures Flatten(cols, t).value[i] == Null
  {
    assert Resolve(t.fields, cols[i].source) == Returns(Flatten(cols, t).value[i]);
  }

  /** A top-level column holds exactly `t.get(k)`. */
  lemma TopColumnIsLookup(cols: seq<Column>, t: Json, i: int)
    requires Flatten(cols, t).Returns? && 0 <= i < |cols| && cols[i].source.Top?
    ensures Flatten(cols, t).value[i] == GetOrNull(t.fields, cols[i].source.key)
  {
    assert Resolve(t.fields, cols[i].source) == Returns(Flatten(cols, t).value[i]);
  }

  /** A nested column with a dict parent holds that dict's member, or null. */
  lemma NestedColumnReadsParent(cols: seq<Column>, t: Json, i: int)
    requires Flatten(cols, t).Returns? && 0 <= i < |cols| && cols[i].source.Nested?
    requires GetOrNull(t.fields, cols[i].source.parent).Obj?
    ensures Flatten(cols, t).value[i] == GetOrNull(GetOrNull(t.fields, cols[i].source.parent).fields, cols[i].source.key)
  {
    assert Resolve(t.fields, cols[i].source) == Returns(Flatten(cols, t).value[i]);
  }

  /** A list-head column holds the member of the list's first element when
      the list is non-empty, and null otherwise. */
  lemma HeadColumnReadsFirst(cols: seq<Column>, t: Json, i: int)
    requires Flatten(cols, t).Returns? && 0 <= i < |cols| && cols[i].source.Head?
    ensures Flatten(cols, t).value[i] == HeadMember(GetOrNull(t.fields, cols[i].source.list), cols[i].source.key)
  {
    assert Resolve(t.fields, cols[i].source) == Returns(Flatten(cols, t).value[i]);
  }

  /** A run of same-named direct columns `lo .. hi - 1` holds the top-level
      lookups of those names. */
  lemma TopColumnsRead(cols: seq<Column>, t: Json, lo: int, hi: int)
    requires Flatten(cols, t).Returns? && 0 <= lo <= hi <= |cols|
    requires forall i :: lo <= i < hi ==> cols[i].source == Top(cols[i].name)
    ensures forall i :: lo <= i < hi ==> Flatten(cols, t).value[i] == GetOrNull(t.fields, cols[i].name)
  {
    forall i | lo <= i < hi
      ensures Flatten(cols, t).value[i] == GetOrNull(t.fields, cols[i].name)
    {
      TopColumnIsLookup(cols, t, i);
    }
  }

  /** A run of list-head columns reading `keys` from the head of `l` holds
      those members of its first element, or nulls. */
  lemma HeadColumnsRead(cols: seq<Column>, t: Json, lo: int, l: string, keys: seq<string>)
    requires Flatten(cols, t).Returns? && 0 <= lo && lo + |keys| <= |cols|
    requires forall j :: 0 <= j < |keys| ==> cols[lo + j].source == Head(l, keys[j])
    ensures forall j :: 0 <= j < |keys| ==>
              Flatten(cols, t).value[lo + j] == HeadMember(GetOrNull(t.fields, l), keys[j])
  {
    forall j | 0 <= j < |keys|
      ensures Flatten(cols, t).value[lo + j] == HeadMember(GetOrNull(t.fields, l), keys[j])
    {
      assert cols[lo + j].source == Head(l, keys[j]);
      HeadColumnReadsFirst(cols, t, lo + j);
    }
  }

  /** A run of nested columns reading `keys` from parent `p` holds those
      members of the parent when it is a dict, and nulls otherwise. */
  lemma NestedColumnsRead(cols: seq<Column>, t: Json, lo: int, p: string, keys: seq<string>)
    requires Flatten(cols, t).Returns? && 0 <= lo && lo + |keys| <= |cols|
    requires forall j :: 0 <= j < |keys| ==> cols[lo + j].source == Nested(p, keys[j])
    ensures forall j :: 0 <= j < |keys| ==>
              Flatten(cols, t).value[lo + j] == NestedMember(GetOrNull(t.fields, p), keys[j])
    ensures Flatten(cols, t).value[lo..lo + |keys|] == NestedRow(t.fields, p, keys)
  {
    forall j | 0 <= j < |keys|
      ensures Flatten(cols, t).value[lo + j] == NestedMember(GetOrNull(t.fields, p), keys[j])
    {
      assert cols[lo + j].source == Nested(p, keys[j]);
      assert Resolve(t.fields, cols[lo + j].source) == Returns(Flatten(cols, t).value[lo + j]);
    }
  }

  /** A table of direct and nested columns whose parents are exactly `ps`
      maps a record without raising iff the record is a dict and every
      parent is falsy or a dict. */
  lemma RaisesOnlyOnParents(cols: seq<Column>, t: Json, ps: seq<string>)
    requires forall i :: 0 <= i < |cols| ==>
               cols[i].source.Top? || (cols[i].source.Nested? && cols[i].source.parent in ps)
    requires forall p :: p in ps ==>
               exists i :: 0 <= i < |cols| && cols[i].source.Nested? && cols[i].source.parent == p
    ensures Flatten(cols, t).Returns? <==> t.Obj? && forall p :: p in ps ==> ParentOk(t.fields, p)
  {
    if t.Obj? && !forall p :: p in ps ==> ParentOk(t.fields, p) {
      var p :| p in ps && !ParentOk(t.fields, p);
      var i :| 0 <= i < |cols| && cols[i].source.Nested? && cols[i].source.parent == p;
      assert !Tolerates(t.fields, cols[i].source);
    }
  }

  /** A table of direct columns and list-head columns over the one list `l`
      maps a record without raising iff the record is a dict and `l`, if a
      non-empty list, starts with a dict. */
  lemma RaisesOnlyOnHead(cols: seq<Column>, t: Json, l: string, h: int)
    requires forall i :: 0 <= i < |cols| ==>
               cols[i].source.Top? || (cols[i].source.Head? && cols[i].source.list == l)
    requires 0 <= h < |cols| && cols[h].source.Head?
    ensures Flatten(cols, t).Returns? <==> t.Obj? && HeadOk(t.fields, l)
  {
    if t.Obj? {
      assert Tolerates(t.fields, cols[h].source) == HeadOk(t.fields, l);
    }
  }
}
