/** The list editing both profile editors share: a profile form is a plain
    object whose list fields hold entries (objects); the editors append a
    template entry, overwrite one sub-field of one entry, and drop an entry
    by position, always building a new list. Operations that would throw a
    TypeError in the browser (spreading a value that is not iterable,
    reading a property of `undefined`) return None. */
module ProfileLists {

  import opened Wrappers
  import opened Json
  import Numbers

  /** The form state: field name to value. */
  type Form = map<string, Json>

  /** `form[key]`: `undefined` for a missing key. */
  function At(form: Form, key: string): Json {
    if key in form then form[key] else Undefined
  }

  predicate NoHoles(xs: seq<Json>) {
    forall i :: 0 <= i < |xs| ==> !xs[i].Hole?
  }

  /** The elements as the spread `[...xs]` lists them: a hole becomes an
      explicit `undefined`. */
  function Dense(xs: seq<Json>): (r: seq<Json>)
    ensures |r| == |xs| && NoHoles(r)
    ensures forall i :: 0 <= i < |xs| ==> r[i] == Read(xs[i])
    ensures NoHoles(xs) ==> r == xs
  {
    seq(|xs|, i requires 0 <= i < |xs| => Read(xs[i]))
  }

  /** `[...v]`: the elements of an array (holes read as `undefined`), the
      characters of a string; any other value is not iterable and the
      spread throws. */
  function Iterate(v: Json): (r: Option<seq<Json>>)
    ensures v.Arr? ==> r == Some(Dense(v.elems))
    ensures !v.Arr? && !v.Str? ==> r.None?
    ensures r.Some? ==> NoHoles(r.value)
  {
    match v
    case Arr(xs) => Some(Dense(xs))
    case Str(s) => Some(seq(|s|, i requires 0 <= i < |s| => Str([s[i]])))
    case _ => None
  }

  /** The array without its holes. */
  function Compact(xs: seq<Json>): (r: seq<Json>)
    ensures NoHoles(r) && |r| <= |xs|
    ensures NoHoles(xs) ==> r == xs
    decreases |xs|
  {
    if xs == [] then []
    else (if xs[0].Hole? then [] else [xs[0]]) + Compact(xs[1..])
  }

  /** `xs.filter((_, i) => i !== index)`: the entry at `index` is dropped,
      the rest keep their order; an index outside the list drops nothing.
      `filter` never visits a hole, so the holes go too. */
  function RemoveAt(xs: seq<Json>, index: int): (r: seq<Json>)
    ensures NoHoles(r) && |r| <= |xs|
    decreases |xs|
  {
    if xs == [] then []
    else (if index == 0 || xs[0].Hole? then [] else [xs[0]]) + RemoveAt(xs[1..], index - 1)
  }

  /** What `filter` keeps: the entries before the index and after it,
      without their holes. */
  lemma {:induction false} RemoveAtCompact(xs: seq<Json>, index: int)
    requires 0 <= index < |xs|
    ensures RemoveAt(xs, index) == Compact(xs[..index]) + Compact(xs[index + 1..])
    decreases |xs|
  {
    if index == 0 {
      RemoveAtOutside(xs[1..], -1);
      assert xs[..index] == [] && xs[index + 1..] == xs[1..];
    } else {
      RemoveAtCompact(xs[1..], index - 1);
      RemoveAtStep(xs, index);
    }
  }

  lemma RemoveAtStep(xs: seq<Json>, index: int)
    requires 0 < index < |xs|
    requires RemoveAt(xs[1..], index - 1) == Compact(xs[1..][..index - 1]) + Compact(xs[1..][index..])
    ensures RemoveAt(xs, index) == Compact(xs[..index]) + Compact(xs[index + 1..])
  {
    var t := xs[1..];
    var a := xs[..index];
    var b := xs[index + 1..];
    var head := if xs[0].Hole? then [] else [xs[0]];
    assert a[0] == xs[0] && a[1..] == t[..index - 1];
    assert t[index..] == b;
    calc {
      RemoveAt(xs, index);
      head + RemoveAt(t, index - 1);
      head + (Compact(t[..index - 1]) + Compact(b));
      (head + Compact(a[1..])) + Compact(b);
      Compact(a) + Compact(b);
    }
  }

  /** With the index outside the list only the holes go. */
  lemma {:induction false} RemoveAtOutside(xs: seq<Json>, index: int)
    requires !(0 <= index < |xs|)
    ensures RemoveAt(xs, index) == Compact(xs)
    decreases |xs|
  {
    if xs != [] {
      RemoveAtOutside(xs[1..], index - 1);
    }
  }

  /** The `n` holes an assignment past the end of an array leaves. */
  function Holes(n: nat): (r: seq<Json>)
    ensures |r| == n && forall i :: 0 <= i < n ==> r[i] == Hole
  {
    seq(n, i requires 0 <= i < n => Hole)
  }

  /** `list[index] = v` on a copy: within the list the entry is replaced;
      past the end the list grows to `index + 1`, the gap left as holes. */
  function SetAt(xs: seq<Json>, index: nat, v: Json): (r: seq<Json>)
    ensures |r| == if index < |xs| then |xs| else index + 1
    ensures r[index] == v
    ensures forall j :: 0 <= j < |xs| && j != index ==> r[j] == xs[j]
    ensures forall j :: |xs| <= j < |r| && j != index ==> r[j] == Hole
  {
    if index < |xs| then xs[index := v] else xs + Holes(index - |xs|) + [v]
  }

  /** `xs[index]` on an array: `undefined` past the end and for a hole. */
  function Nth(xs: seq<Json>, index: nat): (r: Json)
    ensures !r.Hole?
    ensures index < |xs| && !xs[index].Hole? ==> r == xs[index]
    ensures index >= |xs| || xs[index].Hole? ==> r == Undefined
  {
    if index < |xs| then Read(xs[index]) else Undefined
  }

  /** `{ ...item, [key]: value }` */
  function WithField(item: Json, key: string, value: Json): (r: Json)
    ensures r.Obj? && Get(r, key) == value
    ensures forall k :: k != key ==> Get(r, k) == Get(item, k)
  {
    Obj(FieldsOf(item)[key := value])
  }

  /** The shared shape of `updateItem`: copy the list, replace the entry at
      `index` by a copy with `subField` set. */
  function UpdatedItem(form: Form, field: string, index: nat, subField: string, value: Json): (r: Option<Form>)
    ensures Iterate(At(form, field)).None? ==> r.None?
    ensures Iterate(At(form, field)).Some? ==>
      var xs := Iterate(At(form, field)).value;
      r == Some(form[field := Arr(SetAt(xs, index, WithField(Nth(xs, index), subField, value)))])
  {
    match Iterate(At(form, field))
    case None => None
    case Some(xs) => Some(form[field := Arr(SetAt(xs, index, WithField(Nth(xs, index), subField, value)))])
  }

  /** `updateItem` changes one sub-field of one entry: the list keeps its
      length, every other entry (a hole turned `undefined` by the spread)
      and every other sub-field of the entry, and no other field of the
      form changes. */
  lemma UpdateItemLocal(form: Form, field: string, xs: seq<Json>, index: nat, subField: string, value: Json)
    requires At(form, field) == Arr(xs) && index < |xs|
    ensures var r := UpdatedItem(form, field, index, subField, value);
      && r.Some?
      && (forall k :: k in form && k != field ==> k in r.value && r.value[k] == form[k])
      && r.value[field].Arr? && |r.value[field].elems| == |xs|
      && (forall j :: 0 <= j < |xs| && j != index ==> r.value[field].elems[j] == Read(xs[j]))
      && Get(r.value[field].elems[index], subField) == value
      && (forall k :: k != subField ==> Get(r.value[field].elems[index], k) == Get(xs[index], k))
  {
  }

  /** The shared shape of `removeItem`: `prev[field].filter(...)`, which
      throws when the field holds no array. */
  function RemovedItem(form: Form, field: string, index: int): (r: Option<Form>)
    ensures !At(form, field).Arr? ==> r.None?
    ensures At(form, field).Arr? ==> r == Some(form[field := Arr(RemoveAt(At(form, field).elems, index))])
  {
    match At(form, field)
    case Arr(xs) => Some(form[field := Arr(RemoveAt(xs, index))])
    case _ => None
  }

  /** `removeItem` drops exactly the entry at the index, and the holes: the
      others keep their order and the rest of the form is untouched; a list
      without holes gets one shorter. */
  lemma RemoveItemExact(form: Form, field: string, xs: seq<Json>, index: int)
    requires At(form, field) == Arr(xs) && 0 <= index < |xs|
    ensures var r := RemovedItem(form, field, index);
      && r.Some?
      && (forall k :: k in form && k != field ==> k in r.value && r.value[k] == form[k])
      && r.value[field] == Arr(Compact(xs[..index]) + Compact(xs[index + 1..]))
      && (NoHoles(xs) ==> r.value[field] == Arr(xs[..index] + xs[index + 1..]) && |r.value[field].elems| == |xs| - 1)
  {
    RemoveAtCompact(xs, index);
    if NoHoles(xs) {
      assert NoHoles(xs[..index]) && NoHoles(xs[index + 1..]);
    }
  }

  /** Removing at an index outside the list only drops the holes: a list
      without holes leaves the form as it was. */
  lemma RemoveItemOutside(form: Form, field: string, xs: seq<Json>, index: int)
    requires field in form && form[field] == Arr(xs) && !(0 <= index < |xs|)
    ensures RemovedItem(form, field, index) == Some(form[field := Arr(Compact(xs))])
    ensures NoHoles(xs) ==> RemovedItem(form, field, index) == Some(form)
  {
    RemoveAtOutside(xs, index);
    assert form[field := Arr(xs)] == form;
  }

  /** The list after `addItem`: the old entries and a fresh copy of the
      template at the end. */
  function Appended(xs: seq<Json>, template: map<string, Json>): (r: seq<Json>)
    ensures |r| == |xs| + 1 && r[..|xs|] == xs && r[|xs|] == Obj(template)
  {
    xs + [Obj(template)]
  }

  /** `Number(v) || 0` as a JSON number. */
  function NumberOrZeroValue(v: Json): (r: Json)
    ensures r.Num?
  {
    Num(Numbers.NumberOrZero(v))
  }

  /** `list.map(e => ...)` where the callback reads a property of each
      entry: anything that is not an array has no `map`, and a `null` or
      `undefined` entry makes the property read throw. `map` skips a hole
      and leaves one in its place. */
  function MapEntries(v: Json, f: Json -> Json): (r: Option<seq<Json>>)
    ensures r.Some? <==> v.Arr? && forall i :: 0 <= i < |v.elems| ==> !Nullish(v.elems[i])
    ensures r.Some? ==> |r.value| == |v.elems| && forall i :: 0 <= i < |v.elems| ==>
      r.value[i] == if v.elems[i].Hole? then Hole else f(v.elems[i])
  {
    if v.Arr? && forall i :: 0 <= i < |v.elems| ==> !Nullish(v.elems[i])
    then Some(seq(|v.elems|, i requires 0 <= i < |v.elems| => if v.elems[i].Hole? then Hole else f(v.elems[i])))
    else None
  }

  /** `{ ...s, years: Number(s.years) || 0 }` */
  function SkillWithYears(s: Json): (r: Json)
    ensures Get(r, "years").Num?
    ensures forall k :: k != "years" ==> Get(r, k) == Get(s, k)
  {
    WithField(s, "years", NumberOrZeroValue(Get(s, "years")))
  }

  /** The list fields of the form, which the fetch merge defaults to []. */
  const ListFields: seq<string> := ["educations", "skills", "experiences", "languages", "certificates", "projects"]

  /** The fetch merge: `{ ...prev, ...data, <each list>: data.<list> || [] }`. */
  function Merged(prev: Form, data: Json): (r: Form)
    ensures forall f :: f in ListFields ==> f in r && r[f] == Or(Get(data, f), Arr([]))
    ensures forall k :: k !in ListFields && k in FieldsOf(data) ==> k in r && r[k] == FieldsOf(data)[k]
    ensures forall k :: k !in ListFields && k !in FieldsOf(data) && k in prev ==> k in r && r[k] == prev[k]
    ensures forall k :: k in r ==> k in prev || k in FieldsOf(data) || k in ListFields
  {
    prev + FieldsOf(data) + map f | f in ListFields :: Or(Get(data, f), Arr([]))
  }

  /** After a fetch every list field holds a list, whatever the server
      sent, as long as what it sent is an array or falsy. */
  lemma MergedListsAreArrays(prev: Form, data: Json)
    requires forall f :: f in ListFields ==> Get(data, f).Arr? || !Truthy(Get(data, f))
    ensures forall f :: f in ListFields ==> Merged(prev, data)[f].Arr?
  {
  }

  /** `{ ...prev, ...res.data }` after a save that returned data. */
  function Refreshed(prev: Form, data: Json): (r: Form)
    ensures !Truthy(data) ==> r == prev
    ensures Truthy(data) ==> r == prev + FieldsOf(data)
  {
    if Truthy(data) then prev + FieldsOf(data) else prev
  }
}
