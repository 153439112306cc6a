/** JavaScript values as the front end passes them around: profile objects,
    API responses, AI results. Only the operators the front end relies on
    are defined: truthiness, `||`, `??`, optional member access and
    `.length`. NaN is not a value of this model (see Numbers). */
module Json {

  import opened Wrappers

  /** `Hole` is an empty slot of a sparse array, as an assignment past the
      end of an array leaves; it only ever occurs as an element of `Arr`,
      and reading it gives `undefined` (see Read). */
  datatype Json =
    | Undefined
    | Hole
    | Null
    | Bool(b: bool)
    | Num(n: real)
    | Str(s: string)
    | Arr(elems: seq<Json>)
    | Obj(fields: map<string, Json>)

  /** JavaScript truthiness: `false`, `0`, `""`, `null` and `undefined` are falsy;
      every array and object, even an empty one, is truthy. */
  predicate Truthy(v: Json) {
    match v
    case Undefined => false
    case Hole => false
    case Null => false
    case Bool(b) => b
    case Num(n) => n != 0.0
    case Str(s) => s != ""
    case Arr(_) => true
    case Obj(_) => true
  }

  predicate Nullish(v: Json) {
    v.Undefined? || v.Null?
  }

  /** `xs[i]` for an element of an array: a hole reads as `undefined`. */
  function Read(x: Json): (r: Json)
    ensures !r.Hole?
    ensures !x.Hole? ==> r == x
  {
    if x.Hole? then Undefined else x
  }

  /** `a || b` */
  function Or(a: Json, b: Json): Json {
    if Truthy(a) then a else b
  }

  /** `a ?? b` */
  function Coalesce(a: Json, b: Json): Json {
    if Nullish(a) then b else a
  }

  /** `v?.key`, for every key except `length` (see Length). */
  function Get(v: Json, key: string): Json {
    if v.Obj? && key in v.fields then v.fields[key] else Undefined
  }

  /** `v.length` for strings and arrays; None where it is `undefined`. */
  function Length(v: Json): Option<nat> {
    match v
    case Str(s) => Some(|s|)
    case Arr(xs) => Some(|xs|)
    case _ => None
  }

  /** `v?.length > 0` (also `v && v.length > 0`): `undefined > 0` is false. */
  predicate HasElements(v: Json) {
    Length(v).Some? && Length(v).value > 0
  }

  /** `v[0]` on a string or an array; `undefined` past the end. */
  function First(v: Json): Json {
    match v
    case Str(s) => if s == "" then Undefined else Str(s[..1])
    case Arr(xs) => if xs == [] then Undefined else Read(xs[0])
    case _ => Undefined
  }

  /** `{ ...a, ...b }` on two plain objects: the keys of `b` win. Key order
      is not modelled. */
  function Spread(a: map<string, Json>, b: map<string, Json>): map<string, Json> {
    a + b
  }

  /** The fields of an object, or none for anything that is not one
      (`{ ...null }` and `{ ...undefined }` add nothing). */
  function FieldsOf(v: Json): map<string, Json> {
    if v.Obj? then v.fields else map[]
  }

  /** `JSON.parse(JSON.stringify(v))`, the deep copy the front end makes:
      object keys holding `undefined` are dropped and `undefined` array
      elements and holes become `null`; everything else is copied as it is. */
  function DeepCopy(v: Json): (r: Json)
    ensures r.Undefined? <==> v.Undefined?
    ensures v.Obj? ==> r.Obj? && forall k :: k in r.fields <==> k in v.fields && !v.fields[k].Undefined?
    ensures v.Arr? ==> r.Arr? && |r.elems| == |v.elems|
    ensures v.Arr? ==> forall i :: 0 <= i < |v.elems| && (v.elems[i].Undefined? || v.elems[i].Hole?) ==> r.elems[i] == Null
  {
    match v
    case Arr(xs) => Arr(seq(|xs|, i requires 0 <= i < |xs| => if xs[i].Undefined? || xs[i].Hole? then Null else DeepCopy(xs[i])))
    case Obj(m) => Obj(map k | k in m && !m[k].Undefined? :: DeepCopy(m[k]))
    case _ => v
  }

  /** Each key of a copied object reads as the copy of what it read
      before, `undefined` included. */
  lemma DeepCopyGet(v: Json, k: string)
    requires v.Obj?
    ensures Get(DeepCopy(v), k) == DeepCopy(Get(v, k))
  {
  }

  /** Copying a copy changes nothing: the copy is already in the form JSON
      text can express. */
  lemma {:induction false} DeepCopyIdempotent(v: Json)
    ensures DeepCopy(DeepCopy(v)) == DeepCopy(v)
  {
    match v
    case Arr(xs) =>
      var c := DeepCopy(v);
      forall i | 0 <= i < |xs| && !xs[i].Undefined? && !xs[i].Hole? {
        DeepCopyIdempotent(xs[i]);
      }
      assert DeepCopy(c).elems == c.elems;
    case Obj(m) =>
      var c := DeepCopy(v);
      forall k | k in m && !m[k].Undefined? {
        DeepCopyIdempotent(m[k]);
      }
      assert DeepCopy(c).fields == c.fields;
    case _ =>
  }
}
