/** The browser's `localStorage` as the front end uses it: a map from keys
    to stored texts, where a stored text is either the JSON serialisation
    of a value or some other text that does not parse as JSON. */
module Storage {

  import opened Wrappers
  import opened Json

  /** A stored text: `JsonText(v)` is the serialisation of `v`;
      `Garbage(s)` is the text `s`, which is not JSON (the empty text, or
      "undefined", which `setItem` stores for `JSON.stringify(undefined)`). */
  datatype StoredText = JsonText(value: Json) | Garbage(text: string)

  type Items = map<string, StoredText>

  /** `JSON.stringify(v)` as stored by `setItem`: `undefined` has no JSON
      text and is stored as the text "undefined"; anything else is stored
      as the value its serialisation parses back to. */
  function Stringify(v: Json): (t: StoredText)
    ensures v.Undefined? ==> t == Garbage("undefined")
    ensures !v.Undefined? ==> t == JsonText(DeepCopy(v))
  {
    if v.Undefined? then Garbage("undefined") else JsonText(DeepCopy(v))
  }

  /** `JSON.parse(text)`: None where it throws. */
  function Parse(t: StoredText): (r: Option<Json>)
    ensures r.Some? <==> t.JsonText?
  {
    match t
    case JsonText(v) => Some(v)
    case Garbage(_) => None
  }

  /** Whether `getItem` returned a truthy string: a JSON text is never
      empty; other text is truthy unless it is empty. */
  predicate Present(t: Option<StoredText>) {
    match t
    case None => false
    case Some(JsonText(_)) => true
    case Some(Garbage(s)) => s != ""
  }

  /** A value stored and read back is its JSON copy; storing that copy
      again stores the same text. */
  lemma StringifyRoundTrip(v: Json)
    requires !v.Undefined?
    ensures Parse(Stringify(v)) == Some(DeepCopy(v))
    ensures Stringify(DeepCopy(v)) == Stringify(v)
  {
    DeepCopyIdempotent(v);
  }

  /** The browser store: `setItem` and `removeItem` change one key. */
  class LocalStorage {
    var items: Items

    constructor ()
      ensures items == map[]
    {
      items := map[];
    }

    /** `getItem(key)`: None for a missing key (`null`). */
    function GetItem(key: string): (r: Option<StoredText>)
      reads this
      ensures r.Some? <==> key in items
      ensures r.Some? ==> r.value == items[key]
    {
      if key in items then Some(items[key]) else None
    }

    method SetItem(key: string, t: StoredText)
      modifies this
      ensures items == old(items)[key := t]
    {
      items := items[key := t];
    }

    method RemoveItem(key: string)
      modifies this
      ensures items == old(items) - {key}
    {
      items := items - {key};
    }
  }
}
