/** The profile page (`ProfilePage` of pages/Profile.jsx): a form over the
    user's profile with list sections (educations, experiences, projects,
    skills, languages, certificates), the "ongoing" toggle of an entry, and
    the load and save round trips with the profile API. */
module Profile {

  import opened Wrappers
  import opened Json
  import opened ProfileLists

  /** `INITIAL_ITEMS[field]`: the blank entry a new row starts from; an
      unknown field spreads `undefined`, which adds no key. */
  function Template(field: string): map<string, Json> {
    if field == "educations" then
      map["schoolName" := Str(""), "department" := Str(""), "degree" := Str("Lisans"),
          "startYear" := Str(""), "graduationYear" := Str(""), "gpa" := Str("")]
    else if field == "experiences" then
      map["position" := Str(""), "company" := Str(""), "city" := Str(""), "employmentType" := Str("Full-time"),
          "startDate" := Str(""), "endDate" := Str(""), "technologies" := Str(""), "description" := Str("")]
    else if field == "projects" then
      map["projectName" := Str(""), "startDate" := Str(""), "endDate" := Str(""), "isOngoing" := Bool(false),
          "technologies" := Str(""), "url" := Str(""), "description" := Str("")]
    else if field == "skills" then
      map["skillName" := Str(""), "level" := Str("INTERMEDIATE"), "years" := Num(0.0)]
    else if field == "languages" then
      map["language" := Str(""), "level" := Str("Intermediate")]
    else if field == "certificates" then
      map["name" := Str(""), "issuer" := Str(""), "date" := Str(""), "url" := Str("")]
    else map[]
  }

  /** `emptyProfile` */
  const EmptyProfile: Form := map[
    "fullName" := Str(""), "email" := Str(""), "phone" := Str(""), "location" := Str(""),
    "linkedinUrl" := Str(""), "githubUrl" := Str(""), "websiteUrl" := Str(""), "title" := Str(""),
    "totalExperienceYear" := Num(0.0), "summary" := Str(""),
    "educations" := Arr([]), "skills" := Arr([]), "experiences" := Arr([]),
    "languages" := Arr([]), "certificates" := Arr([]), "projects" := Arr([])
  ]

  /** `handleChange`: the named field takes the typed value, except the
      total experience, which is stored as `Number(value) || 0`. */
  function Changed(form: Form, name: string, value: string): (r: Form)
    ensures name in r
    ensures name == "totalExperienceYear" ==> r[name].Num? && r[name] == NumberOrZeroValue(Str(value))
    ensures name != "totalExperienceYear" ==> r[name] == Str(value)
    ensures forall k :: k in form && k != name ==> k in r && r[k] == form[k]
  {
    form[name := if name == "totalExperienceYear" then NumberOrZeroValue(Str(value)) else Str(value)]
  }

  /** `addItem`: `[...(prev[field] || []), { ...INITIAL_ITEMS[field] }]`. */
  function ItemAdded(form: Form, field: string): (r: Option<Form>)
    ensures Iterate(Or(At(form, field), Arr([]))).None? ==> r.None?
    ensures Iterate(Or(At(form, field), Arr([]))).Some? ==>
      r == Some(form[field := Arr(Appended(Iterate(Or(At(form, field), Arr([]))).value, Template(field)))])
  {
    match Iterate(Or(At(form, field), Arr([])))
    case None => None
    case Some(xs) => Some(form[field := Arr(Appended(xs, Template(field)))])
  }

  /** Adding to a list grows it by one template entry and changes nothing
      else; a missing list counts as empty. */
  lemma AddItemGrows(form: Form, field: string)
    requires At(form, field).Arr? || !Truthy(At(form, field))
    ensures var xs := if At(form, field).Arr? then At(form, field).elems else [];
      var r := ItemAdded(form, field);
      && r.Some? && r.value[field] == Arr(Dense(xs) + [Obj(Template(field))])
      && (forall k :: k in form && k != field ==> k in r.value && r.value[k] == form[k])
  {
  }

  /** `toggleItemOngoing`: the entry's `isOngoing` flips; turning it on
      clears the date field to '', turning it off keeps the date. Reading
      `isOngoing` of a missing entry throws. */
  function ItemToggled(form: Form, field: string, index: nat, dateField: string): (r: Option<Form>)
    ensures Iterate(At(form, field)).None? ==> r.None?
  {
    match Iterate(At(form, field))
    case None => None
    case Some(xs) =>
      var current := Nth(xs, index);
      if Nullish(current) then None
      else
        var on := !Truthy(Get(current, "isOngoing"));
        var entry := WithField(WithField(current, "isOngoing", Bool(on)), dateField, if on then Str("") else Get(current, dateField));
        Some(form[field := Arr(SetAt(xs, index, entry))])
  }

  /** The entry at `index` of the list `field` after a successful toggle:
      ongoing flips, the date is cleared exactly when it becomes ongoing,
      the other entries, the other keys and the rest of the form stay. */
  lemma ToggleEffect(form: Form, field: string, xs: seq<Json>, index: nat, dateField: string)
    requires At(form, field) == Arr(xs) && index < |xs| && xs[index].Obj? && dateField != "isOngoing"
    ensures var r := ItemToggled(form, field, index, dateField);
      var was := Truthy(Get(xs[index], "isOngoing"));
      && r.Some? && r.value[field].Arr? && |r.value[field].elems| == |xs|
      && Get(r.value[field].elems[index], "isOngoing") == Bool(!was)
      && Get(r.value[field].elems[index], dateField) == (if !was then Str("") else Get(xs[index], dateField))
      && (forall k :: k != "isOngoing" && k != dateField ==> Get(r.value[field].elems[index], k) == Get(xs[index], k))
      && (forall j :: 0 <= j < |xs| && j != index ==> r.value[field].elems[j] == Read(xs[j]))
      && (forall k :: k in form && k != field ==> k in r.value && r.value[k] == form[k])
  {
  }

  /** Toggling twice restores the ongoing flag (as a boolean) but leaves the
      date cleared: whichever way the first toggle went, one of the two
      turned the entry on. */
  lemma ToggleTwice(form: Form, field: string, xs: seq<Json>, index: nat, dateField: string)
    requires At(form, field) == Arr(xs) && index < |xs| && xs[index].Obj? && dateField != "isOngoing"
    ensures var once := ItemToggled(form, field, index, dateField);
      && once.Some?
      && var twice := ItemToggled(once.value, field, index, dateField);
      && twice.Some? && twice.value[field].Arr? && index < |twice.value[field].elems|
      && Get(twice.value[field].elems[index], "isOngoing") == Bool(Truthy(Get(xs[index], "isOngoing")))
      && Get(twice.value[field].elems[index], dateField) == Str("")
  {
    ToggleEffect(form, field, xs, index, dateField);
    var once := ItemToggled(form, field, index, dateField).value;
    ToggleEffect(once, field, once[field].elems, index, dateField);
  }

  /** The save payload: `{ ...form, totalExperienceYear: Number(...) || 0,
      skills: form.skills.map(s => ({ ...s, years: Number(s.years) || 0 })) }`;
      None when `form.skills` is not an array or holds a `null` or
      `undefined` entry (the handler throws before sending); a hole is
      skipped by `map` and stays one. */
  function SavePayload(form: Form): (r: Option<Form>)
    ensures r.Some? <==> MapEntries(At(form, "skills"), SkillWithYears).Some?
  {
    match MapEntries(At(form, "skills"), SkillWithYears)
    case None => None
    case Some(skills) =>
      Some(form["totalExperienceYear" := NumberOrZeroValue(At(form, "totalExperienceYear"))]["skills" := Arr(skills)])
  }

  /** The payload keeps every field, makes the total experience a number,
      keeps the number of skills and makes each skill's years a number while
      keeping its other keys. */
  lemma SavePayloadShape(form: Form, skills: seq<Json>)
    requires At(form, "skills") == Arr(skills)
    requires forall i :: 0 <= i < |skills| ==> !Nullish(skills[i])
    ensures var r := SavePayload(form);
      && r.Some?
      && (forall k :: k in form && k != "totalExperienceYear" && k != "skills" ==> k in r.value && r.value[k] == form[k])
      && r.value["totalExperienceYear"].Num?
      && r.value["skills"].Arr? && |r.value["skills"].elems| == |skills|
      && (forall i :: 0 <= i < |skills| && skills[i].Hole? ==> r.value["skills"].elems[i] == Hole)
      && (forall i :: 0 <= i < |skills| && !skills[i].Hole? ==> Get(r.value["skills"].elems[i], "years").Num?)
      && (forall i, k :: 0 <= i < |skills| && k != "years" ==> Get(r.value["skills"].elems[i], k) == Get(skills[i], k))
  {
  }

  /** Setting a sub-field past the end of the skills leaves holes, which
      the save's `map` skips: the payload is still built, one entry longer
      than the index, with the holes kept. */
  lemma {:induction false} SaveSkipsHoles(form: Form, skills: seq<Json>, index: nat, subField: string, value: Json)
    requires At(form, "skills") == Arr(skills) && forall i :: 0 <= i < |skills| ==> !Nullish(Read(skills[i]))
    requires index > |skills|
    ensures var u := UpdatedItem(form, "skills", index, subField, value);
      && u.Some?
      && var r := SavePayload(u.value);
      && r.Some? && r.value["skills"].Arr? && |r.value["skills"].elems| == index + 1
      && r.value["skills"].elems[|skills|] == Hole
  {
    var xs := Dense(skills);
    var list := SetAt(xs, index, WithField(Nth(xs, index), subField, value));
    var u := form["skills" := Arr(list)];
    assert UpdatedItem(form, "skills", index, subField, value) == Some(u);
    assert At(u, "skills") == Arr(list);
    assert forall i :: 0 <= i < |list| ==> !Nullish(list[i]);
    assert MapEntries(At(u, "skills"), SkillWithYears).Some?;
  }

  const SavedText: string := "✅ Profil başarıyla kaydedildi!"
  const SaveFailedText: string := "❌ Kaydetme sırasında hata oluştu."

  /** The page component's state. */
  class ProfilePage {
    var form: Form
    var loading: bool
    var saving: bool
    /** A state update threw. React runs the updater again while rendering,
        the error escapes the render and, with no error boundary above the
        page, the whole app is unmounted; the form keeps its last value,
        which is no longer shown. */
    var crashed: bool

    constructor ()
      ensures form == EmptyProfile && !loading && !saving && !crashed
    {
      form := EmptyProfile;
      loading := false;
      saving := false;
      crashed := false;
    }

    /** The fetch effect up to the request: the page shows its loader. */
    method StartFetch()
      modifies this
      ensures loading && form == old(form) && saving == old(saving) && crashed == old(crashed)
    {
      loading := true;
    }

    /** The fetch effect after the request: `response` is the response, or
        None when the request failed. The loaded data is merged into the
        form; the loader goes away in either case. */
    method FinishFetch(response: Option<Json>)
      modifies this
      ensures !loading && saving == old(saving) && crashed == old(crashed)
      ensures response.Some? ==> form == Merged(old(form), Or(Get(response.value, "data"), Obj(map[])))
      ensures response.None? ==> form == old(form)
    {
      if response.Some? {
        var data := Or(Get(response.value, "data"), Obj(map[]));
        form := Merged(form, data);
      }
      loading := false;
    }

    method HandleChange(name: string, value: string)
      modifies this
      ensures form == Changed(old(form), name, value)
      ensures loading == old(loading) && saving == old(saving) && crashed == old(crashed)
    {
      form := form[name := if name == "totalExperienceYear" then NumberOrZeroValue(Str(value)) else Str(value)];
    }

    method AddItem(field: string)
      modifies this
      ensures form == ItemAdded(old(form), field).GetOr(old(form))
      ensures crashed == (old(crashed) || ItemAdded(old(form), field).None?)
      ensures loading == old(loading) && saving == old(saving)
    {
      var list := Iterate(Or(At(form, field), Arr([])));
      if list.Some? {
        form := form[field := Arr(list.value + [Obj(Template(field))])];
      } else {
        crashed := true;
      }
    }

    method UpdateItem(field: string, index: nat, subField: string, value: Json)
      modifies this
      ensures form == UpdatedItem(old(form), field, index, subField, value).GetOr(old(form))
      ensures crashed == (old(crashed) || UpdatedItem(old(form), field, index, subField, value).None?)
      ensures loading == old(loading) && saving == old(saving)
    {
      var list := Iterate(At(form, field));
      if list.Some? {
        var xs := list.value;
        var entry := WithField(Nth(xs, index), subField, value);
        form := form[field := Arr(SetAt(xs, index, entry))];
      } else {
        crashed := true;
      }
    }

    method RemoveItem(field: string, index: int)
      modifies this
      ensures form == RemovedItem(old(form), field, index).GetOr(old(form))
      ensures crashed == (old(crashed) || RemovedItem(old(form), field, index).None?)
      ensures loading == old(loading) && saving == old(saving)
    {
      var list := At(form, field);
      if list.Arr? {
        form := form[field := Arr(RemoveAt(list.elems, index))];
      } else {
        crashed := true;
      }
    }

    method ToggleItemOngoing(field: string, index: nat, dateField: string)
      modifies this
      ensures form == ItemToggled(old(form), field, index, dateField).GetOr(old(form))
      ensures crashed == (old(crashed) || ItemToggled(old(form), field, index, dateField).None?)
      ensures loading == old(loading) && saving == old(saving)
    {
      var toggled := ItemToggled(form, field, index, dateField);
      if toggled.Some? {
        form := toggled.value;
      } else {
        crashed := true;
      }
    }

    /** `handleSave` up to the request: `saving` is set and the payload
        built. When building it throws, the handler has already finished:
        the failure alert is shown and `saving` is reset. */
    method StartSave() returns (payload: Option<Form>, alert: Option<string>)
      modifies this
      ensures payload == SavePayload(old(form))
      ensures saving <==> payload.Some?
      ensures alert.Some? <==> payload.None?
      ensures alert.Some? ==> alert.value == SaveFailedText
      ensures form == old(form) && loading == old(loading) && crashed == old(crashed)
    {
      saving := true;
      payload := SavePayload(form);
      alert := None;
      if payload.None? {
        alert := Some(SaveFailedText);
        saving := false;
      }
    }

    /** `handleSave` after the request (`response` None when it failed):
        returned data is merged into the form and the matching alert shown;
        `saving` is reset on both paths. */
    method FinishSave(response: Option<Json>) returns (alert: string)
      modifies this
      ensures !saving && loading == old(loading) && crashed == old(crashed)
      ensures response.Some? ==> form == Refreshed(old(form), Get(response.value, "data")) && alert == SavedText
      ensures response.None? ==> form == old(form) && alert == SaveFailedText
    {
      if response.Some? {
        form := Refreshed(form, Get(response.value, "data"));
        alert := SavedText;
      } else {
        alert := SaveFailedText;
      }
      saving := false;
    }
  }
}
