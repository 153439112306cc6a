/** The older profile editor (`ProfilePage` of
    components/profile/ProfileForm.jsx). It shares the list editing of
    ProfileLists with pages/Profile.jsx but differs in four places: its
    templates, `addItem` without a default for a missing list, a
    `handleChange` that reads checkboxes and uses `parseInt`, and a save
    payload that also clears the end date of ongoing projects. */
module ProfileForm {

  import opened Wrappers
  import opened Json
  import opened Text
  import opened ProfileLists
  import Numbers

  /** `TEMPLATES[field]`; an unknown field adds no key. */
  function Template(field: string): map<string, Json> {
    if field == "skills" then
      map["skillName" := Str(""), "level" := Str("INTERMEDIATE"), "years" := Num(0.0)]
    else if field == "experiences" then
      map["position" := Str(""), "company" := Str(""), "city" := Str(""),
          "startDate" := Str(""), "endDate" := Str(""), "description" := Str("")]
    else if field == "languages" then
      map["language" := Str(""), "level" := Str("Intermediate")]
    else if field == "certificates" then
      map["name" := Str(""), "issuer" := Str(""), "date" := Str(""), "url" := Str("")]
    else if field == "projects" then
      map["projectName" := Str(""), "startDate" := Str(""), "endDate" := Str(""), "isOngoing" := Bool(false)]
    else if field == "educations" then
      map["schoolName" := Str(""), "department" := Str(""), "degree" := Str("Lisans"),
          "startYear" := Str(""), "graduationYear" := Str(""), "gpa" := Str("")]
    else map[]
  }

  /** `emptyProfile` */
  const EmptyProfile: Form := map[
    "fullName" := Str(""), "email" := Str(""), "phone" := Str(""), "location" := Str(""),
    "linkedinUrl" := Str(""), "githubUrl" := Str(""), "websiteUrl" := Str(""),
    "title" := Str(""), "totalExperienceYear" := Num(0.0), "summary" := Str(""),
    "educations" := Arr([]),
    "skills" := Arr([]), "experiences" := Arr([]), "languages" := Arr([]), "certificates" := Arr([]), "projects" := Arr([])
  ]

  /** What an input event writes: a checkbox its checked state, the total
      experience `parseInt(value) || 0`, anything else the typed text. */
  function InputValue(name: string, value: string, isCheckbox: bool, checked: bool): (r: Json)
    ensures isCheckbox ==> r == Bool(checked)
    ensures !isCheckbox && name == "totalExperienceYear" ==> r == Num(Numbers.ParseIntOrZero(value) as real)
    ensures !isCheckbox && name != "totalExperienceYear" ==> r == Str(value)
  {
    if isCheckbox then Bool(checked)
    else if name == "totalExperienceYear" then Num(Numbers.ParseIntOrZero(value) as real)
    else Str(value)
  }

  /** `handleChange` writes the named field and nothing else. */
  function Changed(form: Form, name: string, value: string, isCheckbox: bool, checked: bool): (r: Form)
    ensures name in r && r[name] == InputValue(name, value, isCheckbox, checked)
    ensures forall k :: k in form && k != name ==> k in r && r[k] == form[k]
    ensures forall k :: k in r ==> k in form || k == name
  {
    form[name := InputValue(name, value, isCheckbox, checked)]
  }

  /** The total experience is always stored as a whole number. */
  lemma ExperienceIsWhole(form: Form, value: string)
    ensures var r := Changed(form, "totalExperienceYear", value, false, false);
      r["totalExperienceYear"].Num? && r["totalExperienceYear"].n.Floor as real == r["totalExperienceYear"].n
  {
  }

  /** `addItem`: `[...prev[field], { ...TEMPLATES[field] }]`; a missing
      list is not iterable, so the update throws. */
  function ItemAdded(form: Form, field: string): (r: Option<Form>)
    ensures Iterate(At(form, field)).None? ==> r.None?
    ensures Iterate(At(form, field)).Some? ==>
      r == Some(form[field := Arr(Appended(Iterate(At(form, field)).value, Template(field)))])
  {
    match Iterate(At(form, field))
    case None => None
    case Some(xs) => Some(form[field := Arr(Appended(xs, Template(field)))])
  }

  /** Unlike pages/Profile.jsx, adding to a field the form lacks fails. */
  lemma AddItemNeedsList(form: Form, field: string)
    requires field !in form
    ensures ItemAdded(form, field).None?
  {
  }

  /** Adding to a list grows it by one template entry and changes nothing
      else. */
  lemma AddItemGrows(form: Form, field: string, xs: seq<Json>)
    requires At(form, field) == Arr(xs)
    ensures var r := ItemAdded(form, field);
      && r.Some? && r.value[field] == Arr(Dense(xs) + [Obj(Template(field))])
      && (forall k :: k in form && k != field ==> k in r.value && r.value[k] == form[k])
  {
  }

  /** `{ ...p, endDate: p.isOngoing ? '' : p.endDate }` */
  function ProjectForSave(p: Json): (r: Json)
    ensures Truthy(Get(p, "isOngoing")) ==> Get(r, "endDate") == Str("")
    ensures !Truthy(Get(p, "isOngoing")) ==> Get(r, "endDate") == Get(p, "endDate")
    ensures forall k :: k != "endDate" ==> Get(r, k) == Get(p, k)
  {
    WithField(p, "endDate", if Truthy(Get(p, "isOngoing")) then Str("") else Get(p, "endDate"))
  }

  /** The save payload: total experience and skill years as numbers, and
      ongoing projects without an end date. None when `skills` or
      `projects` is not an array or holds a `null` or `undefined` entry;
      `map` skips holes. */
  function SavePayload(form: Form): (r: Option<Form>)
    ensures r.Some? <==>
      MapEntries(At(form, "skills"), SkillWithYears).Some? && MapEntries(At(form, "projects"), ProjectForSave).Some?
  {
    match MapEntries(At(form, "skills"), SkillWithYears)
    case None => None
    case Some(skills) =>
      match MapEntries(At(form, "projects"), ProjectForSave)
      case None => None
      case Some(projects) =>
        Some(form["totalExperienceYear" := NumberOrZeroValue(At(form, "totalExperienceYear"))]
                 ["skills" := Arr(skills)]["projects" := Arr(projects)])
  }

  /** What the server receives: every other field as in the form, the same
      projects in the same order, each with its other keys, and an empty end
      date exactly for the ongoing ones. */
  lemma SavePayloadProjects(form: Form, skills: seq<Json>, projects: seq<Json>)
    requires At(form, "skills") == Arr(skills) && forall i :: 0 <= i < |skills| ==> !Nullish(skills[i])
    requires At(form, "projects") == Arr(projects) && forall i :: 0 <= i < |projects| ==> !Nullish(projects[i])
    ensures var r := SavePayload(form);
      && r.Some?
      && (forall k :: k in form && k != "totalExperienceYear" && k != "skills" && k != "projects" ==> k in r.value && r.value[k] == form[k])
      && r.value["totalExperienceYear"].Num?
      && r.value["projects"].Arr? && |r.value["projects"].elems| == |projects|
      && (forall i :: 0 <= i < |projects| && Truthy(Get(projects[i], "isOngoing")) ==>
            Get(r.value["projects"].elems[i], "endDate") == Str(""))
      && (forall i :: 0 <= i < |projects| && !Truthy(Get(projects[i], "isOngoing")) ==>
            Get(r.value["projects"].elems[i], "endDate") == Get(projects[i], "endDate"))
      && (forall i, k :: 0 <= i < |projects| && k != "endDate" ==>
            Get(r.value["projects"].elems[i], k) == Get(projects[i], k))
  {
  }

  /** Ticking "ongoing" on a project (an `updateItem` with the checkbox
      state) and saving sends that project without an end date. */
  lemma TickOngoingThenSave(form: Form, skills: seq<Json>, projects: seq<Json>, index: nat)
    requires At(form, "skills") == Arr(skills) && forall i :: 0 <= i < |skills| ==> !Nullish(skills[i])
    requires At(form, "projects") == Arr(projects) && forall i :: 0 <= i < |projects| ==> !Nullish(Read(projects[i]))
    requires index < |projects|
    ensures var ticked := UpdatedItem(form, "projects", index, "isOngoing", Bool(true));
      && ticked.Some?
      && var r := SavePayload(ticked.value);
      && r.Some? && r.value["projects"].Arr? && index < |r.value["projects"].elems|
      && Get(r.value["projects"].elems[index], "endDate") == Str("")
      && Get(r.value["projects"].elems[index], "isOngoing") == Bool(true)
  {
    UpdateItemLocal(form, "projects", projects, index, "isOngoing", Bool(true));
    var ticked := UpdatedItem(form, "projects", index, "isOngoing", Bool(true)).value;
    assert "skills" in ticked && ticked["skills"] == form["skills"];
    SavePayloadProjects(ticked, skills, ticked["projects"].elems);
  }

  /** The alert text of a failed save: `err.response?.data?.message ||
      err.message || 'Bir hata oluştu'` after a fixed prefix. */
  function SaveErrorText(err: Json): (r: string)
    ensures StartsWith(r, "Kaydedilirken hata oluştu: ")
    ensures var m := Get(Get(Get(err, "response"), "data"), "message");
      Truthy(m) ==> r == "Kaydedilirken hata oluştu: " + Numbers.ToJsString(m)
    ensures var m := Get(Get(Get(err, "response"), "data"), "message");
      m.Str? && m.s != "" ==> r == "Kaydedilirken hata oluştu: " + m.s
    ensures !Truthy(Get(Get(Get(err, "response"), "data"), "message")) && Truthy(Get(err, "message")) ==>
      r == "Kaydedilirken hata oluştu: " + Numbers.ToJsString(Get(err, "message"))
    ensures !Truthy(Get(Get(Get(err, "response"), "data"), "message")) && !Truthy(Get(err, "message")) ==>
      r == "Kaydedilirken hata oluştu: Bir hata oluştu"
  {
    var msg := Or(Or(Get(Get(Get(err, "response"), "data"), "message"), Get(err, "message")), Str("Bir hata oluştu"));
    "Kaydedilirken hata oluştu: " + Numbers.ToJsString(msg)
  }

  const SavedText: string := "Profil başarıyla güncellendi!"

  /** The editor component's state. */
  class ProfilePage {
    var form: Form
    var loading: bool
    var saving: bool
    /** A state update threw. React runs the updater again while rendering,
        the error escapes the render and, with no error boundary above the
        page, the whole app is unmounted; the form keeps its last value,
        which is no longer shown. */
    var crashed: bool

    constructor ()
      ensures form == EmptyProfile && !loading && !saving && !crashed
    {
      form := EmptyProfile;
      loading := false;
      saving := false;
      crashed := false;
    }

    method StartFetch()
      modifies this
      ensures loading && form == old(form) && saving == old(saving) && crashed == old(crashed)
    {
      loading := true;
    }

    /** After the profile request (`response` None when it failed): the
        data is merged with every list defaulted to [], and the loader goes
        away in either case. */
    method FinishFetch(response: Option<Json>)
      modifies this
      ensures !loading && saving == old(saving) && crashed == old(crashed)
      ensures response.Some? ==> form == Merged(old(form), Or(Get(response.value, "data"), Obj(map[])))
      ensures response.None? ==> form == old(form)
    {
      if response.Some? {
        form := Merged(form, Or(Get(response.value, "data"), Obj(map[])));
      }
      loading := false;
    }

    method HandleChange(name: string, value: string, isCheckbox: bool, checked: bool)
      modifies this
      ensures form == Changed(old(form), name, value, isCheckbox, checked)
      ensures loading == old(loading) && saving == old(saving) && crashed == old(crashed)
    {
      form := form[name := InputValue(name, value, isCheckbox, checked)];
    }

    method AddItem(field: string)
      modifies this
      ensures form == ItemAdded(old(form), field).GetOr(old(form))
      ensures crashed == (old(crashed) || ItemAdded(old(form), field).None?)
      ensures loading == old(loading) && saving == old(saving)
    {
      var list := Iterate(At(form, field));
      if list.Some? {
        form := form[field := Arr(list.value + [Obj(Template(field))])];
      } else {
        crashed := true;
      }
    }

    method RemoveItem(field: string, index: int)
      modifies this
      ensures form == RemovedItem(old(form), field, index).GetOr(old(form))
      ensures crashed == (old(crashed) || RemovedItem(old(form), field, index).None?)
      ensures loading == old(loading) && saving == old(saving)
    {
      var list := At(form, field);
      if list.Arr? {
        form := form[field := Arr(RemoveAt(list.elems, index))];
      } else {
        crashed := true;
      }
    }

    method UpdateItem(field: string, index: nat, subField: string, value: Json)
      modifies this
      ensures form == UpdatedItem(old(form), field, index, subField, value).GetOr(old(form))
      ensures crashed == (old(crashed) || UpdatedItem(old(form), field, index, subField, value).None?)
      ensures loading == old(loading) && saving == old(saving)
    {
      var list := Iterate(At(form, field));
      if list.Some? {
        var xs := list.value;
        form := form[field := Arr(SetAt(xs, index, WithField(Nth(xs, index), subField, value)))];
      } else {
        crashed := true;
      }
    }

    /** `handleSave` up to the request; a payload that cannot be built ends
        the handler: the alert carries the message of the TypeError the
        browser raised (`thrown`), and `saving` is reset. */
    method StartSave(thrown: Json) returns (payload: Option<Form>, alert: Option<string>)
      modifies this
      ensures payload == SavePayload(old(form))
      ensures saving <==> payload.Some?
      ensures alert.Some? <==> payload.None?
      ensures alert.Some? ==> alert.value == SaveErrorText(thrown)
      ensures form == old(form) && loading == old(loading) && crashed == old(crashed)
    {
      saving := true;
      payload := SavePayload(form);
      alert := None;
      if payload.None? {
        alert := Some(SaveErrorText(thrown));
        saving := false;
      }
    }

    /** `handleSave` after the request: on success the returned data is
        merged and the success alert shown; on failure (`response` holds the
        error) the form stays and the alert carries the error message.
        `saving` is reset on both paths. */
    method FinishSave(response: Result<Json, Json>) returns (alert: string)
      modifies this
      ensures !saving && loading == old(loading) && crashed == old(crashed)
      ensures response.Ok? ==> form == Refreshed(old(form), Get(response.value, "data")) && alert == SavedText
      ensures response.Err? ==> form == old(form) && alert == SaveErrorText(response.error)
    {
      if response.Ok? {
        form := Refreshed(form, Get(response.value, "data"));
        alert := SavedText;
      } else {
        alert := SaveErrorText(response.error);
      }
      saving := false;
    }
  }
}
