/** The profile page: the `/auth/me` answer merged with its `tenant` and `member`
    parts, the role-dependent choice of field sections, dotted-path display, the
    edit form whose nested setter walks a path and writes one value, and the
    save and cancel buttons that copy between the shown user and the form. */
module UserProfiles {
  import opened Common
  import opened Strings
  import opened Json

  const GeneralInfo := "General Info"
  const ContactInfo := "Contact Info"
  const BusinessInfo := "Business Info (Tenant)"
  const MemberInfo := "Member Info"
  const TrainerInfo := "Trainer Info"

  /** The field paths shown under each section heading. */
  const Sections: map<string, seq<string>> := map[
    GeneralInfo := ["name", "email", "role", "tenantId", "createdAt"],
    ContactInfo := ["phone", "address", "gender", "dob"],
    BusinessInfo := [
      "domain", "status", "subscriptionType", "contactEmail", "contactPhone", "billingAddress",
      "businessDetails.gstNumber", "businessDetails.registrationNumber", "businessDetails.businessType",
      "location.address", "location.city", "location.state", "location.zipCode", "location.country"],
    MemberInfo := ["planType", "assignedTrainer", "joinDate", "membershipEndDate", "profileImage", "image"],
    TrainerInfo := ["specialization", "branch"]
  ]

  const UpdatedAlert := "Profile updated successfully ✅"
  const UpdateFailedAlert := "Update failed ❌"

  /** `...(v || {})`: the fields an object value contributes to a spread; a falsy
      value contributes nothing. */
  function Spread(v: Option<Json>): (r: Object)
    ensures Truthy(v) && v.value.JObj? ==> r == v.value.fields
    ensures !Truthy(v) ==> r == map[]
  {
    if Truthy(v) && v.value.JObj? then v.value.fields else map[]
  }

  /** `{ ...data, ...(data.tenant || {}), ...(data.member || {}) }`: member fields win
      over tenant fields, which win over the answer's own. */
  function Merge(data: Object): (m: Object)
    ensures forall k :: k in m <==> k in data || k in Spread(Field(data, "tenant")) || k in Spread(Field(data, "member"))
    ensures forall k :: k in Spread(Field(data, "member")) ==> m[k] == Spread(Field(data, "member"))[k]
    ensures forall k :: k in Spread(Field(data, "tenant")) && k !in Spread(Field(data, "member")) ==>
      m[k] == Spread(Field(data, "tenant"))[k]
    ensures forall k :: k in data && k !in Spread(Field(data, "tenant")) && k !in Spread(Field(data, "member")) ==>
      m[k] == data[k]
  {
    data + Spread(Field(data, "tenant")) + Spread(Field(data, "member"))
  }

  /** An answer without a truthy `tenant` or `member` is shown as it came. */
  lemma MergeWithoutParts(data: Object)
    requires !Truthy(Field(data, "tenant")) && !Truthy(Field(data, "member"))
    ensures Merge(data) == data
  {
  }

  /** `getVisibleSections`: the switch on `user.role` (strict equality, so only a
      string role can match a case). Each section appears at most once, General
      Info first and Contact Info, when shown, second; any other role sees only
      General Info. */
  function VisibleSections(role: Option<Json>): (r: seq<string>)
    ensures |r| >= 1 && r[0] == GeneralInfo
    ensures forall i :: 0 <= i < |r| ==> r[i] in Sections
    ensures BusinessInfo in r <==> role == Some(JStr("owner"))
    ensures MemberInfo in r <==> role == Some(JStr("member"))
    ensures TrainerInfo in r <==> role == Some(JStr("trainer"))
    ensures ContactInfo in r <==> role in {Some(JStr("member")), Some(JStr("trainer")), Some(JStr("frontdesk")), Some(JStr("manager"))}
    ensures forall i, j :: 0 <= i < j < |r| ==> r[i] != r[j]
    ensures ContactInfo in r ==> r[1] == ContactInfo
  {
    match role
    case Some(JStr("superadmin")) => [GeneralInfo]
    case Some(JStr("owner")) => [GeneralInfo, BusinessInfo]
    case Some(JStr("member")) => [GeneralInfo, ContactInfo, MemberInfo]
    case Some(JStr("trainer")) => [GeneralInfo, ContactInfo, TrainerInfo]
    case Some(JStr("frontdesk")) => [GeneralInfo, ContactInfo]
    case Some(JStr("manager")) => [GeneralInfo, ContactInfo]
    case _ => [GeneralInfo]
  }

  /** One write of the nested setter, innermost object first: the object `frame.0`
      with its property `frame.1` set to the updated child. A failed child fails. */
  function Wrap(frame: (Object, string), child: Option<Object>): Option<Object>
  {
    if child.None? then None else Some(frame.0[frame.1 := JObj(child.value)])
  }

  /** The top-level object after the in-place writes along a chain of frames, the
      outermost first, when the innermost object becomes `x`. */
  function Plug(frames: seq<(Object, string)>, x: Option<Object>): (r: Option<Object>)
    ensures r.None? <==> x.None?
    decreases |frames|
  {
    if |frames| == 0 then x else Plug(frames[..|frames| - 1], Wrap(frames[|frames| - 1], x))
  }

  /** A field as rendered: an edit box with its value, or display text. */
  datatype Shown = Input(value: Json) | Text(text: string)

  class ProfilePage {
    var user: Option<Object>
    var loading: bool
    var editMode: bool
    var formData: Object

    constructor ()
      ensures user.None? && loading && !editMode && formData == map[]
    {
      user := None;
      loading := true;
      editMode := false;
      formData := map[];
    }

    /** "Loading..." is shown while the fetch is pending. */
    predicate ShowsLoading()
      reads this
    {
      loading
    }

    /** "No user data" is shown when the fetch is over without a user. */
    predicate ShowsNoUserData()
      reads this
    {
      !loading && user.None?
    }

    /** What the page shows for a field path: in edit mode an input holding the
        form's value or "", otherwise `show` of the user's value. */
    function FieldShown(path: string, stringify: Json -> string): (r: Shown)
      reads this
      requires user.Some?
      ensures editMode <==> r.Input?
      ensures editMode && !Truthy(GetNestedValue(formData, path)) ==> r == Input(JStr(""))
      ensures editMode && Truthy(GetNestedValue(formData, path)) ==> r == Input(GetNestedValue(formData, path).value)
      ensures !editMode && !Truthy(GetNestedValue(user.value, path)) ==> r == Text("NA")
      ensures !editMode && Truthy(GetNestedValue(user.value, path)) ==>
        r == Text(Show(GetNestedValue(user.value, path), stringify))
    {
      if editMode then Input(InputValue(GetNestedValue(formData, path)))
      else Text(Show(GetNestedValue(user.value, path), stringify))
    }

    /** The effect that loads the profile: on success user and form both hold the
        merged answer; on failure nothing but the loading flag changes. */
    method FetchProfile(call: Call<Object>)
      modifies this`user, this`formData, this`loading
      ensures !loading
      ensures call.Returned? ==> user == Some(Merge(call.value)) && formData == Merge(call.value)
      ensures call.Threw? ==> user == old(user) && formData == old(formData)
    {
      if call.Returned? {
        var merged := Merge(call.value);
        user := Some(merged);
        formData := merged;
      }
      loading := false;
    }

    method Edit()
      modifies this`editMode
      ensures editMode
    {
      editMode := true;
    }

    /** `handleChange(path, value)`: walks the components of `path` but the last,
        replacing a falsy step by `{}`, then writes `value` under the last one.
        A truthy primitive on the way makes the next property write throw a
        TypeError; here that is `false` with the form kept (the writes before it
        stored values already there, since below a step replaced by `{}` nothing can
        throw). This is the value-copy reading, in which the page's user is not
        touched; `ChangeAsWritten` models the in-place writes on shared objects. */
    method HandleChange(path: string, value: Json) returns (ok: bool)
      modifies this`formData
      ensures ok <==> SetPath(old(formData), Split(path, '.'), value).Some?
      ensures ok ==> formData == SetPath(old(formData), Split(path, '.'), value).value
      ensures !ok ==> formData == old(formData)
    {
      var parts := Split(path, '.');
      var updated := formData;
      var obj := updated;
      var frames: seq<(Object, string)> := [];
      var i := 0;
      while i < |parts| - 1
        invariant 0 <= i <= |parts| - 1
        invariant SetPath(updated, parts, value) == Plug(frames, SetPath(obj, parts[i..], value))
      {
        var next := Descend(obj, parts[i]);
        if next.None? {
          return false;
        }
        assert parts[i..][1..] == parts[i + 1..];
        frames := frames + [(obj, parts[i])];
        obj := next.value;
        i := i + 1;
      }
      assert parts[i..] == [parts[i]];
      formData := Plug(frames, Some(obj[parts[i] := value])).value;
      ok := true;
    }

    /** `handleSave`: once the backend accepts the form, it becomes the shown user
        and edit mode ends; a failure only alerts. */
    method HandleSave(call: Call<()>) returns (alert: string)
      modifies this`user, this`editMode
      ensures call.Returned? ==> user == Some(formData) && !editMode && alert == UpdatedAlert
      ensures call.Threw? ==> user == old(user) && editMode == old(editMode) && alert == UpdateFailedAlert
    {
      if call.Returned? {
        user := Some(formData);
        editMode := false;
        alert := UpdatedAlert;
      } else {
        alert := UpdateFailedAlert;
      }
    }

    /** The Cancel button, offered only while a user is shown: the form goes back
        to the shown user and edit mode ends. */
    method Cancel()
      requires user.Some?
      modifies this`formData, this`editMode
      ensures formData == user.value && !editMode
    {
      formData := user.value;
      editMode := false;
    }
  }

  /** Load a profile, edit any path, cancel: the form and the shown user are again
      the merged answer, whatever the edit was. */
  method EditThenCancel(data: Object, path: string, v: Json) returns (form: Object, shown: Object)
    ensures form == Merge(data) && shown == Merge(data)
  {
    var page := new ProfilePage();
    page.FetchProfile(Returned(data));
    page.Edit();
    var ok := page.HandleChange(path, v);
    page.Cancel();
    form := page.formData;
    shown := page.user.value;
  }

  /** Saving after an edit shows exactly the edited form. */
  method EditThenSave(data: Object, path: string, v: Json) returns (ok: bool, shown: Object)
    ensures ok ==> SetPath(Merge(data), Split(path, '.'), v).Some? && shown == SetPath(Merge(data), Split(path, '.'), v).value
    ensures ok ==> GetNestedValue(shown, path) == Some(v)
    ensures !ok ==> shown == Merge(data)
  {
    var page := new ProfilePage();
    page.FetchProfile(Returned(data));
    page.Edit();
    ok := page.HandleChange(path, v);
    var alert := page.HandleSave(Returned(()));
    shown := page.user.value;
  }

  // The page as written: `setUser(merged); setFormData(merged)` (and likewise
  // `setUser(formData)` on save, `setFormData(user)` on cancel) makes user and
  // form one object, and the setter's `{ ...prev }` copies only its top level,
  // so a nested write lands in an object the user still holds.

  /** User and form, and the top-level keys whose object the two share. */
  datatype Shared = Shared(user: Object, formData: Object, aliased: set<string>)

  /** A shared key holds one and the same object on both sides. */
  ghost predicate SharedOk(s: Shared)
  {
    forall k :: k in s.aliased ==> k in s.user && k in s.formData && s.user[k] == s.formData[k] && s.user[k].JObj?
  }

  /** User and form made the same object: every object-valued key is shared. */
  function Synced(obj: Object): (s: Shared)
    ensures SharedOk(s) && s.user == obj && s.formData == obj
  {
    Shared(obj, obj, set k | k in obj && obj[k].JObj?)
  }

  /** `handleChange` as written: the form changes as the setter says, and a nested
      write under a shared key changes the user's object too. */
  function ChangeAsWritten(s: Shared, path: string, v: Json): (r: Option<Shared>)
    requires SharedOk(s)
    ensures r.Some? <==> SetPath(s.formData, Split(path, '.'), v).Some?
    ensures r.Some? ==> SharedOk(r.value) && r.value.formData == SetPath(s.formData, Split(path, '.'), v).value
  {
    var parts := Split(path, '.');
    match SetPath(s.formData, parts, v)
    case None => None
    case Some(f) =>
      if |parts| >= 2 && parts[0] in s.aliased then
        NestedWriteGivesObject(s.formData, parts, v);
        Some(Shared(s.user[parts[0] := f[parts[0]]], f, s.aliased))
      else
        Some(Shared(s.user, f, s.aliased - {parts[0]}))
  }

  lemma {:induction false} NestedWriteGivesObject(obj: Object, parts: seq<string>, v: Json)
    requires |parts| >= 2 && SetPath(obj, parts, v).Some?
    ensures SetPath(obj, parts, v).value[parts[0]].JObj?
  {
  }

  /** Cancel as written, `setFormData(user)`: the form becomes the user object
      itself, every object-valued key shared again. */
  function CancelAsWritten(s: Shared): (r: Shared)
    ensures SharedOk(r) && r.user == s.user && r.formData == s.user
  {
    Synced(s.user)
  }

  /** As written, a nested edit of a loaded profile reaches the shown user: with
      edit mode off (after Cancel) the page shows the edited value although it was
      never saved. */
  lemma {:induction false} NestedEditReachesUser(s: Shared, path: string, v: Json)
    requires SharedOk(s)
    requires |Split(path, '.')| >= 2 && Split(path, '.')[0] in s.aliased
    requires ChangeAsWritten(s, path, v).Some?
    ensures GetNestedValue(ChangeAsWritten(s, path, v).value.user, path) == Some(v)
    ensures GetNestedValue(CancelAsWritten(ChangeAsWritten(s, path, v).value).formData, path) == Some(v)
  {
    var parts := Split(path, '.');
    var r := ChangeAsWritten(s, path, v).value;
    assert r.user[parts[0]] == r.formData[parts[0]];
    assert Lookup(Some(JObj(r.user)), parts) == Lookup(Some(JObj(r.formData)), parts) by {
      assert Member(Some(JObj(r.user)), parts[0]) == Member(Some(JObj(r.formData)), parts[0]);
    }
  }

  /** A profile whose location city is "Pune". */
  const PuneProfile: Object := map["role" := JStr("owner"), "location" := JObj(map["city" := JStr("Pune")])]

  lemma CityPathSplits()
    ensures Split("location.city", '.') == ["location", "city"]
  {
    var a, b := "location", "city";
    assert "location.city" == a + ['.'] + b;
    assert '.' !in a && '.' !in b;
    SplitPrefix(a, b, '.');
    SplitPrefix(b, "", '.');
  }

  /** The concrete case: load the Pune profile, type "Delhi" into location.city,
      press Cancel: the form still says "Delhi", not the loaded "Pune". */
  lemma CancelKeepsNestedEdit()
    ensures GetNestedValue(PuneProfile, "location.city") == Some(JStr("Pune"))
    ensures ChangeAsWritten(Synced(PuneProfile), "location.city", JStr("Delhi")).Some?
    ensures GetNestedValue(CancelAsWritten(ChangeAsWritten(Synced(PuneProfile), "location.city", JStr("Delhi")).value).formData,
                           "location.city") == Some(JStr("Delhi"))
  {
    CityPathSplits();
    var s := Synced(PuneProfile);
    assert "location" in s.aliased;
    assert Lookup(Some(JObj(PuneProfile)), ["location", "city"]) == Some(JStr("Pune"));
    NestedEditReachesUser(s, "location.city", JStr("Delhi"));
  }
}
