/** The gym-creation form: a record of text fields, a checkbox, two nested
    sections (`location`, `businessDetails`) and a list of business hours, with
    the change handler that dispatches on checkbox, dotted and plain input names. */
module CreateGymForm {
  import opened Common
  import opened Strings
  import opened Json

  const DaysOfWeek: seq<string> := ["monday"]

  datatype Hours = Hours(day: string, open: string, close: string)

  datatype HoursField = Open | Close

  /** What `handleChange` reads from its event: `name`, `value`, `type` and, for a
      checkbox, `checked`. */
  datatype ChangeEvent = ChangeEvent(name: string, value: string, isCheckbox: bool, checked: bool)

  /** The initial form but its business hours. */
  const InitialFields: Object := map[
    "name" := JStr(""), "domain" := JStr(""), "contactEmail" := JStr(""),
    "ownerName" := JStr(""), "ownerEmail" := JStr(""), "ownerPassword" := JStr(""),
    "contactPhone" := JStr(""), "subscriptionType" := JStr("monthly"), "autoRenew" := JBool(true),
    "billingAddress" := JStr(""),
    "location" := JObj(map["address" := JStr(""), "city" := JStr(""), "state" := JStr(""),
                           "zipCode" := JStr(""), "country" := JStr("India")]),
    "businessDetails" := JObj(map["gstNumber" := JStr(""), "registrationNumber" := JStr(""),
                                  "businessType" := JStr("sole_proprietorship")])
  ]

  /** `daysOfWeek.map((day) => ({ day, open: "", close: "" }))`. */
  function InitialHours(days: seq<string>): (r: seq<Hours>)
    ensures |r| == |days|
    ensures forall i :: 0 <= i < |days| ==> r[i] == Hours(days[i], "", "")
  {
    seq(|days|, i requires 0 <= i < |days| => Hours(days[i], "", ""))
  }

  /** The defaults: monthly subscription, auto-renewal on, India, sole
      proprietorship, and one empty hours entry for "monday". */
  lemma InitialDefaults()
    ensures Lookup(Some(JObj(InitialFields)), ["subscriptionType"]) == Some(JStr("monthly"))
    ensures Lookup(Some(JObj(InitialFields)), ["autoRenew"]) == Some(JBool(true))
    ensures Lookup(Some(JObj(InitialFields)), ["location", "country"]) == Some(JStr("India"))
    ensures Lookup(Some(JObj(InitialFields)), ["businessDetails", "businessType"]) == Some(JStr("sole_proprietorship"))
    ensures InitialHours(DaysOfWeek) == [Hours("monday", "", "")]
  {
  }

  /** `{ ...prev[section], [key]: value }`: the section's own fields (nothing when
      it is not an object) with one key set. */
  function SectionWith(prev: Option<Json>, key: string, value: Json): (r: Object)
    ensures key in r && r[key] == value
    ensures forall k :: k != key ==> (k in r <==> prev.Some? && prev.value.JObj? && k in prev.value.fields)
    ensures forall k :: k != key && k in r ==> r[k] == prev.value.fields[k]
  {
    (if prev.Some? && prev.value.JObj? then prev.value.fields else map[])[key := value]
  }

  /** The top-level field a change event writes: the section before the first '.'
      of a dotted name, otherwise the name itself. */
  function ChangedKey(e: ChangeEvent): string
  {
    if !e.isCheckbox && '.' in e.name then Split(e.name, '.')[0] else e.name
  }

  /** `handleChange`: a checkbox sets its named field to `checked`; otherwise a
      name with a '.' sets, within the section before the first '.', the key
      between the first and the second '.'; any other name sets that field.
      Only the written top-level field changes. */
  function Changed(fields: Object, e: ChangeEvent): (r: Object)
    ensures r.Keys == fields.Keys + {ChangedKey(e)}
    ensures forall k :: k in fields && k != ChangedKey(e) ==> r[k] == fields[k]
    ensures e.isCheckbox ==> r[e.name] == JBool(e.checked)
    ensures !e.isCheckbox && '.' !in e.name ==> r[e.name] == JStr(e.value)
    ensures !e.isCheckbox && '.' in e.name ==>
      Lookup(Some(JObj(r)), Split(e.name, '.')[..2]) == Some(JStr(e.value))
  {
    if e.isCheckbox then fields[e.name := JBool(e.checked)]
    else if '.' in e.name then
      var parts := Split(e.name, '.');
      var r := fields[parts[0] := JObj(SectionWith(Field(fields, parts[0]), parts[1], JStr(e.value)))];
      assert parts[..2] == [parts[0], parts[1]];
      r
    else fields[e.name := JStr(e.value)]
  }

  /** A dotted change sets `section.key` and leaves every sibling key of the section
      and every other top-level field as it was. */
  lemma {:induction false} DottedChangeIsLocal(fields: Object, section: string, key: string, value: string, other: string)
    requires '.' !in section && '.' !in key && section in fields && fields[section].JObj?
    ensures var r := Changed(fields, ChangeEvent(section + "." + key, value, false, false));
      && Lookup(Some(JObj(r)), [section, key]) == Some(JStr(value))
      && (other != key ==> Lookup(Some(JObj(r)), [section, other]) == Lookup(Some(JObj(fields)), [section, other]))
      && (other != section ==> Field(r, other) == Field(fields, other))
  {
    var name := section + "." + key;
    SplitPrefix(section, key, '.');
    SplitPrefix(key, "", '.');
    assert name == section + ['.'] + key;
    assert '.' in name by { assert name[|section|] == '.'; }
    assert Split(name, '.') == [section, key];
  }

  class GymFormPage {
    var fields: Object
    var businessHours: seq<Hours>

    constructor ()
      ensures fields == InitialFields && businessHours == InitialHours(DaysOfWeek)
    {
      fields := InitialFields;
      businessHours := InitialHours(DaysOfWeek);
    }

    /** `handleChange` for the inputs of the form, none of which is named
        `businessHours`. */
    method HandleChange(e: ChangeEvent)
      modifies this`fields
      ensures fields == Changed(old(fields), e)
    {
      fields := Changed(fields, e);
    }

    /** `handleBusinessHoursChange(index, field, value)`: the copied list has entry
        `index` changed in its one field, in place. An index past the end would make
        the write throw; that is `false`, with nothing changed. */
    method HandleBusinessHoursChange(index: int, field: HoursField, value: string) returns (ok: bool)
      modifies this`businessHours
      ensures ok <==> 0 <= index < old(|businessHours|)
      ensures |businessHours| == old(|businessHours|)
      ensures forall i :: 0 <= i < |businessHours| && i != index ==> businessHours[i] == old(businessHours[i])
      ensures ok && field == Open ==> businessHours[index] == old(businessHours[index]).(open := value)
      ensures ok && field == Close ==> businessHours[index] == old(businessHours[index]).(close := value)
      ensures !ok ==> businessHours == old(businessHours)
    {
      if !(0 <= index < |businessHours|) {
        return false;
      }
      var updatedHours := businessHours;
      var entry := updatedHours[index];
      if field == Open {
        entry := entry.(open := value);
      } else {
        entry := entry.(close := value);
      }
      updatedHours := updatedHours[index := entry];
      businessHours := updatedHours;
      ok := true;
    }
  }
}
