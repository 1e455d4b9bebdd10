/** The address card: nine fixed fields of the user shown as text, or edited in
    nine inputs and saved back. */
module UserAddressCard {
  import opened Common
  import opened Json

  /** `FIXED_FIELDS`: key and label of each row, in order. */
  const FixedFields: seq<(string, string)> := [
    ("name", "Name"), ("email", "Email"), ("phone", "Phone"), ("role", "Role"),
    ("gender", "Gender"), ("address", "Address"), ("dob", "Date of Birth"),
    ("createdAt", "Created At"), ("updatedAt", "Updated At")
  ]

  lemma FixedFieldsShape()
    ensures |FixedFields| == 9
    ensures forall i, j :: 0 <= i < j < |FixedFields| ==> FixedFields[i].0 != FixedFields[j].0
  {
  }

  /** `getFieldValue(field)`: the user's value when truthy, "NA" otherwise. */
  function GetFieldValue(user: Object, field: string): (r: Json)
    ensures Truthy(Field(user, field)) ==> r == user[field]
    ensures !Truthy(Field(user, field)) ==> r == JStr("NA")
  {
    if Truthy(Field(user, field)) then user[field] else JStr("NA")
  }

  /** The display view: one row per fixed field, its label and `getFieldValue`. */
  function DisplayRows(user: Object): (rows: seq<(string, Json)>)
    ensures |rows| == |FixedFields|
    ensures forall i :: 0 <= i < |rows| ==> rows[i] == (FixedFields[i].1, GetFieldValue(user, FixedFields[i].0))
  {
    seq(|FixedFields|, i requires 0 <= i < |FixedFields| => (FixedFields[i].1, GetFieldValue(user, FixedFields[i].0)))
  }

  /** The edit view: one input per fixed field, named by its key, holding
      `formData[key] || ""`. */
  function EditRows(formData: Object): (rows: seq<(string, string, Json)>)
    ensures |rows| == |FixedFields|
    ensures forall i :: 0 <= i < |rows| ==>
      rows[i] == (FixedFields[i].1, FixedFields[i].0, InputValue(Field(formData, FixedFields[i].0)))
  {
    seq(|FixedFields|, i requires 0 <= i < |FixedFields| =>
      (FixedFields[i].1, FixedFields[i].0, InputValue(Field(formData, FixedFields[i].0))))
  }

  /** Both views list the same nine labels in the same order, and a truthy value
      reads the same in both; a missing or falsy one shows "NA" as text and an
      empty input. */
  lemma ViewsAgree(user: Object, i: nat)
    requires i < |FixedFields|
    ensures DisplayRows(user)[i].0 == EditRows(user)[i].0 == FixedFields[i].1
    ensures Truthy(Field(user, FixedFields[i].0)) ==> DisplayRows(user)[i].1 == EditRows(user)[i].2 == user[FixedFields[i].0]
    ensures !Truthy(Field(user, FixedFields[i].0)) ==> DisplayRows(user)[i].1 == JStr("NA") && EditRows(user)[i].2 == JStr("")
  {
  }

  class AddressCard {
    var user: Option<Object>
    var loading: bool
    var editMode: bool
    var formData: Object

    constructor ()
      ensures user.None? && loading && !editMode && formData == map[]
    {
      user := None;
      loading := true;
      editMode := false;
      formData := map[];
    }

    /** The profile fetch: on success user and form both hold the answer. */
    method FetchProfile(call: Call<Object>)
      modifies this`user, this`formData, this`loading
      ensures !loading
      ensures call.Returned? ==> user == Some(call.value) && formData == call.value
      ensures call.Threw? ==> user == old(user) && formData == old(formData)
    {
      if call.Returned? {
        user := Some(call.value);
        formData := call.value;
      }
      loading := false;
    }

    method Edit()
      modifies this`editMode
      ensures editMode
    {
      editMode := true;
    }

    /** `handleChange`: `{ ...formData, [name]: value }`. */
    method HandleChange(name: string, value: string)
      modifies this`formData
      ensures formData == old(formData)[name := JStr(value)]
    {
      formData := formData[name := JStr(value)];
    }

    /** `handleSave`: once the backend accepts the form it becomes the user and edit
        mode ends; a failure changes nothing. */
    method HandleSave(call: Call<()>)
      modifies this`user, this`editMode
      ensures call.Returned? ==> user == Some(formData) && !editMode
      ensures call.Threw? ==> user == old(user) && editMode == old(editMode)
    {
      if call.Returned? {
        user := Some(formData);
        editMode := false;
      }
    }
  }

  /** Editing one field and saving shows the new value in that row (a non-empty
      value) and leaves every other row as it was. */
  method EditAndSave(loaded: Object, i: nat, value: string) returns (before: seq<(string, Json)>, after: seq<(string, Json)>)
    requires i < |FixedFields| && value != ""
    ensures |before| == |after| == |FixedFields|
    ensures after[i] == (FixedFields[i].1, JStr(value))
    ensures forall j :: 0 <= j < |FixedFields| && j != i ==> after[j] == before[j]
  {
    FixedFieldsShape();
    var card := new AddressCard();
    card.FetchProfile(Returned(loaded));
    before := DisplayRows(card.user.value);
    card.Edit();
    card.HandleChange(FixedFields[i].0, value);
    card.HandleSave(Returned(()));
    after := DisplayRows(card.user.value);
  }
}
