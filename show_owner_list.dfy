/** The owner-list page: the profile page's read-only view, whose merge also
    lifts `tenant.owner` to the top level and which shows an extra "Owner Info"
    section to owners. */
module ShowOwnerList {
  import opened Common
  import opened Json
  import UserProfiles

  const OwnerInfo := "Owner Info"

  const Sections: map<string, seq<string>> :=
    UserProfiles.Sections[OwnerInfo := ["owner.name", "owner.email", "owner.phone"]]

  /** `res.data.tenant?.owner`. */
  function TenantOwner(data: Object): Option<Json>
  {
    Member(Field(data, "tenant"), "owner")
  }

  /** The profile merge followed by `owner: res.data.tenant?.owner || undefined`: a
      truthy tenant owner is the `owner` field; otherwise `owner` is undefined, even
      where the answer or its member part had one. */
  function Merge(data: Object): (m: Object)
    ensures Truthy(TenantOwner(data)) ==> "owner" in m && m["owner"] == TenantOwner(data).value
    ensures !Truthy(TenantOwner(data)) ==> "owner" !in m
    ensures forall k :: k != "owner" ==> (k in m <==> k in UserProfiles.Merge(data))
    ensures forall k :: k != "owner" && k in m ==> m[k] == UserProfiles.Merge(data)[k]
  {
    var merged := UserProfiles.Merge(data);
    var owner := TenantOwner(data);
    if Truthy(owner) then merged["owner" := owner.value] else merged - {"owner"}
  }

  /** `getVisibleSections`: as on the profile page, but an owner also sees the
      "Owner Info" section, after the business section. */
  function VisibleSections(role: Option<Json>): (r: seq<string>)
    ensures forall i :: 0 <= i < |r| ==> r[i] in Sections
    ensures role == Some(JStr("owner")) ==> r == UserProfiles.VisibleSections(role) + [OwnerInfo]
    ensures role != Some(JStr("owner")) ==> r == UserProfiles.VisibleSections(role)
    ensures OwnerInfo in r <==> role == Some(JStr("owner"))
  {
    match role
    case Some(JStr("owner")) => [UserProfiles.GeneralInfo, UserProfiles.BusinessInfo, OwnerInfo]
    case _ => UserProfiles.VisibleSections(role)
  }

  /** Without a truthy tenant owner, every owner field shows "NA". */
  lemma {:induction false} OwnerFieldsWithoutOwner(data: Object, field: string, stringify: Json -> string)
    requires !Truthy(TenantOwner(data))
    ensures Show(Lookup(Some(JObj(Merge(data))), ["owner", field]), stringify) == "NA"
  {
    assert Member(Some(JObj(Merge(data))), "owner") == None;
    assert Lookup(Some(JObj(Merge(data))), ["owner", field]) == Lookup(None, ["owner", field][1..]);
  }

  /** With a tenant owner object, an owner field shows that owner's own field. */
  lemma {:induction false} OwnerFieldsFromTenant(data: Object, field: string)
    requires Truthy(TenantOwner(data)) && TenantOwner(data).value.JObj?
    ensures Lookup(Some(JObj(Merge(data))), ["owner", field]) == Field(TenantOwner(data).value.fields, field)
  {
    var m := Merge(data);
    assert Member(Some(JObj(m)), "owner") == TenantOwner(data);
    assert ["owner", field][1..] == [field];
    assert Lookup(TenantOwner(data), [field]) == Lookup(Member(TenantOwner(data), field), []);
  }

  /** The page's state: the merged answer, once loaded. */
  class OwnerListPage {
    var user: Option<Object>
    var loading: bool

    constructor ()
      ensures user.None? && loading
    {
      user := None;
      loading := true;
    }

    /** The loading effect: on success the merged answer is shown; on failure
        "No user data". */
    method FetchProfile(call: Call<Object>)
      modifies this
      ensures !loading
      ensures call.Returned? ==> user == Some(Merge(call.value))
      ensures call.Threw? ==> user == old(user)
    {
      if call.Returned? {
        user := Some(Merge(call.value));
      }
      loading := false;
    }

    /** The value shown for a field path. */
    function ValueShown(path: string, stringify: Json -> string): string
      reads this
      requires user.Some?
    {
      Show(GetNestedValue(user.value, path), stringify)
    }
  }
}
