/** Tenant activation: the status flip, the list update that applies it to the
    tenant with the matching `_id`, and the choice of the tenant list from the
    answer of `/api/tenants`. */
module ActiveDeactive {
  import opened Common

  datatype Tenant = Tenant(id: string, tenantId: string, name: string, contactEmail: string, status: string)

  const NoTokenFound := "No token found"
  const FetchFailed := "Failed to fetch tenants"
  const UpdateFailed := "Failed to update status"

  /** `currentStatus === "active" ? "inactive" : "active"`. */
  function NewStatus(current: string): (r: string)
    ensures r == "inactive" <==> current == "active"
    ensures r == "active" <==> current != "active"
  {
    if current == "active" then "inactive" else "active"
  }

  /** Flipping twice gives back a status that is "active" or "inactive"; any other
      status comes back as "inactive". */
  lemma FlipTwice(s: string)
    ensures s == "active" || s == "inactive" ==> NewStatus(NewStatus(s)) == s
    ensures s != "active" && s != "inactive" ==> NewStatus(NewStatus(s)) == "inactive"
  {
  }

  /** The button's label announces the status the click will set. */
  function ButtonLabel(status: string): (caption: string)
    ensures caption == "Deactivate" <==> NewStatus(status) == "inactive"
    ensures caption == "Activate" <==> NewStatus(status) == "active"
  {
    if status == "active" then "Deactivate" else "Activate"
  }

  /** `prev.map((t) => t._id === id ? { ...t, status } : t)`. */
  function UpdateStatus(tenants: seq<Tenant>, id: string, status: string): (r: seq<Tenant>)
    ensures |r| == |tenants|
    ensures forall i :: 0 <= i < |tenants| ==>
      if tenants[i].id == id then r[i] == tenants[i].(status := status) else r[i] == tenants[i]
  {
    if tenants == [] then []
    else [if tenants[0].id == id then tenants[0].(status := status) else tenants[0]]
         + UpdateStatus(tenants[1..], id, status)
  }

  predicate UniqueIds(tenants: seq<Tenant>)
  {
    forall i, j :: 0 <= i < j < |tenants| ==> tenants[i].id != tenants[j].id
  }

  /** Clicking a tenant's button twice, each time with the status it then shows,
      restores the list when that status was "active" or "inactive". */
  lemma ClickTwiceRestores(tenants: seq<Tenant>, i: nat)
    requires i < |tenants| && UniqueIds(tenants)
    requires tenants[i].status == "active" || tenants[i].status == "inactive"
    ensures var once := UpdateStatus(tenants, tenants[i].id, NewStatus(tenants[i].status));
            UpdateStatus(once, tenants[i].id, NewStatus(once[i].status)) == tenants
  {
    var id := tenants[i].id;
    var once := UpdateStatus(tenants, id, NewStatus(tenants[i].status));
    var twice := UpdateStatus(once, id, NewStatus(once[i].status));
    forall j | 0 <= j < |tenants|
      ensures twice[j] == tenants[j]
    {
      if j != i {
        assert tenants[j].id != id;
      }
    }
  }

  /** What `toggleStatus` ends with: the list, the request it sent (the tenant's
      `tenantId` and the new status) and the alert it raised, if any. */
  datatype Toggle = Toggle(tenants: seq<Tenant>, request: Option<(string, string)>, alert: Option<string>)

  /** `toggleStatus(id, tenantId, currentStatus)`: without a token nothing happens;
      otherwise the new status is sent for `tenantId`, and only once the request
      succeeds is it applied to the tenant with `_id` equal to `id`. */
  function ToggleStatus(tenants: seq<Tenant>, token: Option<string>, id: string, tenantId: string,
                        currentStatus: string, put: Call<()>): (r: Toggle)
    ensures (token.None? || token == Some("")) ==> r == Toggle(tenants, None, None)
    ensures token.Some? && token.value != "" ==> r.request == Some((tenantId, NewStatus(currentStatus)))
    ensures token.Some? && token.value != "" && put.Threw? ==> r.tenants == tenants && r.alert == Some(UpdateFailed)
    ensures token.Some? && token.value != "" && put.Returned? ==>
      r.tenants == UpdateStatus(tenants, id, NewStatus(currentStatus)) && r.alert.None?
  {
    if token.None? || token.value == "" then Toggle(tenants, None, None)
    else
      var newStatus := NewStatus(currentStatus);
      if put.Returned? then Toggle(UpdateStatus(tenants, id, newStatus), Some((tenantId, newStatus)), None)
      else Toggle(tenants, Some((tenantId, newStatus)), Some(UpdateFailed))
  }

  /** The `data` field of the answer: absent or falsy, an array of tenants, or a
      page object whose `docs` may be missing. */
  datatype DataField = Falsy | TenantArray(items: seq<Tenant>) | Paged(docs: Option<seq<Tenant>>)

  /** `res.data?.data?.docs || res.data?.data || []`. An array is truthy even when
      empty, and has no `docs`. A page object without `docs` is itself chosen, which
      is not a list: that case is `None`. */
  function SelectTenants(data: Option<DataField>): (r: Option<seq<Tenant>>)
    ensures (data.None? || data == Some(Falsy)) ==> r == Some([])
    ensures data.Some? && data.value.TenantArray? ==> r == Some(data.value.items)
    ensures data.Some? && data.value.Paged? ==> r == data.value.docs
  {
    match data
    case None => Some([])
    case Some(Falsy) => Some([])
    case Some(TenantArray(items)) => Some(items)
    case Some(Paged(docs)) => if docs.Some? then docs else None
  }

  /** The page after `fetchTenants`: the list (`None` when a non-list was chosen),
      the error shown, and whether the request was made. Loading is over on every
      path. */
  datatype Fetch = Fetch(tenants: Option<seq<Tenant>>, error: Option<string>, requested: bool)

  function FetchTenants(token: Option<string>, get: Call<Option<DataField>>): (r: Fetch)
    ensures (token.None? || token == Some("")) ==> r == Fetch(Some([]), Some(NoTokenFound), false)
    ensures token.Some? && token.value != "" ==> r.requested
    ensures token.Some? && token.value != "" && get.Threw? ==> r == Fetch(Some([]), Some(FetchFailed), true)
    ensures token.Some? && token.value != "" && get.Returned? ==> r == Fetch(SelectTenants(get.value), None, true)
  {
    if token.None? || token.value == "" then Fetch(Some([]), Some(NoTokenFound), false)
    else if get.Threw? then Fetch(Some([]), Some(FetchFailed), true)
    else Fetch(SelectTenants(get.value), None, true)
  }
}
