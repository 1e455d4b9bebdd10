/** The staff page: the fetched users split into members, trainers and front-desk
    staff by three filters on the role. */
module StaffPage {
  import opened Common

  datatype StaffUser = StaffUser(id: string, name: string, email: string, role: string, branch: Option<string>)

  predicate HasRole(role: string, u: StaffUser)
  {
    u.role == role
  }

  function Members(staff: seq<StaffUser>): seq<StaffUser>
  {
    Filter(staff, u => HasRole("member", u))
  }

  function Trainers(staff: seq<StaffUser>): seq<StaffUser>
  {
    Filter(staff, u => HasRole("trainer", u))
  }

  function Frontdesk(staff: seq<StaffUser>): seq<StaffUser>
  {
    Filter(staff, u => HasRole("frontdesk", u))
  }

  /** Each list holds exactly the users with its role. */
  lemma ListsByRole(staff: seq<StaffUser>, u: StaffUser)
    requires u in staff
    ensures u in Members(staff) <==> u.role == "member"
    ensures u in Trainers(staff) <==> u.role == "trainer"
    ensures u in Frontdesk(staff) <==> u.role == "frontdesk"
  {
    var i :| 0 <= i < |staff| && staff[i] == u;
  }

  /** The lists are pairwise disjoint, and a user with any other role (an owner, a
      manager) is in none of them. */
  lemma ListsDisjoint(staff: seq<StaffUser>, u: StaffUser)
    ensures !(u in Members(staff) && u in Trainers(staff))
    ensures !(u in Members(staff) && u in Frontdesk(staff))
    ensures !(u in Trainers(staff) && u in Frontdesk(staff))
    ensures u.role !in {"member", "trainer", "frontdesk"} ==>
      u !in Members(staff) && u !in Trainers(staff) && u !in Frontdesk(staff)
  {
    if u in Members(staff) {
      var i :| 0 <= i < |Members(staff)| && Members(staff)[i] == u;
    }
    if u in Trainers(staff) {
      var i :| 0 <= i < |Trainers(staff)| && Trainers(staff)[i] == u;
    }
    if u in Frontdesk(staff) {
      var i :| 0 <= i < |Frontdesk(staff)| && Frontdesk(staff)[i] == u;
    }
  }

  /** The three lists together are no longer than the input. */
  lemma {:induction false} ListsFitInInput(staff: seq<StaffUser>)
    ensures |Members(staff)| + |Trainers(staff)| + |Frontdesk(staff)| <= |staff|
  {
    if staff != [] {
      ListsFitInInput(staff[1..]);
    }
  }

  /** Each list keeps the input order: the lists of a concatenation are the
      concatenations of the lists. */
  lemma ListsKeepOrder(a: seq<StaffUser>, b: seq<StaffUser>)
    ensures Members(a + b) == Members(a) + Members(b)
    ensures Trainers(a + b) == Trainers(a) + Trainers(b)
    ensures Frontdesk(a + b) == Frontdesk(a) + Frontdesk(b)
  {
    FilterConcat(a, b, u => HasRole("member", u));
    FilterConcat(a, b, u => HasRole("trainer", u));
    FilterConcat(a, b, u => HasRole("frontdesk", u));
  }
}
