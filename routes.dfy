/** The route table: four public paths, and one layout entry behind a
    `ProtectedRoute` without a role list whose children each carry their own
    `allowedRoles`. Only the table is modelled; what `ProtectedRoute` does with
    it is not part of this model. */
module Routes {
  import opened Common

  datatype Route = Route(path: string, allowedRoles: seq<string>)

  /** A top-level entry: a public page, or the guarded layout and its children. */
  datatype Entry = PublicPage(path: string) | GuardedLayout(children: seq<Route>)

  const Everyone: seq<string> := ["superadmin", "owner", "frontdesk", "trainer", "member"]

  const Children: seq<Route> := [
    Route("/home", Everyone),
    Route("/members", ["superadmin", "owner", "frontdesk"]),
    Route("/users", ["superadmin", "owner"]),
    Route("/AdminDashboard", ["superadmin"]),
    Route("/admin/CreateGymForm", ["superadmin"]),
    Route("/admin/ShowOwnerList", ["superadmin"]),
    Route("/admin/activeDeactive", ["superadmin"]),
    Route("/staff", ["superadmin"]),
    Route("/trainerdashboard", ["owner"]),
    Route("/trainer/assignedmembers", ["owner"]),
    Route("/frontdeskFeature", ["owner", "frontdesk"]),
    Route("/createtrainer", ["owner", "frontdesk"]),
    Route("/createmember", ["owner", "frontdesk"]),
    Route("/trainer/profile", Everyone),
    Route("/trainer/showlist", Everyone)
  ]

  /** `routes`; the `/unauthorized` and `*` entries are commented out in the source
      and so are absent here. */
  const Table: seq<Entry> := [
    PublicPage("/"), PublicPage("/signin"), PublicPage("/signup"), PublicPage("/register"),
    GuardedLayout(Children)
  ]

  /** The paths of the public entries, in table order. */
  function PublicPaths(table: seq<Entry>): seq<string>
  {
    if table == [] then []
    else (if table[0].PublicPage? then [table[0].path] else []) + PublicPaths(table[1..])
  }

  /** The public paths are exactly the paths of the public entries. */
  lemma {:induction false} PublicPathsMembers(table: seq<Entry>, p: string)
    ensures p in PublicPaths(table) <==> exists i :: 0 <= i < |table| && table[i] == PublicPage(p)
  {
    if table != [] {
      PublicPathsMembers(table[1..], p);
      if p in PublicPaths(table[1..]) {
        var i :| 0 <= i < |table[1..]| && table[1..][i] == PublicPage(p);
        assert table[i + 1] == PublicPage(p);
      }
      if exists i :: 0 <= i < |table| && table[i] == PublicPage(p) {
        var i :| 0 <= i < |table| && table[i] == PublicPage(p);
        if i > 0 {
          assert table[1..][i - 1] == PublicPage(p);
        }
      }
    }
  }

  /** The children of every guarded layout, in table order. */
  function GuardedRoutes(table: seq<Entry>): seq<Route>
  {
    if table == [] then []
    else (if table[0].GuardedLayout? then table[0].children else []) + GuardedRoutes(table[1..])
  }

  /** The guarded routes are exactly the children of the guarded layouts. */
  lemma {:induction false} GuardedRoutesMembers(table: seq<Entry>, rt: Route)
    ensures rt in GuardedRoutes(table) <==>
      exists i :: 0 <= i < |table| && table[i].GuardedLayout? && rt in table[i].children
  {
    if table != [] {
      GuardedRoutesMembers(table[1..], rt);
      if rt in GuardedRoutes(table[1..]) {
        var i :| 0 <= i < |table[1..]| && table[1..][i].GuardedLayout? && rt in table[1..][i].children;
        assert table[i + 1] == table[1..][i];
      }
      if exists i :: 0 <= i < |table| && table[i].GuardedLayout? && rt in table[i].children {
        var i :| 0 <= i < |table| && table[i].GuardedLayout? && rt in table[i].children;
        if i > 0 {
          assert table[1..][i - 1] == table[i];
        }
      }
    }
  }

  function Paths(routes: seq<Route>): (r: seq<string>)
    ensures |r| == |routes| && forall i :: 0 <= i < |routes| ==> r[i] == routes[i].path
  {
    seq(|routes|, i requires 0 <= i < |routes| => routes[i].path)
  }

  /** Every path the table declares, public or guarded. */
  function AllPaths(): seq<string>
  {
    PublicPaths(Table) + Paths(GuardedRoutes(Table))
  }

  /** The allow-list of the first guarded route with this path, if any. */
  function AllowedRoles(routes: seq<Route>, path: string): (r: Option<seq<string>>)
    ensures r.Some? <==> exists i :: 0 <= i < |routes| && routes[i].path == path
    ensures r.Some? ==> exists i :: 0 <= i < |routes| && routes[i].path == path && routes[i].allowedRoles == r.value
  {
    if routes == [] then None
    else if routes[0].path == path then Some(routes[0].allowedRoles)
    else AllowedRoles(routes[1..], path)
  }

  /** The table lets `role` reach the guarded `path`. */
  predicate Permits(path: string, role: string)
  {
    var r := AllowedRoles(GuardedRoutes(Table), path);
    r.Some? && role in r.value
  }

  predicate Distinct(s: seq<string>)
  {
    forall i, j :: 0 <= i < j < |s| ==> s[i] != s[j]
  }

  lemma GuardedRoutesAreChildren()
    ensures GuardedRoutes(Table) == Children
  {
    assert GuardedRoutes(Table[4..]) == Children;
    assert GuardedRoutes(Table[3..]) == Children;
    assert GuardedRoutes(Table[2..]) == Children;
    assert GuardedRoutes(Table[1..]) == Children;
  }

  /** Exactly `/`, `/signin`, `/signup` and `/register` are unguarded, and every other
      route sits below the single layout entry, whose guard has no role list. */
  lemma PublicAndGuarded()
    ensures PublicPaths(Table) == ["/", "/signin", "/signup", "/register"]
    ensures forall i :: 0 <= i < |Table| && Table[i].GuardedLayout? ==> i == |Table| - 1
  {
    PublicPathsOfTable();
  }

  lemma PublicPathsOfTable()
    ensures PublicPaths(Table) == ["/", "/signin", "/signup", "/register"]
  {
    assert Table[5..] == [];
    assert PublicPaths(Table[4..]) == [];
    assert PublicPaths(Table[3..]) == ["/register"];
    assert PublicPaths(Table[2..]) == ["/signup", "/register"];
    assert PublicPaths(Table[1..]) == ["/signin", "/signup", "/register"];
  }

  /** Every guarded route declares a non-empty allow-list. */
  lemma EveryGuardedRouteHasRoles()
    ensures forall rt :: rt in GuardedRoutes(Table) ==> |rt.allowedRoles| > 0
  {
    GuardedRoutesAreChildren();
  }

  /** No two entries of the table share a path; the commented-out `/unauthorized`
      and `*` entries are not among them. */
  lemma PathsAreUnique()
    ensures Distinct(AllPaths())
    ensures "/unauthorized" !in AllPaths() && "*" !in AllPaths()
  {
    PublicAndGuarded();
    GuardedRoutesAreChildren();
    UniqueChildPaths();
    PublicAndChildPathsDiffer();
    var ps := AllPaths();
    assert forall k :: 4 <= k < |ps| ==> ps[k] == Children[k - 4].path;
    assert forall k :: 0 <= k < 4 ==> ps[k] == PublicPaths(Table)[k];
  }

  /** The route's allow-list, read from the table through the path lookup. */
  lemma AllowedAt(i: nat)
    requires i < |Children|
    ensures AllowedRoles(GuardedRoutes(Table), Children[i].path) == Some(Children[i].allowedRoles)
  {
    GuardedRoutesAreChildren();
    UniqueChildPaths();
    FirstMatch(Children, i);
  }

  lemma PublicAndChildPathsDiffer()
    ensures forall i, j :: 0 <= i < 4 && 0 <= j < |Children| ==>
      ["/", "/signin", "/signup", "/register"][i] != Children[j].path
    ensures forall j :: 0 <= j < |Children| ==> Children[j].path !in ["/unauthorized", "*"]
  {
  }

  lemma UniqueChildPaths()
    ensures forall i, j :: 0 <= i < j < |Children| ==> Children[i].path != Children[j].path
  {
  }

  lemma {:induction false} FirstMatch(routes: seq<Route>, i: nat)
    requires i < |routes|
    requires forall a, b :: 0 <= a < b < |routes| ==> routes[a].path != routes[b].path
    ensures AllowedRoles(routes, routes[i].path) == Some(routes[i].allowedRoles)
  {
    if i > 0 {
      FirstMatch(routes[1..], i - 1);
    }
  }

  /** Whether a guarded route admits a role is read off its own allow-list. */
  lemma PermitsAt(i: nat, role: string)
    requires i < |Children|
    ensures Permits(Children[i].path, role) <==> role in Children[i].allowedRoles
  {
    AllowedAt(i);
  }

  /** `/users` admits exactly `superadmin` and `owner`; a member is not admitted. */
  lemma UsersRoute(role: string)
    ensures Permits("/users", role) <==> role == "superadmin" || role == "owner"
    ensures !Permits("/users", "member")
  {
    PermitsAt(2, role);
    PermitsAt(2, "member");
  }

  const SuperadminPaths: seq<string> :=
    ["/AdminDashboard", "/admin/CreateGymForm", "/admin/ShowOwnerList", "/admin/activeDeactive", "/staff"]

  /** The superadmin pages admit no role but `superadmin`. */
  lemma SuperadminOnlyRoutes(k: nat, role: string)
    requires k < |SuperadminPaths|
    ensures Permits(SuperadminPaths[k], role) <==> role == "superadmin"
  {
    assert SuperadminPaths[k] == Children[k + 3].path;
    PermitsAt(k + 3, role);
  }

  /** `manager` is in no allow-list, so no guarded route admits it. */
  lemma ManagerAdmittedNowhere(path: string)
    ensures !Permits(path, "manager")
  {
    GuardedRoutesAreChildren();
    var r := AllowedRoles(Children, path);
    if r.Some? {
      var i :| 0 <= i < |Children| && Children[i].path == path && Children[i].allowedRoles == r.value;
      NoManagerList(i);
    }
  }

  lemma NoManagerList(i: nat)
    requires i < |Children|
    ensures "manager" !in Children[i].allowedRoles
  {
  }

  const MemberPaths: seq<string> := ["/home", "/trainer/profile", "/trainer/showlist"]

  /** `member` and `trainer` are admitted on `/home`, `/trainer/profile` and
      `/trainer/showlist` ... */
  lemma MemberAndTrainerAdmitted(k: nat, role: string)
    requires role == "member" || role == "trainer"
    requires k < |MemberPaths|
    ensures Permits(MemberPaths[k], role)
  {
    var i := if k == 0 then 0 else k + 12;
    assert MemberPaths[k] == Children[i].path;
    PermitsAt(i, role);
  }

  /** Only the first child and the last two list `member` or `trainer`. */
  lemma MemberAndTrainerRoutes(i: nat, role: string)
    requires role == "member" || role == "trainer"
    requires i < |Children| && role in Children[i].allowedRoles
    ensures i == 0 || i == 13 || i == 14
  {
  }

  /** ... and nowhere else. */
  lemma MemberAndTrainerNowhereElse(path: string, role: string)
    requires role == "member" || role == "trainer"
    requires Permits(path, role)
    ensures path in MemberPaths
  {
    GuardedRoutesAreChildren();
    var r := AllowedRoles(Children, path);
    var i :| 0 <= i < |Children| && Children[i].path == path && Children[i].allowedRoles == r.value;
    MemberAndTrainerRoutes(i, role);
    assert MemberPaths == [Children[0].path, Children[13].path, Children[14].path];
  }
}
