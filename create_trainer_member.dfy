/** The admin page that creates trainers and members: the request payload, whose
    `specialization` field exists only for a trainer, the reset after success, and
    the trainer and member lists filtered from the fetched users. */
module CreateTrainerMember {
  import opened Common

  datatype AccountForm = AccountForm(name: string, email: string, password: string, phone: string,
                                     role: string, specialization: string)

  datatype ListedUser = ListedUser(id: string, name: string, email: string, phone: string, role: string)

  /** The values the role select offers. */
  const RoleChoices: seq<string> := ["trainer", "member"]

  /** The form as it starts and as a successful create leaves it. */
  const InitialForm := AccountForm("", "", "", "", "trainer", "")

  const CreateSucceeded := "User created successfully!"
  const CreateFailed := "Error creating user"

  /** The payload of `handleSubmit`: the five common fields, and `specialization`
      exactly when the role is "trainer". */
  function Payload(f: AccountForm): (p: map<string, string>)
    ensures "name" in p && p["name"] == f.name && "email" in p && p["email"] == f.email
    ensures "password" in p && p["password"] == f.password && "phone" in p && p["phone"] == f.phone
    ensures "role" in p && p["role"] == f.role
    ensures "specialization" in p <==> f.role == "trainer"
    ensures "specialization" in p ==> p["specialization"] == f.specialization
    ensures p.Keys <= {"name", "email", "password", "phone", "role", "specialization"}
  {
    var common := map["name" := f.name, "email" := f.email, "password" := f.password,
                      "phone" := f.phone, "role" := f.role];
    if f.role == "trainer" then common["specialization" := f.specialization] else common
  }

  /** For the two roles offered, the payload has six fields for a trainer and five
      for a member: a member's typed-in specialization is never sent. */
  lemma PayloadSizes(f: AccountForm)
    ensures f.role == "trainer" ==> |Payload(f).Keys| == 6
    ensures f.role == "member" ==> |Payload(f).Keys| == 5
  {
    var p := Payload(f);
    if f.role == "trainer" {
      assert p.Keys == {"name", "email", "password", "phone", "role", "specialization"};
    } else {
      assert p.Keys == {"name", "email", "password", "phone", "role"};
    }
  }

  /** `{ ...prev, [name]: value }` for the six inputs. */
  function Changed(f: AccountForm, name: string, value: string): (r: AccountForm)
    ensures name == "name" ==> r == f.(name := value)
    ensures name == "email" ==> r == f.(email := value)
    ensures name == "password" ==> r == f.(password := value)
    ensures name == "phone" ==> r == f.(phone := value)
    ensures name == "role" ==> r == f.(role := value)
    ensures name == "specialization" ==> r == f.(specialization := value)
    ensures name !in {"name", "email", "password", "phone", "role", "specialization"} ==> r == f
  {
    match name
    case "name" => f.(name := value)
    case "email" => f.(email := value)
    case "password" => f.(password := value)
    case "phone" => f.(phone := value)
    case "role" => f.(role := value)
    case "specialization" => f.(specialization := value)
    case _ => f
  }

  /** What `handleSubmit` ends with: the form, the payload sent, the toast shown and
      whether the list is fetched again. Loading is over on every path. */
  datatype Submitted = Submitted(form: AccountForm, sent: map<string, string>, toast: string, refetch: bool)

  /** `handleSubmit`: the payload is posted; success resets the form and refreshes
      the list, failure shows the answer's `msg` or the generic message. */
  function Submit(f: AccountForm, call: Call<()>): (r: Submitted)
    ensures r.sent == Payload(f)
    ensures call.Returned? ==> r.form == InitialForm && r.toast == CreateSucceeded && r.refetch
    ensures call.Threw? ==> r.form == f && !r.refetch
    ensures call.Threw? && call.message != "" ==> r.toast == call.message
    ensures call.Threw? && call.message == "" ==> r.toast == CreateFailed
  {
    if call.Returned? then Submitted(InitialForm, Payload(f), CreateSucceeded, true)
    else Submitted(f, Payload(f), if call.message != "" then call.message else CreateFailed, false)
  }

  /** `res.data.users || []`: an array, even empty, is truthy. */
  function UsersFrom(users: Option<seq<ListedUser>>): (r: seq<ListedUser>)
    ensures users.Some? ==> r == users.value
    ensures users.None? ==> r == []
  {
    if users.Some? then users.value else []
  }

  function Trainers(users: seq<ListedUser>): seq<ListedUser>
  {
    Filter(users, (u: ListedUser) => u.role == "trainer")
  }

  function Members(users: seq<ListedUser>): seq<ListedUser>
  {
    Filter(users, (u: ListedUser) => u.role == "member")
  }

  /** The trainer and member lists hold exactly the users of their role, in input
      order, and share no user. */
  lemma ListsByRole(users: seq<ListedUser>, u: ListedUser)
    ensures u in Trainers(users) <==> u in users && u.role == "trainer"
    ensures u in Members(users) <==> u in users && u.role == "member"
    ensures !(u in Trainers(users) && u in Members(users))
    ensures |Trainers(users)| + |Members(users)| <= |users|
  {
    FilterDisjointLengths(users, (v: ListedUser) => v.role == "trainer", (v: ListedUser) => v.role == "member");
    if u in users {
      var i :| 0 <= i < |users| && users[i] == u;
    }
    if u in Trainers(users) {
      var i :| 0 <= i < |Trainers(users)| && Trainers(users)[i] == u;
    }
    if u in Members(users) {
      var i :| 0 <= i < |Members(users)| && Members(users)[i] == u;
    }
  }
}
