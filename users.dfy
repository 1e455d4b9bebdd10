/** The user-management page: the user list fetched from `/api/users`, the create
    form with its required-field check and reset, the role badge colours, and the
    role choices offered to the current user. */
module Users {
  import opened Common

  datatype ListedUser = ListedUser(id: string, name: string, email: string, role: string, createdAt: string)

  datatype CreateUserData = CreateUserData(name: string, email: string, password: string, role: string)

  datatype FormField = Name | Email | Password | Role

  const Manager := "manager"
  const Trainer := "trainer"
  const FrontDesk := "frontdesk"
  const MemberRole := "member"

  const AllFieldsRequired := "All fields are required"
  const FetchFailed := "Failed to fetch users"
  const CreateFailed := "Failed to create user"

  /** The create form as it starts and as a successful create leaves it. */
  const EmptyCreateForm := CreateUserData("", "", "", MemberRole)

  /** The JSON body of the list answer: `success`, `data` and `error`, an absent
      `error` being "". */
  datatype UsersAnswer = UsersAnswer(success: bool, data: Option<seq<ListedUser>>, error: string)

  /** The create answer: `res.ok` and the body's `msg` (absent is ""). */
  datatype CreateAnswer = CreateAnswer(ok: bool, msg: string)

  /** `a || b` on strings. */
  function OrElse(a: string, b: string): (r: string)
    ensures a != "" ==> r == a
    ensures a == "" ==> r == b
  {
    if a != "" then a else b
  }

  /** The required-field check of `handleCreateUser`; the role always has a value. */
  predicate RequiredPresent(d: CreateUserData)
  {
    d.name != "" && d.email != "" && d.password != ""
  }

  datatype Hue = Purple | Blue | Green | Yellow | Gray

  /** The switch of `getRoleBadgeColor`: `member` shares the default case. */
  function HueOf(role: string): (h: Hue)
    ensures h == Purple <==> role == "owner"
    ensures h == Blue <==> role == Manager
    ensures h == Green <==> role == Trainer
    ensures h == Yellow <==> role == FrontDesk
    ensures h == Gray <==> role !in {"owner", Manager, Trainer, FrontDesk}
  {
    if role == "owner" then Purple
    else if role == Manager then Blue
    else if role == Trainer then Green
    else if role == FrontDesk then Yellow
    else Gray
  }

  function ColourName(h: Hue): (c: string)
    ensures |c| >= 4
  {
    match h
    case Purple => "purple"
    case Blue => "blue"
    case Green => "green"
    case Yellow => "yellow"
    case Gray => "gray"
  }

  /** The badge's class list, the colour name repeated in four utility classes;
      the first is the background `bg-<colour>-100`. */
  function BadgeClasses(h: Hue): (r: string)
    ensures |r| > 7 + |ColourName(h)|
    ensures r[..3] == "bg-" && r[3..3 + |ColourName(h)|] == ColourName(h)
    ensures r[3 + |ColourName(h)|..7 + |ColourName(h)|] == "-100"
  {
    var c := ColourName(h);
    "bg-" + c + "-100 text-" + c + "-800 dark:bg-" + c + "-900/20 dark:text-" + c + "-400"
  }

  /** `getRoleBadgeColor(role)`: the badge of the role's colour, so the background
      class names purple for an owner, blue for a manager, green for a trainer,
      yellow for the front desk and gray for anyone else. */
  function RoleBadgeColor(role: string): (r: string)
    ensures r == BadgeClasses(HueOf(role))
    ensures r[3..3 + |ColourName(HueOf(role))|] == ColourName(HueOf(role))
  {
    BadgeClasses(HueOf(role))
  }

  /** Different colours give different class lists: they differ in the first or
      the third letter of the colour name. */
  lemma {:induction false} BadgeClassesDiffer(g: Hue, h: Hue)
    requires g != h
    ensures BadgeClasses(g) != BadgeClasses(h)
  {
    var cg, ch := ColourName(g), ColourName(h);
    assert cg[0] != ch[0] || cg[2] != ch[2];
    assert BadgeClasses(g)[3] == cg[0] && BadgeClasses(g)[5] == cg[2];
    assert BadgeClasses(h)[3] == ch[0] && BadgeClasses(h)[5] == ch[2];
  }

  /** Two roles get the same badge exactly when they fall in the same case; so the
      `member` badge is the badge of every unknown role. */
  lemma {:induction false} SameBadgeSameCase(a: string, b: string)
    ensures RoleBadgeColor(a) == RoleBadgeColor(b) <==> HueOf(a) == HueOf(b)
  {
    if HueOf(a) != HueOf(b) {
      BadgeClassesDiffer(HueOf(a), HueOf(b));
    }
  }

  /** The options of the role select, in order; `Manager` is last and present only
      when the current user is an owner (`currentUser?.role === 'owner'`). */
  function RoleOptions(currentRole: Option<string>): (r: seq<string>)
    ensures |r| == 3 || |r| == 4
    ensures r[..3] == [MemberRole, FrontDesk, Trainer]
    ensures |r| == 4 <==> currentRole == Some("owner")
    ensures |r| == 4 ==> r[3] == Manager
    ensures Manager in r <==> currentRole == Some("owner")
  {
    [MemberRole, FrontDesk, Trainer] + (if currentRole == Some("owner") then [Manager] else [])
  }

  class UsersPage {
    var users: seq<ListedUser>
    var loading: bool
    var error: string
    var showCreateForm: bool
    var createUserData: CreateUserData
    var isCreating: bool

    constructor ()
      ensures users == [] && loading && error == "" && !showCreateForm
      ensures createUserData == EmptyCreateForm && !isCreating
    {
      users := [];
      loading := true;
      error := "";
      showCreateForm := false;
      createUserData := EmptyCreateForm;
      isCreating := false;
    }

    /** `fetchUsers`: the list is replaced only when the answer has both `success`
        and `data`; otherwise the error is set and the list kept. */
    method FetchUsers(call: Call<UsersAnswer>)
      modifies this`users, this`error, this`loading
      ensures !loading
      ensures call.Returned? && call.value.success && call.value.data.Some? ==>
        users == call.value.data.value && error == old(error)
      ensures call.Returned? && !(call.value.success && call.value.data.Some?) ==>
        users == old(users) && error == OrElse(call.value.error, FetchFailed)
      ensures call.Threw? ==> users == old(users) && error == OrElse(call.message, FetchFailed)
    {
      loading := true;
      if call.Returned? {
        var data := call.value;
        if data.success && data.data.Some? {
          users := data.data.value;
        } else {
          error := OrElse(data.error, FetchFailed);
        }
      } else {
        error := OrElse(call.message, FetchFailed);
      }
      loading := false;
    }

    /** The inputs of the create form: `{ ...prev, [field]: value }`. */
    method SetField(f: FormField, v: string)
      modifies this`createUserData
      ensures f == Name ==> createUserData == old(createUserData).(name := v)
      ensures f == Email ==> createUserData == old(createUserData).(email := v)
      ensures f == Password ==> createUserData == old(createUserData).(password := v)
      ensures f == Role ==> createUserData == old(createUserData).(role := v)
    {
      match f
      case Name => createUserData := createUserData.(name := v);
      case Email => createUserData := createUserData.(email := v);
      case Password => createUserData := createUserData.(password := v);
      case Role => createUserData := createUserData.(role := v);
    }

    /** `handleCreateUser`: a missing name, email or password sets the error and
        sends nothing. Otherwise the form is posted; a non-ok answer fails with its
        `msg` or the generic message, a thrown call with its own message. Success
        resets the form to the member role, hides it and asks for a fresh list. */
    method HandleCreateUser(call: Call<CreateAnswer>) returns (sent: Option<CreateUserData>, refetch: bool)
      modifies this`error, this`isCreating, this`createUserData, this`showCreateForm
      ensures !RequiredPresent(old(createUserData)) ==>
        && sent.None? && !refetch && error == AllFieldsRequired
        && createUserData == old(createUserData) && showCreateForm == old(showCreateForm)
        && isCreating == old(isCreating)
      ensures RequiredPresent(old(createUserData)) ==> sent == Some(old(createUserData)) && !isCreating
      ensures RequiredPresent(old(createUserData)) && call.Returned? && call.value.ok ==>
        refetch && error == "" && createUserData == EmptyCreateForm && !showCreateForm
      ensures RequiredPresent(old(createUserData)) && call.Returned? && !call.value.ok ==>
        !refetch && error == OrElse(call.value.msg, CreateFailed)
        && createUserData == old(createUserData) && showCreateForm == old(showCreateForm)
      ensures RequiredPresent(old(createUserData)) && call.Threw? ==>
        !refetch && error == OrElse(call.message, CreateFailed)
        && createUserData == old(createUserData) && showCreateForm == old(showCreateForm)
    {
      if !RequiredPresent(createUserData) {
        error := AllFieldsRequired;
        return None, false;
      }
      isCreating := true;
      error := "";
      sent := Some(createUserData);
      refetch := false;
      if call.Threw? {
        error := OrElse(call.message, CreateFailed);
      } else if !call.value.ok {
        // `new Error(data.msg || ...)` caught and its message shown
        error := OrElse(OrElse(call.value.msg, CreateFailed), CreateFailed);
      } else {
        createUserData := EmptyCreateForm;
        showCreateForm := false;
        refetch := true;
      }
      isCreating := false;
    }
  }
}
