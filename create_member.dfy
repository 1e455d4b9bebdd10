/** The front-desk page that creates members: the multipart body built from the
    truthy member fields and the optional image, the token guard, the mapping of a
    failure to its message, the reset after success, and the trainer list. */
module CreateMember {
  import opened Common

  datatype MemberData = MemberData(name: string, email: string, phone: string, planType: string,
                                   address: string, dob: string, gender: string, trainerId: string,
                                   password: string)

  datatype MemberField = Name | Email | Phone | PlanType | Address | Dob | Gender | TrainerId | Password

  /** A selected file, known by an identifier. */
  type FileRef = string

  /** A part of the multipart body: a text value or a file. */
  datatype Part = TextPart(text: string) | FilePart(file: FileRef)

  datatype FetchedUser = FetchedUser(id: string, name: string, email: string, role: string)

  /** How the create request failed: the answer's HTTP status and its `error`
      field, either of which may be missing. */
  datatype Failure = Failure(status: Option<int>, error: Option<string>)

  const NotAuthenticated := "User is not authenticated."
  const Unauthorized := "Unauthorized. Please log in again."
  const GenericError := "An error occurred while creating the member."
  const Created := "✅ Member created successfully!"

  /** The form as it starts and as a successful create leaves it. */
  const EmptyMember := MemberData("", "", "", "", "", "", "male", "", "")

  /** The member's keys, in the order the initial state sets them. */
  const MemberKeys: seq<string> :=
    ["name", "email", "phone", "planType", "address", "dob", "gender", "trainerId", "password"]

  /** `Object.entries(member)`, in the order the fields were first set: one entry
      per key, each key once. */
  function Entries(m: MemberData): (r: seq<(string, string)>)
    ensures |r| == |MemberKeys|
    ensures forall i :: 0 <= i < |r| ==> r[i].0 == MemberKeys[i]
    ensures forall i, j :: 0 <= i < j < |r| ==> r[i].0 != r[j].0
  {
    [("name", m.name), ("email", m.email), ("phone", m.phone), ("planType", m.planType),
     ("address", m.address), ("dob", m.dob), ("gender", m.gender), ("trainerId", m.trainerId),
     ("password", m.password)]
  }

  /** `if (value) formData.append(key, value)`: the test on one entry. */
  predicate Truthy(e: (string, string))
  {
    e.1 != ""
  }

  function TextParts(entries: seq<(string, string)>): (r: seq<(string, Part)>)
    ensures |r| == |entries|
    ensures forall i :: 0 <= i < |entries| ==> r[i] == (entries[i].0, TextPart(entries[i].1))
  {
    seq(|entries|, i requires 0 <= i < |entries| => (entries[i].0, TextPart(entries[i].1)))
  }

  /** The body `handleSubmit` posts: the truthy entries in order, then the image
      when one was chosen. */
  function Body(m: MemberData, image: Option<FileRef>): (r: seq<(string, Part)>)
    ensures |r| <= |Entries(m)| + 1
    ensures forall i :: 0 <= i < |r| && r[i].1.TextPart? ==> r[i].1.text != ""
    ensures forall i :: 0 <= i < |r| && r[i].1.TextPart? ==> (r[i].0, r[i].1.text) in Entries(m)
    ensures forall i :: 0 <= i < |r| - 1 ==> r[i].1.TextPart?
    ensures image.Some? <==> |r| > 0 && r[|r| - 1].1.FilePart?
    ensures image.Some? ==> r[|r| - 1] == ("image", FilePart(image.value))
  {
    TextParts(Filter(Entries(m), Truthy)) + (if image.Some? then [("image", FilePart(image.value))] else [])
  }

  /** A field is sent, with its value, exactly when that value is non-empty; the
      image is the last part exactly when there is one. */
  lemma {:induction false} BodyContents(m: MemberData, image: Option<FileRef>, key: string, value: string)
    ensures ("image", FilePart(value)) in Body(m, image) <==> image == Some(value)
    ensures (key, TextPart(value)) in Body(m, image) <==> (key, value) in Entries(m) && value != ""
  {
    var t := Filter(Entries(m), Truthy);
    var parts := TextParts(t);
    assert Body(m, image) == parts + (if image.Some? then [("image", FilePart(image.value))] else []);
    if (key, TextPart(value)) in Body(m, image) {
      var j :| 0 <= j < |Body(m, image)| && Body(m, image)[j] == (key, TextPart(value));
      assert j < |parts|;
      assert t[j] in t;
    }
    if (key, value) in Entries(m) {
      if value != "" {
        var i :| 0 <= i < 9 && Entries(m)[i] == (key, value);
        assert Entries(m)[i] in t;
        var j :| 0 <= j < |t| && t[j] == (key, value);
        assert parts[j] == (key, TextPart(value));
      }
    }
  }

  /** The message a failed create shows: 401 first, then the answer's own `error`,
      then the generic message. */
  function FailureMessage(f: Failure): (msg: string)
    ensures f.status == Some(401) ==> msg == Unauthorized
    ensures f.status != Some(401) && f.error.Some? && f.error.value != "" ==> msg == f.error.value
    ensures f.status != Some(401) && (f.error.None? || f.error == Some("")) ==> msg == GenericError
  {
    if f.status == Some(401) then Unauthorized
    else if f.error.Some? && f.error.value != "" then f.error.value
    else GenericError
  }

  class CreateMemberPage {
    var member: MemberData
    var image: Option<FileRef>
    var trainers: seq<FetchedUser>
    var error: Option<string>
    var success: Option<string>

    constructor ()
      ensures member == EmptyMember && image.None? && trainers == [] && error.None? && success.None?
    {
      member := EmptyMember;
      image := None;
      trainers := [];
      error := None;
      success := None;
    }

    /** The trainer list: the fetched users whose role is "trainer", in order; a
        failed fetch leaves it as it was. */
    method FetchTrainers(call: Call<seq<FetchedUser>>)
      modifies this`trainers
      ensures call.Returned? ==> trainers == Filter(call.value, (u: FetchedUser) => u.role == "trainer")
      ensures call.Threw? ==> trainers == old(trainers)
    {
      if call.Returned? {
        trainers := Filter(call.value, (u: FetchedUser) => u.role == "trainer");
      }
    }

    /** `handleChange`: `{ ...member, [name]: value }`. */
    method HandleChange(f: MemberField, v: string)
      modifies this`member
      ensures f == Name ==> member == old(member).(name := v)
      ensures f == Email ==> member == old(member).(email := v)
      ensures f == Phone ==> member == old(member).(phone := v)
      ensures f == PlanType ==> member == old(member).(planType := v)
      ensures f == Address ==> member == old(member).(address := v)
      ensures f == Dob ==> member == old(member).(dob := v)
      ensures f == Gender ==> member == old(member).(gender := v)
      ensures f == TrainerId ==> member == old(member).(trainerId := v)
      ensures f == Password ==> member == old(member).(password := v)
    {
      match f
      case Name => member := member.(name := v);
      case Email => member := member.(email := v);
      case Phone => member := member.(phone := v);
      case PlanType => member := member.(planType := v);
      case Address => member := member.(address := v);
      case Dob => member := member.(dob := v);
      case Gender => member := member.(gender := v);
      case TrainerId => member := member.(trainerId := v);
      case Password => member := member.(password := v);
    }

    /** `handleImageChange`: a chosen file replaces the image; none keeps it. */
    method HandleImageChange(file: Option<FileRef>)
      modifies this`image
      ensures file.Some? ==> image == file
      ensures file.None? ==> image == old(image)
    {
      if file.Some? {
        image := file;
      }
    }

    /** `handleSubmit`: without a token the error is set and nothing is sent.
        Otherwise the body is built and posted; success shows its message and
        resets the form and the image, failure shows the mapped message. */
    method HandleSubmit(token: Option<string>, outcome: Option<Failure>) returns (sent: Option<seq<(string, Part)>>)
      modifies this`member, this`image, this`error, this`success
      ensures token.None? || token == Some("") ==>
        sent.None? && error == Some(NotAuthenticated) && success.None?
        && member == old(member) && image == old(image)
      ensures token.Some? && token.value != "" ==> sent == Some(Body(old(member), old(image)))
      ensures token.Some? && token.value != "" && outcome.None? ==>
        success == Some(Created) && error.None? && member == EmptyMember && image.None?
      ensures token.Some? && token.value != "" && outcome.Some? ==>
        error == Some(FailureMessage(outcome.value)) && success.None?
        && member == old(member) && image == old(image)
    {
      error := None;
      success := None;
      if token.None? || token.value == "" {
        error := Some(NotAuthenticated);
        return None;
      }
      var body := BuildBody(Entries(member), image);
      sent := Some(body);
      if outcome.None? {
        success := Some(Created);
        member := EmptyMember;
        image := None;
      } else {
        error := Some(FailureMessage(outcome.value));
      }
    }
  }

  /** The `forEach` over the entries that appends each truthy one, then the image. */
  method BuildBody(entries: seq<(string, string)>, image: Option<FileRef>) returns (body: seq<(string, Part)>)
    ensures body == TextParts(Filter(entries, Truthy)) + (if image.Some? then [("image", FilePart(image.value))] else [])
  {
    body := [];
    var i := 0;
    while i < |entries|
      invariant 0 <= i <= |entries|
      invariant body == TextParts(Filter(entries[..i], Truthy))
    {
      FilterConcat(entries[..i], [entries[i]], Truthy);
      assert entries[..i + 1] == entries[..i] + [entries[i]];
      if Truthy(entries[i]) {
        body := body + [(entries[i].0, TextPart(entries[i].1))];
      }
      i := i + 1;
    }
    assert entries[..i] == entries;
    if image.Some? {
      body := body + [("image", FilePart(image.value))];
    }
  }
}
