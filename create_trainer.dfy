/** The front-desk page that creates a trainer: four required fields, the post of
    the whole form, and the message that reports the outcome. */
module CreateTrainer {
  import opened Common

  datatype TrainerForm = TrainerForm(name: string, email: string, password: string, specialization: string)

  datatype TrainerField = Name | Email | Password | Specialization

  datatype MessageKind = Success | Error

  datatype Message = Message(kind: MessageKind, text: string)

  const EmptyForm := TrainerForm("", "", "", "")
  const AllFieldsRequired := "All fields are required."
  const TrainerCreated := "Trainer created successfully!"
  const SomethingWentWrong := "Something went wrong!"

  predicate AllPresent(f: TrainerForm)
  {
    f.name != "" && f.email != "" && f.password != "" && f.specialization != ""
  }

  /** The text of an error message: the answer's `error`, or the fallback. */
  function ErrorText(answerError: string): (t: string)
    ensures t != ""
    ensures answerError != "" ==> t == answerError
    ensures answerError == "" ==> t == SomethingWentWrong
  {
    if answerError != "" then answerError else SomethingWentWrong
  }

  class TrainerCreatePage {
    var form: TrainerForm
    var loading: bool
    var message: Option<Message>

    constructor ()
      ensures form == EmptyForm && !loading && message.None?
    {
      form := EmptyForm;
      loading := false;
      message := None;
    }

    /** `handleChange`: `{ ...prev, [name]: value }`. */
    method HandleChange(f: TrainerField, v: string)
      modifies this`form
      ensures f == Name ==> form == old(form).(name := v)
      ensures f == Email ==> form == old(form).(email := v)
      ensures f == Password ==> form == old(form).(password := v)
      ensures f == Specialization ==> form == old(form).(specialization := v)
    {
      match f
      case Name => form := form.(name := v);
      case Email => form := form.(email := v);
      case Password => form := form.(password := v);
      case Specialization => form := form.(specialization := v);
    }

    /** `handleSubmit`: a missing field shows the required-field error and sends
        nothing. Otherwise the form is posted; success shows the success message
        and empties the form, failure shows the answer's error or the fallback and
        keeps the form. Loading is over in both cases. */
    method HandleSubmit(call: Call<()>) returns (sent: Option<TrainerForm>)
      modifies this
      ensures !AllPresent(old(form)) ==>
        sent.None? && message == Some(Message(Error, AllFieldsRequired))
        && form == old(form) && loading == old(loading)
      ensures AllPresent(old(form)) ==> sent == Some(old(form)) && !loading
      ensures AllPresent(old(form)) && call.Returned? ==>
        message == Some(Message(Success, TrainerCreated)) && form == EmptyForm
      ensures AllPresent(old(form)) && call.Threw? ==>
        message == Some(Message(Error, ErrorText(call.message))) && form == old(form)
    {
      if !AllPresent(form) {
        message := Some(Message(Error, AllFieldsRequired));
        return None;
      }
      loading := true;
      sent := Some(form);
      if call.Returned? {
        message := Some(Message(Success, TrainerCreated));
        form := EmptyForm;
      } else {
        message := Some(Message(Error, ErrorText(call.message)));
      }
      loading := false;
    }
  }

  /** A complete form that the backend accepts is reported as created and leaves
      an empty form, and submitting that empty form is refused, whatever the
      backend would have said. */
  method SubmitTwice() returns (first: Option<Message>, second: Option<Message>)
    ensures first == Some(Message(Success, TrainerCreated))
    ensures second == Some(Message(Error, AllFieldsRequired))
  {
    var page := new TrainerCreatePage();
    page.HandleChange(Name, "Ravi");
    page.HandleChange(Email, "ravi@gym.in");
    page.HandleChange(Password, "secret1");
    page.HandleChange(Specialization, "Yoga");
    var sent := page.HandleSubmit(Returned(()));
    first := page.message;
    sent := page.HandleSubmit(Returned(()));
    second := page.message;
  }
}
