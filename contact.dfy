/**
 * The contact form: a controlled record of three text fields, a
 * submitting flag, and the toasts it has shown. Submission is simulated:
 * the delay between its two phases is the gap between BeginSubmit and
 * CompleteSubmit.
 */
module Contact {
  import opened Wrappers

  /** The three inputs of the form. */
  datatype Field = Name | Email | Message

  /** The `name` attribute of each input, which `handleChange` uses as the record key. */
  function InputName(f: Field): (n: string)
    ensures n in {"name", "email", "message"}
  {
    match f
    case Name => "name"
    case Email => "email"
    case Message => "message"
  }

  /** The field a change event's input name addresses, if any. */
  function FieldNamed(n: string): (f: Option<Field>)
    ensures f.Some? <==> n in {"name", "email", "message"}
    ensures f.Some? ==> InputName(f.value) == n
  {
    if n == "name" then Some(Name)
    else if n == "email" then Some(Email)
    else if n == "message" then Some(Message)
    else None
  }

  /** Different inputs carry different names, so an update keyed by name reaches one field only. */
  lemma InputNameRoundTrip(f: Field, g: Field)
    ensures FieldNamed(InputName(f)) == Some(f)
    ensures InputName(f) == InputName(g) ==> f == g
  {
  }

  /** The form record `{name, email, message}`. */
  datatype FormData = FormData(name: string, email: string, message: string) {
    function Get(f: Field): (v: string) {
      match f
      case Name => name
      case Email => email
      case Message => message
    }

    /** `{ ...prev, [name]: value }`: one field replaced, the other two kept. */
    function With(f: Field, value: string): (r: FormData)
      ensures r.Get(f) == value
      ensures forall g :: g != f ==> r.Get(g) == Get(g)
    {
      match f
      case Name => this.(name := value)
      case Email => this.(email := value)
      case Message => this.(message := value)
    }
  }

  const EmptyForm := FormData("", "", "")

  /** The last write to a field wins, and writes to different fields commute. */
  lemma WithLastWins(d: FormData, f: Field, g: Field, v: string, w: string)
    ensures d.With(f, v).With(f, w) == d.With(f, w)
    ensures f != g ==> d.With(f, v).With(g, w) == d.With(g, w).With(f, v)
  {
  }

  /** A notification: title and description. */
  datatype Toast = Toast(title: string, description: string)

  const SentToast := Toast("Message sent!", "Thank you for reaching out. I'll get back to you soon.")

  /** What the submit button shows. */
  datatype SubmitButton = SubmitButton(disabled: bool, text: string)

  /** The button is disabled and reads "Sending..." exactly while submitting. */
  function ButtonFor(isSubmitting: bool): (b: SubmitButton)
    ensures b.disabled == isSubmitting
    ensures b.text == "Sending..." <==> isSubmitting
    ensures b.text == "Send Message" <==> !isSubmitting
  {
    SubmitButton(isSubmitting, if isSubmitting then "Sending..." else "Send Message")
  }

  class ContactForm {
    var formData: FormData
    var isSubmitting: bool
    /** The toasts shown so far, oldest first. */
    var toasts: seq<Toast>

    /** Mounting: all fields empty, not submitting, nothing shown. */
    constructor ()
      ensures formData == EmptyForm && !isSubmitting && toasts == []
    {
      formData := EmptyForm;
      isSubmitting := false;
      toasts := [];
    }

    /** `handleChange`: the changed input's field takes the new value. */
    method HandleChange(f: Field, value: string)
      modifies this`formData
      ensures formData == old(formData).With(f, value)
    {
      formData := formData.With(f, value);
    }

    /** `handleSubmit` up to the delay: the flag is set, the fields are untouched. */
    method BeginSubmit()
      requires !isSubmitting
      modifies this`isSubmitting
      ensures isSubmitting
    {
      isSubmitting := true;
    }

    /** `handleSubmit` after the delay: one toast, the fields cleared, the flag reset. */
    method CompleteSubmit()
      requires isSubmitting
      modifies this
      ensures toasts == old(toasts) + [SentToast]
      ensures formData == EmptyForm
      ensures !isSubmitting
    {
      toasts := toasts + [SentToast];
      formData := EmptyForm;
      isSubmitting := false;
    }

    function Button(): (b: SubmitButton)
      reads this
      ensures b.disabled <==> isSubmitting
      ensures b.text == "Sending..." <==> isSubmitting
      ensures b.text == "Send Message" <==> !isSubmitting
    {
      ButtonFor(isSubmitting)
    }

    /**
     * A press of the submit button: the browser dispatches the submit
     * event only when the button is enabled, so a press while submitting
     * does nothing. This gate is the form's only single-flight guard.
     */
    method PressSubmit() returns (started: bool)
      modifies this`isSubmitting
      ensures started == !old(isSubmitting)
      ensures isSubmitting
    {
      started := !Button().disabled;
      if started {
        BeginSubmit();
      }
    }
  }

  /**
   * A visitor types a message, presses submit twice before the delay ends
   * and waits: one toast is shown and the form is empty again.
   */
  method SubmitScenario() returns (form: ContactForm)
    ensures form.toasts == [SentToast]
    ensures form.formData == EmptyForm && !form.isSubmitting
    ensures form.Button() == SubmitButton(false, "Send Message")
  {
    form := new ContactForm();
    form.HandleChange(Name, "Ada");
    form.HandleChange(Email, "a@b.com");
    form.HandleChange(Email, "ada@x.com");
    form.HandleChange(Message, "Hi");
    assert form.formData == FormData("Ada", "ada@x.com", "Hi");
    var first := form.PressSubmit();
    assert form.Button() == SubmitButton(true, "Sending...");
    var second := form.PressSubmit();
    assert first && !second;
    form.CompleteSubmit();
  }
}
