/**
 * The contact form: four text fields, each replaced by its own input handler,
 * and a submit handler that either rejects or thanks the visitor and clears
 * the form.
 */
module Contact {

  datatype ContactData = ContactData(name: string, email: string, phone: string, message: string)

  function EmptyForm(): ContactData {
    ContactData("", "", "", "")
  }

  /** A toast: title, description, and whether it is shown as an error. */
  datatype Notice = Notice(title: string, description: string, destructive: bool)

  const MissingFields := Notice("Error", "Please fill in all required fields", true)
  const MessageSent := Notice("Message Sent!", "Thank you for contacting us. We'll get back to you soon.", false)

  datatype SubmitResult = SubmitResult(next: ContactData, notice: Notice)

  /** `handleSubmit`: name, email and message are required; the phone is not checked. */
  function Submit(d: ContactData): (r: SubmitResult)
    ensures r.notice.destructive <==> d.name == "" || d.email == "" || d.message == ""
    ensures r.notice.destructive ==> r == SubmitResult(d, MissingFields)
    ensures !r.notice.destructive ==> r == SubmitResult(EmptyForm(), MessageSent)
  {
    if d.name == "" || d.email == "" || d.message == "" then SubmitResult(d, MissingFields)
    else SubmitResult(EmptyForm(), MessageSent)
  }

  /** The phone number never decides whether a submission goes through. */
  lemma PhoneNotRequired(d: ContactData, phone: string)
    ensures Submit(d.(phone := phone)).notice == Submit(d).notice
  {
  }

  /** Submitting again right after a successful submission is rejected: the form was cleared. */
  lemma ResubmitAfterSuccessRejected(d: ContactData)
    requires !Submit(d).notice.destructive
    ensures Submit(Submit(d).next).notice == MissingFields
  {
  }

  class ContactForm {
    var formData: ContactData

    constructor ()
      ensures formData == EmptyForm()
    {
      formData := EmptyForm();
    }

    method SetName(value: string)
      modifies this
      ensures formData == old(formData).(name := value)
    {
      formData := formData.(name := value);
    }

    method SetEmail(value: string)
      modifies this
      ensures formData == old(formData).(email := value)
    {
      formData := formData.(email := value);
    }

    method SetPhone(value: string)
      modifies this
      ensures formData == old(formData).(phone := value)
    {
      formData := formData.(phone := value);
    }

    method SetMessage(value: string)
      modifies this
      ensures formData == old(formData).(message := value)
    {
      formData := formData.(message := value);
    }

    /** Rejects and leaves the form as it was, or accepts and clears every field. */
    method HandleSubmit() returns (notice: Notice)
      modifies this
      ensures notice == Submit(old(formData)).notice
      ensures formData == Submit(old(formData)).next
      ensures notice.destructive ==> formData == old(formData)
      ensures !notice.destructive ==> formData == EmptyForm()
    {
      if formData.name == "" || formData.email == "" || formData.message == "" {
        notice := MissingFields;
        return;
      }
      notice := MessageSent;
      formData := EmptyForm();
    }
  }
}
