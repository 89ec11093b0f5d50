/** The contact page's form record: the four controlled inputs, their change handler and the
    submit handler that clears them. The acknowledgement alert and the console log of
    `handleSubmit` are output only and are not modelled. */
module Contact {

  /** The `name` attribute of an input of the form. */
  datatype ContactField = Name | Email | Subject | Message

  /** `formData`. */
  datatype ContactData = ContactData(name: string, email: string, subject: string, message: string)
  {
    function Get(f: ContactField): string
    {
      match f
      case Name => name
      case Email => email
      case Subject => subject
      case Message => message
    }

    /** `{...formData, [f]: v}`: the named key holds `v` and every other key is unchanged. */
    function Set(f: ContactField, v: string): (r: ContactData)
      ensures r.Get(f) == v
      ensures forall g :: g != f ==> r.Get(g) == Get(g)
    {
      match f
      case Name => this.(name := v)
      case Email => this.(email := v)
      case Subject => this.(subject := v)
      case Message => this.(message := v)
    }
  }

  /** The record the form starts with and is reset to. */
  const InitialForm: ContactData := ContactData("", "", "", "")

  /** Every key of the initial record is the empty string. */
  lemma InitialFormIsBlank()
    ensures forall f :: InitialForm.Get(f) == ""
  {
    forall f: ContactField
      ensures InitialForm.Get(f) == ""
    {
    }
  }

  /** `handleChange` on the record: exactly the input's own key takes the typed value. */
  function Change(form: ContactData, name: ContactField, value: string): (r: ContactData)
    ensures r.Get(name) == value
    ensures forall g :: g != name ==> r.Get(g) == form.Get(g)
  {
    form.Set(name, value)
  }

  /** `handleSubmit` on the record: all four keys are cleared, whatever they held. */
  function Submit(form: ContactData): (r: ContactData)
    ensures forall f :: r.Get(f) == ""
  {
    InitialFormIsBlank();
    InitialForm
  }

  /** Two records that agree on every key are the same record. */
  lemma SameFields(a: ContactData, b: ContactData)
    requires forall f :: a.Get(f) == b.Get(f)
    ensures a == b
  {
    assert a.Get(Name) == b.Get(Name) && a.Get(Email) == b.Get(Email);
    assert a.Get(Subject) == b.Get(Subject) && a.Get(Message) == b.Get(Message);
  }

  /** Edits of two different inputs do not interfere, a later edit of the same input wins,
      and typing back a key's current value changes nothing. */
  lemma ChangeFacts(form: ContactData, f: ContactField, g: ContactField, u: string, v: string)
    ensures f != g ==> Change(Change(form, f, u), g, v) == Change(Change(form, g, v), f, u)
    ensures Change(Change(form, f, u), f, v) == Change(form, f, v)
    ensures Change(form, f, form.Get(f)) == form
  {
    if f != g {
      SameFields(Change(Change(form, f, u), g, v), Change(Change(form, g, v), f, u));
    }
    SameFields(Change(Change(form, f, u), f, v), Change(form, f, v));
    SameFields(Change(form, f, form.Get(f)), form);
  }

  /** After a submit the record is the initial record, so a second submit changes nothing
      and the edits made before the submit leave no trace. */
  lemma SubmitResets(form: ContactData, f: ContactField, v: string)
    ensures Submit(form) == InitialForm
    ensures Submit(Submit(form)) == Submit(form)
    ensures Submit(Change(form, f, v)) == Submit(form)
  {
    SameFields(Submit(form), InitialForm);
  }

  /** The form component: `formData`, which the handlers replace. */
  class ContactForm {
    var formData: ContactData

    constructor ()
      ensures formData == InitialForm
    {
      formData := InitialForm;
    }

    /** `handleChange` for the input named `name` with the typed `value`. */
    method HandleChange(name: ContactField, value: string)
      modifies this
      ensures formData == Change(old(formData), name, value)
      ensures formData.Get(name) == value
      ensures forall g :: g != name ==> formData.Get(g) == old(formData).Get(g)
    {
      formData := formData.Set(name, value);
    }

    /** `handleSubmit`: the record goes back to the initial one. */
    method HandleSubmit()
      modifies this
      ensures formData == Submit(old(formData)) && formData == InitialForm
    {
      formData := InitialForm;
    }
  }
}
