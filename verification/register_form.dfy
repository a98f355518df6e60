/**
 * The registration form: a record of text fields and one checkbox, a change handler that
 * writes one field, and a submit handler whose two checks run in a fixed order before the
 * request is sent.
 */
module RegisterForm {
  import opened Wrappers

  /** A form field holds the text of an input or the state of a checkbox. */
  datatype FieldValue = Str(text: string) | Checked(on: bool)

  type FormData = map<string, FieldValue>

  const TextFields: seq<string> := ["fullName", "email", "password", "confirmPassword", "address", "phone", "rfc"]

  const PasswordMismatch := "Las contraseñas no coinciden"
  const TermsNotAccepted := "Debes aceptar los términos y condiciones"
  const RequestFailed := "Error al crear la cuenta"
  const RequestFailedFallback := "Error al crear la cuenta. Por favor, intenta de nuevo."
  const AfterRegister := "/login?registered=true"

  function InitialForm(): (d: FormData)
    ensures forall f :: f in TextFields ==> f in d && d[f] == Str("")
    ensures "acceptTerms" in d && d["acceptTerms"] == Checked(false)
  {
    map["fullName" := Str(""), "email" := Str(""), "password" := Str(""), "confirmPassword" := Str(""),
        "address" := Str(""), "phone" := Str(""), "rfc" := Str(""), "acceptTerms" := Checked(false)]
  }

  /** JavaScript truthiness of a field; a field that is not there is `undefined`. */
  predicate Truthy(v: Option<FieldValue>) {
    match v
    case None => false
    case Some(Str(s)) => s != ""
    case Some(Checked(b)) => b
  }

  function Get(data: FormData, name: string): (r: Option<FieldValue>)
    ensures r.Some? <==> name in data
    ensures r.Some? ==> r.value == data[name]
  {
    if name in data then Some(data[name]) else None
  }

  /** The event target of a change: its `name`, `value`, whether it is a checkbox and `checked`. */
  datatype Input = Input(name: string, value: string, isCheckbox: bool, checked: bool)

  /** `handleChange`: a checkbox stores `checked`, any other input its `value`. */
  function Change(data: FormData, input: Input): (r: FormData)
    ensures input.name in r
    ensures r[input.name] == if input.isCheckbox then Checked(input.checked) else Str(input.value)
    ensures forall k :: k != input.name ==> (k in r <==> k in data)
    ensures forall k :: k != input.name && k in data ==> r[k] == data[k]
  {
    data[input.name := if input.isCheckbox then Checked(input.checked) else Str(input.value)]
  }

  predicate PasswordsMatch(data: FormData) {
    Get(data, "password") == Get(data, "confirmPassword")
  }

  predicate TermsAccepted(data: FormData) {
    Truthy(Get(data, "acceptTerms"))
  }

  datatype Decision = Reject(error: string) | Send(body: FormData)

  /** The two checks of `handleSubmit`, in their order. */
  function SubmitDecision(data: FormData): (r: Decision)
    ensures r.Send? <==> PasswordsMatch(data) && TermsAccepted(data)
    ensures r.Send? ==> r.body == data
    ensures r == Reject(PasswordMismatch) <==> !PasswordsMatch(data)
    ensures r == Reject(TermsNotAccepted) <==> PasswordsMatch(data) && !TermsAccepted(data)
  {
    if Get(data, "password") != Get(data, "confirmPassword") then Reject(PasswordMismatch)
    else if !Truthy(Get(data, "acceptTerms")) then Reject(TermsNotAccepted)
    else Send(data)
  }

  /** The fresh form is rejected on the terms, since its two empty passwords agree. */
  lemma FreshFormNeedsTerms()
    ensures SubmitDecision(InitialForm()) == Reject(TermsNotAccepted)
  {
  }

  /**
   * Typing one password into both fields and ticking the box, in any prior state, makes
   * the form sendable; typing a different confirmation makes it fail on the mismatch,
   * whatever the checkbox says.
   */
  lemma {:induction false} FillingInSends(data: FormData, pw: string, other: string, ticked: bool)
    ensures var d := Change(Change(Change(data, Input("password", pw, false, false)),
                                   Input("confirmPassword", pw, false, false)),
                            Input("acceptTerms", "on", true, true));
      SubmitDecision(d) == Send(d)
    ensures other != pw ==>
      var d := Change(Change(Change(data, Input("acceptTerms", "on", true, ticked)),
                             Input("password", pw, false, false)),
                      Input("confirmPassword", other, false, false));
      SubmitDecision(d) == Reject(PasswordMismatch)
  {
    var d1 := Change(data, Input("password", pw, false, false));
    var d2 := Change(d1, Input("confirmPassword", pw, false, false));
    var d3 := Change(d2, Input("acceptTerms", "on", true, true));
    assert Get(d3, "password") == Some(Str(pw)) && Get(d3, "confirmPassword") == Some(Str(pw));
    assert Get(d3, "acceptTerms") == Some(Checked(true));
    if other != pw {
      var e1 := Change(data, Input("acceptTerms", "on", true, ticked));
      var e2 := Change(e1, Input("password", pw, false, false));
      var e3 := Change(e2, Input("confirmPassword", other, false, false));
      assert Get(e3, "password") == Some(Str(pw)) && Get(e3, "confirmPassword") == Some(Str(other));
    }
  }

  /** How the server call ended: accepted, answered with a non-2xx status, or thrown with a message. */
  datatype Reply = Accepted | NotOk | Thrown(message: string)

  /** `err.message || '…'` for the error the request path raised. */
  function FailureMessage(reply: Reply): (m: string)
    requires !reply.Accepted?
    ensures m != ""
    ensures reply.Thrown? && reply.message != "" ==> m == reply.message
  {
    match reply
    case NotOk => RequestFailed
    case Thrown(msg) => if msg != "" then msg else RequestFailedFallback
  }

  class Register {
    var formData: FormData
    var error: string
    var isLoading: bool
    /** How many times the loading flag was raised. */
    var loadingRaised: nat
    /** The bodies of the requests sent to the server, oldest first. */
    var requests: seq<FormData>
    var location: Option<string>

    constructor ()
      ensures formData == InitialForm() && error == "" && !isLoading
      ensures loadingRaised == 0 && requests == [] && location.None?
    {
      formData := InitialForm();
      error := "";
      isLoading := false;
      loadingRaised := 0;
      requests := [];
      location := None;
    }

    method HandleChange(input: Input)
      modifies this
      ensures formData == Change(old(formData), input)
      ensures error == old(error) && isLoading == old(isLoading) && loadingRaised == old(loadingRaised)
      ensures requests == old(requests) && location == old(location)
    {
      formData := formData[input.name := if input.isCheckbox then Checked(input.checked) else Str(input.value)];
    }

    /**
     * `handleSubmit`, with the server's answer as a parameter: the error is cleared, the
     * checks run, and only when both pass is loading raised and the request sent.
     */
    method HandleSubmit(reply: Reply)
      modifies this
      ensures formData == old(formData)
      ensures SubmitDecision(old(formData)).Reject? ==>
        error == SubmitDecision(old(formData)).error && requests == old(requests) && isLoading == old(isLoading)
        && loadingRaised == old(loadingRaised) && location == old(location)
      ensures SubmitDecision(old(formData)).Send? ==>
        requests == old(requests) + [old(formData)] && loadingRaised == old(loadingRaised) + 1 && !isLoading
      ensures SubmitDecision(old(formData)).Send? && reply.Accepted? ==>
        error == "" && location == Some(AfterRegister)
      ensures SubmitDecision(old(formData)).Send? && !reply.Accepted? ==>
        error == FailureMessage(reply) && location == old(location)
    {
      error := "";
      if Get(formData, "password") != Get(formData, "confirmPassword") {
        error := PasswordMismatch;
        return;
      }
      if !Truthy(Get(formData, "acceptTerms")) {
        error := TermsNotAccepted;
        return;
      }
      isLoading := true;
      loadingRaised := loadingRaised + 1;
      requests := requests + [formData];
      if reply.Accepted? {
        location := Some(AfterRegister);
      } else {
        error := FailureMessage(reply);
      }
      isLoading := false;
    }
  }
}
