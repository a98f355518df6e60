/**
 * The shipping step: five text fields, a per-field error message set when a field loses
 * focus and cleared when it is typed into again, and the rule that decides whether the
 * form is complete.
 */
module ShippingForm {
  import Text

  const FieldNames: seq<string> := ["fullName", "email", "address", "city", "postalCode"]

  const Required := "Este campo es requerido"
  const InvalidEmail := "Email inválido"
  const InvalidPostalCode := "Código postal debe tener 5 dígitos"

  /** `/^[^\s@]+@[^\s@]+\.[^\s@]+$/.test(email)` */
  predicate ValidateEmail(email: string) {
    Text.MatchesEmailPattern(email)
  }

  /** `/^\d{5}$/.test(code)` */
  predicate ValidatePostalCode(code: string) {
    |code| == 5 && Text.AllDigits(code)
  }

  /**
   * The e-mail rule, spelt out: exactly one "@", no whitespace, something before the "@",
   * and a "." in the domain with something on both sides of it.
   */
  lemma ValidateEmailShape(email: string)
    ensures ValidateEmail(email) <==> Text.EmailShape(email)
  {
    Text.EmailPatternCharacterized(email);
  }

  /** A valid e-mail or postal code is never blank, so the form's trim checks on them add nothing. */
  lemma ValidIsNotBlank(s: string)
    ensures ValidateEmail(s) ==> !Text.IsBlank(s)
    ensures ValidatePostalCode(s) ==> !Text.IsBlank(s)
  {
    Text.BlankIffAllWhitespace(s);
    if ValidateEmail(s) {
      ValidateEmailShape(s);
      assert !Text.IsWhitespace(s[0]);
    }
    if ValidatePostalCode(s) {
      assert !Text.IsWhitespace(s[0]);
    }
  }

  /** The message `handleBlur` records for `value` in field `name`; "" records nothing. */
  function BlurError(name: string, value: string): (r: string)
    ensures Text.IsBlank(value) ==> r == Required
    ensures r == "" || r == Required || r == InvalidEmail || r == InvalidPostalCode
  {
    if Text.IsBlank(value) then Required
    else if name == "email" && !ValidateEmail(value) then InvalidEmail
    else if name == "postalCode" && !ValidatePostalCode(value) then InvalidPostalCode
    else ""
  }

  /**
   * The order of the checks: "required" wins, then the e-mail message, then the postal-code
   * message; a non-blank value that passes its field's rule records nothing.
   */
  lemma BlurPriority(name: string, value: string)
    ensures BlurError(name, value) == "" <==>
      !Text.IsBlank(value) && (name == "email" ==> ValidateEmail(value))
      && (name == "postalCode" ==> ValidatePostalCode(value))
    ensures BlurError(name, value) == InvalidEmail <==>
      !Text.IsBlank(value) && name == "email" && !ValidateEmail(value)
    ensures BlurError(name, value) == InvalidPostalCode <==>
      !Text.IsBlank(value) && name == "postalCode" && !ValidatePostalCode(value)
  {
  }

  /** The five fields are always there. */
  predicate HasFields(formData: map<string, string>) {
    forall f :: f in FieldNames ==> f in formData
  }

  predicate NoErrors(errors: map<string, string>) {
    forall k :: k in errors ==> errors[k] == ""
  }

  /** The `isValid` formula of the validation effect. */
  predicate FormValid(formData: map<string, string>, errors: map<string, string>)
    requires HasFields(formData)
  {
    !Text.IsBlank(formData["fullName"])
    && !Text.IsBlank(formData["email"]) && ValidateEmail(formData["email"])
    && !Text.IsBlank(formData["address"]) && !Text.IsBlank(formData["city"])
    && !Text.IsBlank(formData["postalCode"]) && ValidatePostalCode(formData["postalCode"])
    && NoErrors(errors)
  }

  /** The formula without its redundant trims. */
  lemma FormValidSimplified(formData: map<string, string>, errors: map<string, string>)
    requires HasFields(formData)
    ensures FormValid(formData, errors) <==>
      !Text.IsBlank(formData["fullName"]) && ValidateEmail(formData["email"])
      && !Text.IsBlank(formData["address"]) && !Text.IsBlank(formData["city"])
      && ValidatePostalCode(formData["postalCode"]) && NoErrors(errors)
  {
    ValidIsNotBlank(formData["email"]);
    ValidIsNotBlank(formData["postalCode"]);
  }

  /** In a valid form, leaving any field records no error. */
  lemma ValidFormBlursClean(formData: map<string, string>, errors: map<string, string>, f: string)
    requires HasFields(formData) && FormValid(formData, errors) && f in FieldNames
    ensures BlurError(f, formData[f]) == ""
  {
  }

  class Form {
    var formData: map<string, string>
    var errors: map<string, string>
    /** The records passed to `onUpdate`, oldest first. */
    var updates: seq<map<string, string>>

    predicate Valid()
      reads this
    {
      HasFields(formData)
    }

    constructor ()
      ensures Valid()
      ensures formData == map["fullName" := "", "email" := "", "address" := "", "city" := "", "postalCode" := ""]
      ensures errors == map[] && updates == []
    {
      formData := map["fullName" := "", "email" := "", "address" := "", "city" := "", "postalCode" := ""];
      errors := map[];
      updates := [];
    }

    /** What the validation effect reports through `onValidation`. */
    predicate Validation()
      requires Valid()
      reads this
    {
      FormValid(formData, errors)
    }

    /**
     * `handleChange`: store the value, clear the field's error if it had one, and hand the
     * updated record to the parent.
     */
    method HandleChange(name: string, value: string)
      requires Valid()
      modifies this
      ensures Valid()
      ensures formData == old(formData)[name := value]
      ensures errors == if name in old(errors) && old(errors)[name] != "" then old(errors)[name := ""]
                        else old(errors)
      ensures updates == old(updates) + [formData]
    {
      formData := formData[name := value];
      if name in errors && errors[name] != "" {
        errors := errors[name := ""];
      }
      updates := updates + [formData];
    }

    /** `handleBlur`: record the field's error if there is one; an existing error is never cleared. */
    method HandleBlur(name: string, value: string)
      requires Valid()
      modifies this
      ensures Valid()
      ensures formData == old(formData) && updates == old(updates)
      ensures errors == if BlurError(name, value) != "" then old(errors)[name := BlurError(name, value)]
                        else old(errors)
      ensures forall k :: k in old(errors) && old(errors)[k] != "" ==> k in errors && errors[k] != ""
    {
      var error := BlurError(name, value);
      if error != "" {
        errors := errors[name := error];
      }
    }
  }
}
