/** The "add client" form (app/admin/clients/add/page.tsx): its record of field
    values, the error record `validateForm` builds, the field and toggle handlers
    and the submit guard. */
module ClientAdd {
  import opened Wrappers
  import opened FormFields
  import opened Notices

  /** A form value: the text inputs hold strings, `status` a boolean. */
  datatype FieldValue = Text(text: string) | Flag(flag: bool)

  /** JavaScript truthiness of a form value. */
  predicate Truthy(v: FieldValue) {
    match v
    case Text(s) => s != ""
    case Flag(b) => b
  }

  /** The string the pattern test sees (`String(v)`). */
  function AsText(v: FieldValue): string {
    match v
    case Text(s) => s
    case Flag(b) => if b then "true" else "false"
  }

  const ErrorNames: set<string> := {"businessName", "contactPerson", "email", "phone"}

  predicate HasValidatedFields(formData: map<string, FieldValue>) {
    ErrorNames <= formData.Keys
  }

  /** `validateForm`'s `newErrors`. */
  function ClientErrors(formData: map<string, FieldValue>): (errors: map<string, string>)
    requires HasValidatedFields(formData)
    ensures errors.Keys == ErrorNames
  {
    map[
      "businessName" := if Truthy(formData["businessName"]) then "" else "Business name is required",
      "contactPerson" := if Truthy(formData["contactPerson"]) then "" else "Contact person is required",
      "email" := if Truthy(formData["email"]) then EmailError(AsText(formData["email"])) else "Email is required",
      "phone" := if Truthy(formData["phone"]) then "" else "Phone number is required"]
  }

  /** The form passes exactly when business name, contact person and phone are
      filled in and the email is filled in and matches the email pattern; an
      empty email is reported as missing, a filled-in one that does not match as
      malformed. */
  lemma ClientFormValidIff(formData: map<string, FieldValue>)
    requires HasValidatedFields(formData)
    ensures AllClear(ClientErrors(formData)) <==>
      && Truthy(formData["businessName"]) && Truthy(formData["contactPerson"]) && Truthy(formData["phone"])
      && Truthy(formData["email"]) && MatchesEmailPattern(AsText(formData["email"]))
    ensures !Truthy(formData["email"]) ==> ClientErrors(formData)["email"] == "Email is required"
    ensures Truthy(formData["email"]) && !MatchesEmailPattern(AsText(formData["email"])) ==>
      ClientErrors(formData)["email"] == "Please enter a valid email"
  {
    var errors := ClientErrors(formData);
    EmailCheckMatchesPattern(AsText(formData["email"]));
    if AllClear(errors) {
      assert errors["businessName"] == "" && errors["contactPerson"] == "";
      assert errors["email"] == "" && errors["phone"] == "";
    }
    if Truthy(formData["email"]) {
      assert AsText(formData["email"]) != "";
    }
  }

  /** What `createClient` came back with. */
  datatype CreateOutcome = Created(message: string) | Rejected(error: string) | CreateThrew

  /** The state of the form. */
  class ClientForm {
    var formData: map<string, FieldValue>
    var errors: map<string, string>
    var isSubmitting: bool

    ghost predicate Valid()
      reads this
    {
      HasValidatedFields(formData) && "status" in formData && errors.Keys == ErrorNames
    }

    /** The initial values: every text field empty, schedule "monthly", terms
        "net30", active; no messages; not submitting. */
    constructor ()
      ensures Valid() && !isSubmitting
      ensures formData == map[
        "businessName" := Text(""), "contactPerson" := Text(""), "email" := Text(""),
        "phone" := Text(""), "street" := Text(""), "city" := Text(""), "state" := Text(""),
        "zip" := Text(""), "paymentSchedule" := Text("monthly"), "paymentTerms" := Text("net30"),
        "status" := Flag(true), "notes" := Text("")]
      ensures errors.Keys == ErrorNames && AllClear(errors)
    {
      formData := map[
        "businessName" := Text(""), "contactPerson" := Text(""), "email" := Text(""),
        "phone" := Text(""), "street" := Text(""), "city" := Text(""), "state" := Text(""),
        "zip" := Text(""), "paymentSchedule" := Text("monthly"), "paymentTerms" := Text("net30"),
        "status" := Flag(true), "notes" := Text("")];
      errors := map["businessName" := "", "contactPerson" := "", "email" := "", "phone" := ""];
      isSubmitting := false;
    }

    /** `handleInputChange`: the named field takes the typed value and only that
        field's message is cleared. */
    method HandleInputChange(name: string, value: string)
      requires Valid()
      modifies this`formData, this`errors
      ensures Valid()
      ensures formData == old(formData)[name := Text(value)]
      ensures errors == ClearedError(old(errors), name)
    {
      formData := formData[name := Text(value)];
      errors := ClearedError(errors, name);
    }

    /** `handleToggleChange`: the status flips, nothing else changes. */
    method HandleToggleChange()
      requires Valid()
      modifies this`formData
      ensures Valid()
      ensures formData == old(formData)["status" := Flag(!Truthy(old(formData)["status"]))]
    {
      formData := formData["status" := Flag(!Truthy(formData["status"]))];
    }

    /** `validateForm`: record the messages and report whether there are none. */
    method ValidateForm() returns (ok: bool)
      requires Valid()
      modifies this`errors
      ensures Valid()
      ensures errors == ClientErrors(formData)
      ensures ok <==> AllClear(errors)
    {
      errors := ClientErrors(formData);
      ok := AllClear(errors);
    }

    /** `handleSubmit`: an invalid form stops before `createClient` is called
        (`sent` is false); otherwise the form is sent and the answer turned into
        a toast, a redirect to the list on success, and the submitting flag
        cleared again on failure. */
    method HandleSubmit(outcome: CreateOutcome) returns (sent: bool, toast: Option<Toast>, redirect: Option<string>)
      requires Valid()
      modifies this`errors, this`isSubmitting
      ensures Valid()
      ensures errors == ClientErrors(formData)
      ensures sent <==> AllClear(ClientErrors(formData))
      ensures !sent ==> toast == None && redirect == None && isSubmitting == old(isSubmitting)
      ensures sent && outcome.Created? ==>
                toast == Some(Toast(ToastText(outcome.message, "Client created successfully"), false))
                && redirect == Some("/admin/clients") && isSubmitting
      ensures sent && outcome.Rejected? ==>
                toast == Some(Toast(ToastText(outcome.error, "Failed to create client"), true))
                && redirect == None && !isSubmitting
      ensures sent && outcome.CreateThrew? ==>
                toast == Some(Toast("An unexpected error occurred", true)) && redirect == None && !isSubmitting
    {
      toast, redirect := None, None;
      sent := ValidateForm();
      if !sent {
        return;
      }
      isSubmitting := true;
      match outcome {
        case Created(message) =>
          toast := Some(Toast(ToastText(message, "Client created successfully"), false));
          redirect := Some("/admin/clients");
        case Rejected(error) =>
          toast := Some(Toast(ToastText(error, "Failed to create client"), true));
          isSubmitting := false;
        case CreateThrew =>
          toast := Some(Toast("An unexpected error occurred", true));
          isSubmitting := false;
      }
    }
  }
}
