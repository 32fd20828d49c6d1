/** The "add staff member" form (app/admin/staff/add/page.tsx): defaults, the
    error record, the field handler and the submit guard with its FormData. */
module StaffAdd {
  import opened Wrappers
  import opened TextUtil
  import opened FormFields
  import opened Notices

  const ErrorNames: set<string> := {"name", "email", "position", "paymentRate"}

  /** The fields appended to the FormData, in order. */
  const PayloadNames: seq<string> := ["name", "email", "position", "role", "status", "paymentRate", "joinDate"]

  predicate HasAllFields(formData: map<string, string>) {
    && "name" in formData && "email" in formData && "position" in formData && "role" in formData
    && "status" in formData && "paymentRate" in formData && "joinDate" in formData
  }

  /** `today.split("T")[0]`: the date part of an ISO timestamp, everything before
      its first "T". */
  function DatePart(isoTimestamp: string): (r: string)
    ensures IsPrefix(r, isoTimestamp)
    ensures 'T' !in r
    ensures |r| < |isoTimestamp| ==> isoTimestamp[|r|] == 'T'
  {
    SplitHead(isoTimestamp, 'T');
    Split(isoTimestamp, 'T')[0]
  }

  /** `validateForm`'s `newErrors`; `parse` is `Number`, `None` standing for NaN. */
  function StaffErrors(formData: map<string, string>, parse: string -> Option<real>): (errors: map<string, string>)
    requires HasAllFields(formData)
    ensures errors.Keys == ErrorNames
  {
    map[
      "name" := RequiredError(formData["name"], "Name is required"),
      "email" := EmailError(formData["email"]),
      "position" := RequiredError(formData["position"], "Position is required"),
      "paymentRate" := AmountError(formData["paymentRate"], parse, "Payment rate is required", "Please enter a valid payment rate")]
  }

  /** The form passes exactly when name and position are filled in, the email
      matches the email pattern, and the payment rate is present and reads as a
      number above zero. */
  lemma StaffFormValidIff(formData: map<string, string>, parse: string -> Option<real>)
    requires HasAllFields(formData)
    ensures AllClear(StaffErrors(formData, parse)) <==>
      && formData["name"] != "" && formData["position"] != ""
      && MatchesEmailPattern(formData["email"])
      && formData["paymentRate"] != ""
      && parse(formData["paymentRate"]).Some? && parse(formData["paymentRate"]).value > 0.0
  {
    var errors := StaffErrors(formData, parse);
    EmailCheckMatchesPattern(formData["email"]);
    if AllClear(errors) {
      assert errors["name"] == "" && errors["email"] == "";
      assert errors["position"] == "" && errors["paymentRate"] == "";
    }
  }

  /** The FormData `handleSubmit` sends: each field under its own name, in order. */
  function StaffPayload(formData: map<string, string>): (payload: seq<(string, string)>)
    requires HasAllFields(formData)
    ensures |payload| == |PayloadNames|
    ensures forall i :: 0 <= i < |payload| ==> payload[i] == (PayloadNames[i], formData[PayloadNames[i]])
  {
    seq(|PayloadNames|, i requires 0 <= i < |PayloadNames| => (PayloadNames[i], formData[PayloadNames[i]]))
  }

  /** What `addStaffMember` came back with. */
  datatype AddOutcome = Added | Refused(error: string) | AddThrew

  /** The state of the form. */
  class StaffForm {
    var formData: map<string, string>
    var errors: map<string, string>

    ghost predicate Valid()
      reads this
    {
      HasAllFields(formData) && errors.Keys == ErrorNames
    }

    /** The initial values for a page opened at `isoNow`: empty name, email,
        position and rate, role "support", status "active", joining today. */
    constructor (isoNow: string)
      ensures Valid()
      ensures formData == map[
        "name" := "", "email" := "", "position" := "", "role" := "support",
        "status" := "active", "paymentRate" := "", "joinDate" := DatePart(isoNow)]
      ensures AllClear(errors)
    {
      formData := map[
        "name" := "", "email" := "", "position" := "", "role" := "support",
        "status" := "active", "paymentRate" := "", "joinDate" := DatePart(isoNow)];
      errors := map["name" := "", "email" := "", "position" := "", "paymentRate" := ""];
    }

    /** `handleChange`: the named field takes the typed value and only that
        field's message is cleared. */
    method HandleChange(name: string, value: string)
      requires Valid()
      modifies this
      ensures Valid()
      ensures formData == old(formData)[name := value]
      ensures errors == ClearedError(old(errors), name)
    {
      formData := formData[name := value];
      errors := ClearedError(errors, name);
    }

    /** `validateForm`: record the messages and report whether there are none. */
    method ValidateForm(parse: string -> Option<real>) returns (ok: bool)
      requires Valid()
      modifies this`errors
      ensures Valid()
      ensures errors == StaffErrors(formData, parse)
      ensures ok <==> AllClear(errors)
    {
      errors := StaffErrors(formData, parse);
      ok := AllClear(errors);
    }

    /** `handleSubmit`: an invalid form stops before `addStaffMember` is called
        (`sent` is `None`); otherwise the FormData is sent and the answer turned
        into a toast, with a redirect to the staff list on success. */
    method HandleSubmit(parse: string -> Option<real>, outcome: AddOutcome)
      returns (sent: Option<seq<(string, string)>>, toast: Option<Toast>, redirect: Option<string>)
      requires Valid()
      modifies this`errors
      ensures Valid()
      ensures errors == StaffErrors(formData, parse)
      ensures sent.Some? <==> AllClear(StaffErrors(formData, parse))
      ensures sent.Some? ==> sent.value == StaffPayload(formData)
      ensures sent.None? ==> toast == None && redirect == None
      ensures sent.Some? && outcome.Added? ==>
                toast == Some(Toast("Staff member added successfully", false)) && redirect == Some("/admin/staff")
      ensures sent.Some? && outcome.Refused? ==>
                toast == Some(Toast(ToastText(outcome.error, "Failed to add staff member"), true)) && redirect == None
      ensures sent.Some? && outcome.AddThrew? ==>
                toast == Some(Toast("An error occurred while adding staff member", true)) && redirect == None
    {
      sent, toast, redirect := None, None, None;
      var ok := ValidateForm(parse);
      if !ok {
        return;
      }
      sent := Some(StaffPayload(formData));
      match outcome {
        case Added =>
          toast := Some(Toast("Staff member added successfully", false));
          redirect := Some("/admin/staff");
        case Refused(error) =>
          toast := Some(Toast(ToastText(error, "Failed to add staff member"), true));
        case AddThrew =>
          toast := Some(Toast("An error occurred while adding staff member", true));
      }
    }
  }
}
