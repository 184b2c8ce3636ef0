/** The four-page move-in sign-up form: the page counter with its progress
    steps, the form fields and switches, the back button that leaves the form
    from the first page, and the submission that saves a new session. */
module MoveIn {
  import opened Text
  import opened JsValues
  import opened Sessions
  import opened Feedback

  const LAST_PAGE := 4

  const SIGNED_UP_MESSAGE := "Signup successful \U{2014} you are now logged in."

  /** The initial `formData`. */
  const INITIAL_FORM: map<string, JVal> := map[
    "customerType" := Str("Owner"),
    "ownerStayingInApartment" := Bool(false),
    "apartmentRentedOut" := Bool(false),
    "apartmentWillBeRentedOut" := Bool(false),
    "title" := Str("Mr."),
    "customerName" := Str(""),
    "mobileNumber" := Str("+971 741852963"),
    "email" := Str(""),
    "country" := Str(""),
    "city" := Str(""),
    "zipCode" := Str(""),
    "moveInDate" := Str(""),
    "gender" := Str(""),
    "alternativeNumber" := Str(""),
    "alternativeEmail" := Str(""),
    "state" := Str(""),
    "nationality" := Str(""),
    "area" := Str("DUBAI PRODUCTION CITY"),
    "building" := Str("AFNAN 5 (B6)"),
    "unit" := Str("806"),
    "emiratesId" := Str(""),
    "emiratesIdExpiryDate" := Str(""),
    "passportNo" := Str(""),
    "passportExpiryDate" := Str(""),
    "ejarlContractNo" := Str(""),
    "ejarlStartDate" := Str(""),
    "ejarlExpiryDate" := Str(""),
    "documents" := Arr([])
  ]

  /** `formData[field]`, `undefined` for a field the form does not have. */
  function Field(form: map<string, JVal>, field: string): JVal {
    if field in form then form[field] else Undefined
  }

  /** The form after `toggleSwitch(field)`. */
  function Toggled(form: map<string, JVal>, field: string): map<string, JVal> {
    form[field := Bool(!Truthy(Field(form, field)))]
  }

  /** Flipping a switch twice puts it back; no other field is ever touched. */
  lemma ToggleTwice(form: map<string, JVal>, field: string)
    requires field in form && form[field].Bool?
    ensures Toggled(Toggled(form, field), field) == form
    ensures forall k :: k in form && k != field ==> Field(Toggled(form, field), k) == form[k]
  {
  }

  /** The payload of `handleSubmit`; `now` is `Date.now()`. */
  function SignupPayload(form: map<string, JVal>, now: int): (p: SessionPayload)
    ensures p.clientTypeId == 1
    ensures p.firstName == (if Truthy(Field(form, "customerName")) then Field(form, "customerName") else Str("User"))
    ensures Truthy(Field(form, "mobileNumber")) ==> p.clientId == ToJsString(Field(form, "mobileNumber"))
    ensures !Truthy(Field(form, "mobileNumber")) ==> p.clientId == "temp-" + IntToString(now)
    ensures p.email == Or(Field(form, "email"), Str(""))
    ensures p.mobileNumber == Or(Field(form, "mobileNumber"), Str(""))
    ensures Truthy(p.firstName)
  {
    SessionPayload(
      Or(Field(form, "customerName"), Str("User")),
      ToJsString(Or(Field(form, "mobileNumber"), Str("temp-" + IntToString(now)))),
      1,
      Or(Field(form, "email"), Str("")),
      Or(Field(form, "mobileNumber"), Str("")))
  }

  /** With the initial form the new session's client id is the pre-filled number. */
  lemma DefaultPayloadUsesPrefilledNumber(now: int)
    ensures SignupPayload(INITIAL_FORM, now).clientId == "+971 741852963"
    ensures SignupPayload(INITIAL_FORM, now).firstName == Str("User")
  {
    assert Field(INITIAL_FORM, "mobileNumber") == Str("+971 741852963");
    assert Field(INITIAL_FORM, "customerName") == Str("");
  }

  /** The progress bar: whether each of the four steps is highlighted. */
  function StepFlags(currentPage: int): (flags: seq<bool>)
    ensures |flags| == 4
  {
    seq(4, i => i + 1 <= currentPage)
  }

  /** The three connectors between the steps. */
  function ConnectorFlags(currentPage: int): (flags: seq<bool>)
    ensures |flags| == 3
  {
    seq(3, i => i + 1 < currentPage)
  }

  function CountTrue(flags: seq<bool>): nat {
    if flags == [] then 0 else (if flags[0] then 1 else 0) + CountTrue(flags[1..])
  }

  /** A run of `k` lit flags followed by unlit ones counts `k`. */
  lemma {:induction false} CountLitPrefix(flags: seq<bool>, k: nat)
    requires k <= |flags|
    requires forall i :: 0 <= i < |flags| ==> (flags[i] <==> i < k)
    ensures CountTrue(flags) == k
  {
    if flags != [] {
      CountLitPrefix(flags[1..], if k > 0 then k - 1 else 0);
    }
  }

  /** Step n is highlighted exactly when n <= currentPage and the connector after
      it exactly when n < currentPage, so on page p the first p steps and the
      first p - 1 connectors are lit. */
  lemma ProgressMatchesPage(currentPage: int)
    requires 1 <= currentPage <= LAST_PAGE
    ensures forall i :: 0 <= i < 4 ==> (StepFlags(currentPage)[i] <==> i + 1 <= currentPage)
    ensures forall i :: 0 <= i < 3 ==> (ConnectorFlags(currentPage)[i] <==> i + 1 < currentPage)
    ensures CountTrue(StepFlags(currentPage)) == currentPage
    ensures CountTrue(ConnectorFlags(currentPage)) == currentPage - 1
  {
    CountLitPrefix(StepFlags(currentPage), currentPage);
    CountLitPrefix(ConnectorFlags(currentPage), currentPage - 1);
  }

  datatype FormPage = OwnerApplicant | TenantApplicant | PropertyDetails | KycDetails | UploadDocuments

  /** `renderCurrentPage`: pages 2 to 4 by number, anything else is page 1, whose
      form depends on whether the customer is an owner. */
  function RenderPage(currentPage: int, form: map<string, JVal>): (p: FormPage)
    ensures currentPage == 2 <==> p == PropertyDetails
    ensures currentPage == 3 <==> p == KycDetails
    ensures currentPage == 4 <==> p == UploadDocuments
    ensures currentPage !in {2, 3, 4} ==>
      (p == OwnerApplicant <==> Field(form, "customerType") == Str("Owner")) &&
      (p.OwnerApplicant? || p.TenantApplicant?)
  {
    if currentPage == 2 then PropertyDetails
    else if currentPage == 3 then KycDetails
    else if currentPage == 4 then UploadDocuments
    else if Field(form, "customerType") == Str("Owner") then OwnerApplicant
    else TenantApplicant
  }

  function BackLabel(currentPage: int): string {
    if currentPage == 1 then "Cancel" else "Back"
  }

  function NextLabel(currentPage: int): string {
    if currentPage == 4 then "Submit" else "Next"
  }

  /** What the back button does on the first page. */
  datatype Exit = GoBack | CloseForm | StayPut

  class MoveInForm {
    var currentPage: int
    var formData: map<string, JVal>
    /** `navigation.goBack` and `onClose` are functions. */
    const canGoBack: bool
    const canClose: bool
    var alerts: seq<Alert>
    var sessionWrites: seq<SessionWrite>

    ghost predicate Valid()
      reads this
    {
      1 <= currentPage <= LAST_PAGE
    }

    constructor (goBackProp: bool, onCloseProp: bool)
      ensures Valid()
      ensures currentPage == 1 && formData == INITIAL_FORM
      ensures canGoBack == goBackProp && canClose == onCloseProp
      ensures alerts == [] && sessionWrites == []
    {
      currentPage := 1;
      formData := INITIAL_FORM;
      canGoBack := goBackProp;
      canClose := onCloseProp;
      alerts := [];
      sessionWrites := [];
    }

    /** `handleInputChange`: only the named field changes. */
    method InputChange(field: string, value: string)
      requires Valid()
      modifies this
      ensures Valid()
      ensures formData == old(formData)[field := Str(value)]
      ensures currentPage == old(currentPage) && alerts == old(alerts) && sessionWrites == old(sessionWrites)
    {
      formData := formData[field := Str(value)];
    }

    /** `toggleSwitch`: only the named field changes, to the negation of its value. */
    method ToggleSwitch(field: string)
      requires Valid()
      modifies this
      ensures Valid()
      ensures formData == Toggled(old(formData), field)
      ensures currentPage == old(currentPage) && alerts == old(alerts) && sessionWrites == old(sessionWrites)
    {
      formData := Toggled(formData, field);
    }

    /** `handleSubmit`: the new session is saved and a success alert shown. */
    method Submit(now: int)
      requires Valid()
      modifies this
      ensures Valid()
      ensures sessionWrites == old(sessionWrites) + [Saved(SignupPayload(formData, now))]
      ensures alerts == old(alerts) + [Alert("Success", SIGNED_UP_MESSAGE)]
      ensures currentPage == old(currentPage) && formData == old(formData)
    {
      sessionWrites := sessionWrites + [Saved(SignupPayload(formData, now))];
      alerts := alerts + [Alert("Success", SIGNED_UP_MESSAGE)];
    }

    /** `handleNext`: the next page, or the submission on the last one. */
    method Next(now: int)
      requires Valid()
      modifies this
      ensures Valid()
      ensures old(currentPage) < LAST_PAGE ==>
        currentPage == old(currentPage) + 1 && sessionWrites == old(sessionWrites) && alerts == old(alerts)
      ensures old(currentPage) == LAST_PAGE ==>
        currentPage == LAST_PAGE &&
        sessionWrites == old(sessionWrites) + [Saved(SignupPayload(formData, now))] &&
        alerts == old(alerts) + [Alert("Success", SIGNED_UP_MESSAGE)]
      ensures formData == old(formData)
    {
      if currentPage < LAST_PAGE {
        currentPage := currentPage + 1;
      } else {
        Submit(now);
      }
    }

    /** `handleBack`: the previous page, or on the first page leaving the form
        through the navigator, else through `onClose`. */
    method Back() returns (exit: Exit)
      requires Valid()
      modifies this
      ensures Valid()
      ensures old(currentPage) > 1 ==> currentPage == old(currentPage) - 1 && exit == StayPut
      ensures old(currentPage) == 1 ==>
        currentPage == 1 && exit == (if canGoBack then GoBack else if canClose then CloseForm else StayPut)
      ensures formData == old(formData) && alerts == old(alerts) && sessionWrites == old(sessionWrites)
    {
      exit := StayPut;
      if currentPage > 1 {
        currentPage := currentPage - 1;
      } else {
        if canGoBack {
          exit := GoBack;
        } else if canClose {
          exit := CloseForm;
        }
      }
    }

    /** The page shown is always one of the form's own pages, and the fallback
        to page 1 in `renderCurrentPage` is never needed. */
    lemma ShownPageMatchesCounter()
      requires Valid()
      ensures currentPage == 1 <==> RenderPage(currentPage, formData) in {OwnerApplicant, TenantApplicant}
      ensures BackLabel(currentPage) == "Cancel" <==> currentPage == 1
      ensures NextLabel(currentPage) == "Submit" <==> currentPage == LAST_PAGE
    {
    }
  }
}
