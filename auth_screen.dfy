/** The sign-in / sign-up card shown without a session: the tab switch, the
    three-page sign-up wizard with its captcha and required-field checks, the
    option picker, and the registration that hands a new session to
    `saveSession`. Alerts, `saveSession` and `navigation.navigate` are recorded
    in logs. */
module AuthScreen {
  import opened Text
  import opened JsValues
  import opened Sessions
  import opened Feedback

  const FORM_KEYS: set<string> := {
    "userType", "area", "building", "name", "units",
    "phoneNo", "emailId", "otp", "password", "confirmPassword" }

  const INITIAL_FORM: map<string, string> := map k | k in FORM_KEYS :: ""


  /** `(input || "").trim().toUpperCase() === (captcha || "").trim().toUpperCase()` */
  predicate CaptchaMatches(input: string, captcha: string) {
    Upper(Trim(input)) == Upper(Trim(captcha))
  }

  /** Typing the captcha in capitals is accepted. */
  lemma CaptchaIgnoresCase(captcha: string)
    ensures CaptchaMatches(Upper(captcha), captcha)
  {
    TrimUpper(captcha);
    UpperIdempotent(Trim(captcha));
  }

  /** White space typed around the captcha is accepted. */
  lemma CaptchaIgnoresSurroundingSpace(w1: string, captcha: string, w2: string)
    requires Blank(w1) && Blank(w2)
    ensures CaptchaMatches(w1 + captcha + w2, captcha)
  {
    TrimPadded(w1, captcha, w2);
  }

  /** Page 1 needs a user type, an area and a building; page 2 a name, a
      phone number and an e-mail address. */
  predicate RequiredFilled(page: int, form: map<string, string>)
    requires FORM_KEYS <= form.Keys
  {
    if page == 1 then form["userType"] != "" && form["area"] != "" && form["building"] != ""
    else form["name"] != "" && form["phoneNo"] != "" && form["emailId"] != ""
  }

  /** The payload of `handleSubmit`; `now` is `Date.now()`. */
  function RegistrationPayload(form: map<string, string>, now: int): (p: SessionPayload)
    requires FORM_KEYS <= form.Keys
    ensures p.clientTypeId == 1
    ensures p.firstName == Str(if form["name"] != "" then form["name"] else "User")
    ensures form["phoneNo"] != "" ==> p.clientId == form["phoneNo"]
    ensures form["phoneNo"] == "" && form["emailId"] != "" ==> p.clientId == form["emailId"]
    ensures form["phoneNo"] == "" && form["emailId"] == "" ==> p.clientId == "temp-" + IntToString(now)
    ensures p.clientId != "" && Truthy(p.firstName)
    ensures p.email == Str(form["emailId"]) && p.mobileNumber == Str(form["phoneNo"])
  {
    SessionPayload(
      Str(OrElse(form["name"], "User")),
      OrElse(form["phoneNo"], OrElse(form["emailId"], "temp-" + IntToString(now))),
      1,
      Str(OrElse(form["emailId"], "")),
      Str(OrElse(form["phoneNo"], "")))
  }

  /** What the card body shows: the login form, a sign-up step, or nothing. */
  datatype Body = LoginBody | SignupStep(step: int) | NoBody

  function RenderBody(activeTab: string, currentPage: int): Body {
    if activeTab == "login" then LoginBody
    else if currentPage == 1 || currentPage == 2 || currentPage == 3 then SignupStep(currentPage)
    else NoBody
  }

  class AuthCard {
    var activeTab: string
    var currentPage: int
    var showPicker: bool
    var pickerType: string
    var captchaText: string
    var captchaInput: string
    var captchaInput2: string
    var signupForm: map<string, string>
    /** Whether a `navigation` prop was passed (the root passes none). */
    const hasNavigation: bool
    var alerts: seq<Alert>
    var sessionWrites: seq<SessionWrite>
    var navigations: seq<string>

    ghost predicate Valid()
      reads this
    {
      1 <= currentPage <= 3 && FORM_KEYS <= signupForm.Keys
    }

    constructor (navigationProp: bool)
      ensures Valid()
      ensures activeTab == "login" && currentPage == 1 && !showPicker && pickerType == ""
      ensures captchaText == "" && captchaInput == "" && captchaInput2 == ""
      ensures signupForm == INITIAL_FORM && hasNavigation == navigationProp
      ensures alerts == [] && sessionWrites == [] && navigations == []
    {
      activeTab := "login";
      currentPage := 1;
      showPicker := false;
      pickerType := "";
      captchaText := "";
      captchaInput := "";
      captchaInput2 := "";
      signupForm := INITIAL_FORM;
      hasNavigation := navigationProp;
      alerts := [];
      sessionWrites := [];
      navigations := [];
    }

    /** The sign-up body never falls through to rendering nothing. */
    lemma BodyAlwaysShown()
      requires Valid()
      ensures RenderBody(activeTab, currentPage) != NoBody
    {
    }

    /** `onChange(field, value)`: only that field of the form changes. */
    method OnChange(field: string, value: string)
      requires Valid()
      modifies this
      ensures Valid()
      ensures signupForm == old(signupForm)[field := value]
      ensures activeTab == old(activeTab) && currentPage == old(currentPage)
      ensures showPicker == old(showPicker) && pickerType == old(pickerType)
      ensures captchaText == old(captchaText) && captchaInput == old(captchaInput) && captchaInput2 == old(captchaInput2)
      ensures alerts == old(alerts) && sessionWrites == old(sessionWrites) && navigations == old(navigations)
    {
      signupForm := signupForm[field := value];
    }

    method OpenPicker(kind: string)
      requires Valid()
      modifies this
      ensures Valid()
      ensures pickerType == kind && showPicker
      ensures activeTab == old(activeTab) && currentPage == old(currentPage) && signupForm == old(signupForm)
      ensures captchaText == old(captchaText) && captchaInput == old(captchaInput) && captchaInput2 == old(captchaInput2)
      ensures alerts == old(alerts) && sessionWrites == old(sessionWrites) && navigations == old(navigations)
    {
      pickerType := kind;
      showPicker := true;
    }

    /** `selectOption`: the picked value goes into the field being picked, and the picker closes. */
    method SelectOption(value: string)
      requires Valid()
      modifies this
      ensures Valid()
      ensures signupForm == old(signupForm)[old(pickerType) := value] && !showPicker
      ensures pickerType == old(pickerType)
      ensures activeTab == old(activeTab) && currentPage == old(currentPage)
      ensures captchaText == old(captchaText) && captchaInput == old(captchaInput) && captchaInput2 == old(captchaInput2)
      ensures alerts == old(alerts) && sessionWrites == old(sessionWrites) && navigations == old(navigations)
    {
      OnChange(pickerType, value);
      showPicker := false;
    }

    /** Closing the picker without choosing. */
    method ClosePicker()
      requires Valid()
      modifies this
      ensures Valid()
      ensures !showPicker
      ensures pickerType == old(pickerType) && signupForm == old(signupForm)
      ensures activeTab == old(activeTab) && currentPage == old(currentPage)
      ensures captchaText == old(captchaText) && captchaInput == old(captchaInput) && captchaInput2 == old(captchaInput2)
      ensures alerts == old(alerts) && sessionWrites == old(sessionWrites) && navigations == old(navigations)
    {
      showPicker := false;
    }

    /** The captcha component reports the text it drew. */
    method SetCaptchaText(text: string)
      requires Valid()
      modifies this
      ensures Valid()
      ensures captchaText == text
      ensures captchaInput == old(captchaInput) && captchaInput2 == old(captchaInput2)
      ensures activeTab == old(activeTab) && currentPage == old(currentPage) && signupForm == old(signupForm)
      ensures showPicker == old(showPicker) && pickerType == old(pickerType)
      ensures alerts == old(alerts) && sessionWrites == old(sessionWrites) && navigations == old(navigations)
    {
      captchaText := text;
    }

    /** Typing into the captcha box of page 1 (`second == false`) or page 2. */
    method TypeCaptcha(second: bool, input: string)
      requires Valid()
      modifies this
      ensures Valid()
      ensures !second ==> captchaInput == input && captchaInput2 == old(captchaInput2)
      ensures second ==> captchaInput2 == input && captchaInput == old(captchaInput)
      ensures captchaText == old(captchaText)
      ensures activeTab == old(activeTab) && currentPage == old(currentPage) && signupForm == old(signupForm)
      ensures showPicker == old(showPicker) && pickerType == old(pickerType)
      ensures alerts == old(alerts) && sessionWrites == old(sessionWrites) && navigations == old(navigations)
    {
      if second {
        captchaInput2 := input;
      } else {
        captchaInput := input;
      }
    }

    /** The captcha box of the current page. */
    function CaptchaInputOfPage(): string
      reads this
    {
      if currentPage == 1 then captchaInput else captchaInput2
    }

    /** The page-1 and page-2 checks of `handleSignupNext`. */
    predicate PageComplete()
      requires Valid()
      reads this
    {
      (currentPage == 1 || currentPage == 2) &&
      CaptchaMatches(CaptchaInputOfPage(), captchaText) &&
      RequiredFilled(currentPage, signupForm)
    }

    /** `handleSignupNext`: page 1 or 2 advances exactly when its captcha matches
        and its required fields are filled; otherwise it calls the global
        `alert("Error", <which check failed>)`, which shows only "Error", so a
        wrong captcha and a missing field look alike. Page 3 is left alone. */
    method HandleSignupNext()
      requires Valid()
      modifies this
      ensures Valid()
      ensures old(PageComplete()) ==> currentPage == old(currentPage) + 1 && alerts == old(alerts)
      ensures !old(PageComplete()) ==> currentPage == old(currentPage)
      ensures old(currentPage) == 3 ==> alerts == old(alerts)
      ensures old(currentPage) < 3 && !CaptchaMatches(old(CaptchaInputOfPage()), captchaText) ==>
        alerts == old(alerts) + [GlobalAlert("Error")]
      ensures (old(currentPage) < 3 && CaptchaMatches(old(CaptchaInputOfPage()), captchaText) &&
               !RequiredFilled(old(currentPage), signupForm)) ==>
        alerts == old(alerts) + [GlobalAlert("Error")]
      ensures activeTab == old(activeTab) && signupForm == old(signupForm)
      ensures showPicker == old(showPicker) && pickerType == old(pickerType)
      ensures captchaText == old(captchaText) && captchaInput == old(captchaInput) && captchaInput2 == old(captchaInput2)
      ensures sessionWrites == old(sessionWrites) && navigations == old(navigations)
    {
      if currentPage == 1 || currentPage == 2 {
        var matches := CaptchaMatches(CaptchaInputOfPage(), captchaText);
        var filled := RequiredFilled(currentPage, signupForm);
        assert PageComplete() <==> matches && filled;
        if !matches {
          alerts := alerts + [GlobalAlert("Error")];
        } else if !filled {
          alerts := alerts + [GlobalAlert("Error")];
        } else {
          currentPage := currentPage + 1;
        }
      }
    }

    /** `prevStep`: one page back, never below page 1. */
    method PrevStep()
      requires Valid()
      modifies this
      ensures Valid()
      ensures currentPage == if old(currentPage) > 1 then old(currentPage) - 1 else 1
      ensures activeTab == old(activeTab) && signupForm == old(signupForm)
      ensures showPicker == old(showPicker) && pickerType == old(pickerType)
      ensures captchaText == old(captchaText) && captchaInput == old(captchaInput) && captchaInput2 == old(captchaInput2)
      ensures alerts == old(alerts) && sessionWrites == old(sessionWrites) && navigations == old(navigations)
    {
      currentPage := if currentPage - 1 > 1 then currentPage - 1 else 1;
    }

    /** The back button of step 1 returns to the login tab and keeps the page. */
    method BackToLogin()
      requires Valid()
      modifies this
      ensures Valid()
      ensures activeTab == "login" && currentPage == old(currentPage)
      ensures signupForm == old(signupForm)
      ensures showPicker == old(showPicker) && pickerType == old(pickerType)
      ensures captchaText == old(captchaText) && captchaInput == old(captchaInput) && captchaInput2 == old(captchaInput2)
      ensures alerts == old(alerts) && sessionWrites == old(sessionWrites) && navigations == old(navigations)
    {
      activeTab := "login";
    }

    /** The Login tab: back to login and to the first sign-up page. */
    method LoginTab()
      requires Valid()
      modifies this
      ensures Valid()
      ensures activeTab == "login" && currentPage == 1
      ensures signupForm == old(signupForm)
      ensures showPicker == old(showPicker) && pickerType == old(pickerType)
      ensures captchaText == old(captchaText) && captchaInput == old(captchaInput) && captchaInput2 == old(captchaInput2)
      ensures alerts == old(alerts) && sessionWrites == old(sessionWrites) && navigations == old(navigations)
    {
      activeTab := "login";
      currentPage := 1;
    }

    /** The Sign Up tab (and the login form's sign-up link) changes only the tab. */
    method SignupTab()
      requires Valid()
      modifies this
      ensures Valid()
      ensures activeTab == "signup" && currentPage == old(currentPage)
      ensures signupForm == old(signupForm)
      ensures showPicker == old(showPicker) && pickerType == old(pickerType)
      ensures captchaText == old(captchaText) && captchaInput == old(captchaInput) && captchaInput2 == old(captchaInput2)
      ensures alerts == old(alerts) && sessionWrites == old(sessionWrites) && navigations == old(navigations)
    {
      activeTab := "signup";
    }

    /** `handleSubmit` at time `now`: different passwords only raise an alert;
        otherwise the new session is saved, the global alert shows "Success"
        (its message argument is dropped) and, when there is a navigator, it
        goes to "Home". */
    method HandleSubmit(now: int)
      requires Valid()
      modifies this
      ensures Valid()
      ensures signupForm["password"] != signupForm["confirmPassword"] ==>
        alerts == old(alerts) + [GlobalAlert("Passwords do not match")] &&
        sessionWrites == old(sessionWrites) && navigations == old(navigations)
      ensures signupForm["password"] == signupForm["confirmPassword"] ==>
        sessionWrites == old(sessionWrites) + [Saved(RegistrationPayload(signupForm, now))] &&
        alerts == old(alerts) + [GlobalAlert("Success")] &&
        navigations == old(navigations) + (if hasNavigation then ["Home"] else [])
      ensures activeTab == old(activeTab) && currentPage == old(currentPage) && signupForm == old(signupForm)
      ensures showPicker == old(showPicker) && pickerType == old(pickerType)
      ensures captchaText == old(captchaText) && captchaInput == old(captchaInput) && captchaInput2 == old(captchaInput2)
    {
      if signupForm["password"] != signupForm["confirmPassword"] {
        alerts := alerts + [GlobalAlert("Passwords do not match")];
        return;
      }
      var payload := RegistrationPayload(signupForm, now);
      sessionWrites := sessionWrites + [Saved(payload)];
      alerts := alerts + [GlobalAlert("Success")];
      if hasNavigation {
        navigations := navigations + ["Home"];
      }
    }
  }
}
