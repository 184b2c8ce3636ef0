/** The profile screen: the approved-client record fetched for the session's
    client, its fields mapped to display strings with dash fallbacks, the
    accordion of four sections, the editable KYC values, and the document
    preview and upload prompts. The response is an input; `new Date(...)` is the
    parser parameter of the `Dates` module. */
module Profile {
  import opened Optional
  import opened Text
  import opened JsValues
  import opened Dates

  // ---------------------------------------------------------------------------
  // Dates
  // ---------------------------------------------------------------------------

  /** `formatDate`: a hyphen for a falsy value, the value itself when the engine
      cannot read it, and otherwise its day-first "DD/MM/YYYY" form. */
  function FormatDate(v: JVal, parse: DateParser): (r: JVal)
    ensures !Truthy(v) ==> r == Str("-")
    ensures Truthy(v) && parse(v).None? ==> r == v
    ensures Truthy(v) && parse(v).Some? ==>
      r.Str? && |r.s| >= 6 && r.s[2] == '/' && r.s[5] == '/' &&
      r.s[..2] == Pad2(parse(v).value.day as nat) && r.s[3..5] == Pad2(parse(v).value.month as nat + 1) &&
      r.s[6..] == NatToString(parse(v).value.year as nat)
  {
    if !Truthy(v) then Str("-")
    else
      var d := parse(v);
      if d.None? then v
      else
        var dd := Pad2(d.value.day as nat);
        var mm := Pad2(d.value.month as nat + 1);
        var s := dd + "/" + mm + "/" + NatToString(d.value.year as nat);
        assert s[..2] == dd && s[3..5] == mm && s[6..] == NatToString(d.value.year as nat);
        Str(s)
  }

  // ---------------------------------------------------------------------------
  // Field mappings (`p = profile || {}`)
  // ---------------------------------------------------------------------------

  /** `p.<key> || "—"` */
  function OrDash(p: JVal, key: string): (r: JVal)
    ensures Truthy(r)
    ensures Truthy(Get(p, key)) ==> r == Get(p, key)
  {
    Or(Get(p, key), Str(DASH))
  }

  /** The customer type: strict comparison with the numbers 1 and 2. */
  function CustomerTypeText(p: JVal): (t: string)
    ensures t == "Owner" <==> Get(p, "ClientTypeid") == Num(1)
    ensures t == "Tenant" <==> Get(p, "ClientTypeid") == Num(2)
    ensures t == "Owner" || t == "Tenant" || t == "Unknown"
  {
    var v := Get(p, "ClientTypeid");
    if v == Num(1) then "Owner" else if v == Num(2) then "Tenant" else "Unknown"
  }

  /** Both tests are strict: a client type "1" is unknown, and only the string
      "1" counts as an individual unit, while the number 1 is shown as it is. */
  lemma CustomerTypeIsStrict()
    ensures CustomerTypeText(Obj(map["ClientTypeid" := Str("1")])) == "Unknown"
    ensures CustomerTypeText(Obj(map[])) == "Unknown"
    ensures UnitTypeText(Obj(map["UnitType" := Num(1)])) == "1"
    ensures UnitTypeText(Obj(map[])) == DASH
  {
    assert Get(Obj(map["ClientTypeid" := Str("1")]), "ClientTypeid") == Str("1");
    assert Get(Obj(map["UnitType" := Num(1)]), "UnitType") == Num(1);
  }

  /** `p.UnitType === "1" ? "Individual" : p.UnitType || "—"` */
  function UnitTypeText(p: JVal): (t: string)
    ensures Get(p, "UnitType") == Str("1") ==> t == "Individual"
    ensures Get(p, "UnitType") != Str("1") ==> t == TextOf(OrDash(p, "UnitType"))
  {
    var v := Get(p, "UnitType");
    if v == Str("1") then "Individual" else TextOf(Or(v, Str(DASH)))
  }

  /** `String(p.OfficeID || "")`: unlike the contract screen, office 0 shows as blank. */
  function OfficeIdText(p: JVal): (t: string)
    ensures !Truthy(Get(p, "OfficeID")) ==> t == ""
    ensures Truthy(Get(p, "OfficeID")) ==> t == ToJsString(Get(p, "OfficeID"))
  {
    ToJsString(Or(Get(p, "OfficeID"), Str("")))
  }

  /** `building ? \`${building} - ${unit}\` : "—"` with both already dashed. */
  function GreetingBuilding(p: JVal): string {
    var building := OrDash(p, "BuildingName");
    if Truthy(building) then ToJsString(building) + " - " + ToJsString(OrDash(p, "UnitName")) else DASH
  }

  /** The building has a dash fallback before the test, so the test always
      passes: the greeting always joins building and unit, and an empty profile
      greets with "— - —". */
  lemma GreetingBuildingAlwaysJoined(p: JVal)
    ensures GreetingBuilding(p) == ToJsString(OrDash(p, "BuildingName")) + " - " + ToJsString(OrDash(p, "UnitName"))
    ensures GreetingBuilding(Obj(map[])) == DASH + " - " + DASH
  {
  }

  /** A caption and the text shown beside it. */
  datatype Row = Row(caption: string, value: string, verified: bool, editing: bool)

  function PlainRow(caption: string, v: JVal): Row {
    Row(caption, TextOf(v), false, false)
  }

  /** The applicant section, in its order. */
  function ApplicantRows(p: JVal, parse: DateParser): (rows: seq<Row>)
    ensures |rows| == 12
    ensures rows[0].value == CustomerTypeText(p) && rows[2].value == UnitTypeText(p)
    ensures forall i :: 0 <= i < |rows| ==> (rows[i].verified <==> rows[i].caption == "Mobile Number")
  {
    [ Row("Customer Type", CustomerTypeText(p), false, false),
      PlainRow("Move-in Request Date", FormatDate(Get(p, "MoveInRequestDate"), parse)),
      Row("Unit Type", UnitTypeText(p), false, false),
      PlainRow("Contract Type", OrDash(p, "ContractType")),
      PlainRow("Customer Name", OrDash(p, "FirstName")),
      PlainRow("Gender", OrDash(p, "Gender")),
      PlainRow("DOB", FormatDate(Get(p, "DOB"), parse)),
      PlainRow("Nationality", OrDash(p, "NationalityName")),
      Row("Mobile Number", TextOf(OrDash(p, "MobileNumber")), true, false),
      PlainRow("Email", OrDash(p, "EMail")),
      PlainRow("Address", OrDash(p, "Address")),
      PlainRow("Country", OrDash(p, "CountryName")) ]
  }

  /** The property section. */
  function PropertyRows(p: JVal): (rows: seq<Row>)
    ensures |rows| == 4 && rows[3] == Row("Office ID", OfficeIdText(p), false, false)
  {
    [ PlainRow("Area", OrDash(p, "AreaName")),
      PlainRow("Building", OrDash(p, "BuildingName")),
      PlainRow("Unit", OrDash(p, "UnitName")),
      Row("Office ID", OfficeIdText(p), false, false) ]
  }

  /** A document row: its status text, the verified tick, and the view button. */
  datatype DocumentRow = DocumentRow(caption: string, status: string, verified: bool, viewable: bool)

  function DocumentRowOf(caption: string, path: JVal): (d: DocumentRow)
    ensures d.status == "Uploaded" <==> Truthy(path)
    ensures d.status == "Uploaded" || d.status == "Not uploaded"
    ensures d.verified <==> Truthy(path)
    ensures d.viewable <==> Truthy(path)
  {
    DocumentRow(caption, if Truthy(path) then "Uploaded" else "Not uploaded", Truthy(path), Truthy(path))
  }

  /** The four documents with the profile keys holding their paths. */
  const DOCUMENTS: seq<(string, string)> :=
    [("Emirates ID", "EmirateidPath"), ("Passport", "PassportPath"), ("Ejari", "EjariPath"),
     ("Trade License", "TradelicensePath")]

  function DocumentRows(p: JVal): (rows: seq<DocumentRow>)
    ensures |rows| == |DOCUMENTS|
    ensures forall i :: 0 <= i < |rows| ==>
      rows[i].caption == DOCUMENTS[i].0 && (rows[i].viewable <==> Truthy(Get(p, DOCUMENTS[i].1)))
  {
    seq(|DOCUMENTS|, i requires 0 <= i < |DOCUMENTS| => DocumentRowOf(DOCUMENTS[i].0, Get(p, DOCUMENTS[i].1)))
  }

  // ---------------------------------------------------------------------------
  // KYC values
  // ---------------------------------------------------------------------------

  datatype KycField = EmiratesId | EmiratesIdExp | PassportNo | PassportExp | EjariNo | EjariStart | EjariExpiry

  const KYC_FIELDS: set<KycField> := {EmiratesId, EmiratesIdExp, PassportNo, PassportExp, EjariNo, EjariStart, EjariExpiry}

  const KYC_ORDER: seq<KycField> := [EmiratesId, EmiratesIdExp, PassportNo, PassportExp, EjariNo, EjariStart, EjariExpiry]

  function KycLabel(f: KycField): string {
    match f
    case EmiratesId => "Emirates ID"
    case EmiratesIdExp => "Emirates ID Expiry Date"
    case PassportNo => "Passport No"
    case PassportExp => "Passport Expiry Date"
    case EjariNo => "Ejari Contract No"
    case EjariStart => "Ejari Start Date"
    case EjariExpiry => "Ejari Expiry Date"
  }

  /** Every field starts as the empty string. */
  function EmptyKyc(): (m: map<KycField, JVal>)
    ensures m.Keys == KYC_FIELDS
    ensures forall f :: f in m ==> m[f] == Str("")
  {
    map f: KycField | f in KYC_FIELDS :: Str("")
  }

  /** The editable values a loaded profile starts the KYC section with: the
      numbers with a dash fallback and the dates formatted. */
  function KycFromProfile(data: JVal, parse: DateParser): (m: map<KycField, JVal>)
    ensures m.Keys == KYC_FIELDS
    ensures m[EmiratesId] == OrDash(data, "EmiratesIdNo") && m[PassportNo] == OrDash(data, "PassportNo")
    ensures m[EjariNo] == OrDash(data, "EjariNo")
    ensures m[PassportExp] == FormatDate(Get(data, "PassportExpDate"), parse)
  {
    map[EmiratesId := OrDash(data, "EmiratesIdNo"),
        EmiratesIdExp := FormatDate(Get(data, "EmiratesIdExpDate"), parse),
        PassportNo := OrDash(data, "PassportNo"),
        PassportExp := FormatDate(Get(data, "PassportExpDate"), parse),
        EjariNo := OrDash(data, "EjariNo"),
        EjariStart := FormatDate(Get(data, "EjariStartDate"), parse),
        EjariExpiry := if Truthy(Get(data, "EjariExpiryDate")) then FormatDate(Get(data, "EjariExpiryDate"), parse) else Str("-")]
  }

  /** The extra test on the Ejari expiry is redundant: `formatDate` already
      gives "-" for a falsy date, so all three dates are handled alike. */
  lemma EjariExpiryAsOtherDates(data: JVal, parse: DateParser)
    ensures KycFromProfile(data, parse)[EjariExpiry] == FormatDate(Get(data, "EjariExpiryDate"), parse)
    ensures KycFromProfile(data, parse)[EjariStart] == FormatDate(Get(data, "EjariStartDate"), parse)
  {
  }

  // ---------------------------------------------------------------------------
  // Sections
  // ---------------------------------------------------------------------------

  datatype SectionId = Applicant | Kyc | Property | Documents

  const SECTION_ORDER: seq<SectionId> := [Applicant, Kyc, Property, Documents]

  function SectionTitle(s: SectionId): string {
    match s
    case Applicant => "Applicant Details"
    case Kyc => "Customer KYC Details"
    case Property => "Property Details"
    case Documents => "Upload Documents"
  }
  /** The four sections have four different titles, and the seven KYC rows
      seven different captions, in the order the screen lists them. */
  lemma CaptionsDistinct()
    ensures forall i, j :: 0 <= i < j < 4 ==> SectionTitle(SECTION_ORDER[i]) != SectionTitle(SECTION_ORDER[j])
    ensures forall i, j :: 0 <= i < j < 7 ==> KycLabel(KYC_ORDER[i]) != KycLabel(KYC_ORDER[j])
  {
  }


  /** `toggleSection`: the tapped section closes if it is the open one and opens
      (closing any other) if not. */
  function Toggled(active: Option<SectionId>, s: SectionId): (r: Option<SectionId>)
    ensures r == Some(s) <==> active != Some(s)
    ensures r.None? <==> active == Some(s)
  {
    if active == Some(s) then None else Some(s)
  }

  /** Tapping a section twice restores the accordion exactly when nothing or
      that section was open; from another open section it ends all closed. */
  lemma ToggleTwice(active: Option<SectionId>, s: SectionId)
    ensures Toggled(Toggled(active, s), s) == active <==> (active.None? || active == Some(s))
    ensures active.Some? && active != Some(s) ==> Toggled(Toggled(active, s), s).None?
  {
  }

  /** At most one section is open whatever the taps. */
  lemma AtMostOneOpen(active: Option<SectionId>, a: SectionId, b: SectionId)
    requires active == Some(a) && active == Some(b)
    ensures a == b
  {
  }

  // ---------------------------------------------------------------------------
  // Loading the profile
  // ---------------------------------------------------------------------------

  const PROFILE_URL := "https://residentapi.strata-global.com/api/get-approved-client?userId="
  const LOAD_FAILED := "Failed to load profile."
  const NO_DATA := "No profile data found."

  datatype Alert = Alert(title: string, message: string)

  /** How the request ended: a non-ok status, a parsed body, an abort from the
      effect's cleanup, or another rejection (network failure, unreadable body). */
  datatype ProfileOutcome = NotOk(status: int) | Json(data: JVal) | AbortError | Failure(message: string)

  /** `data && typeof data === "object"`: an object or an array. */
  predicate IsProfileBody(data: JVal) {
    Truthy(data) && IsObjectType(data)
  }

  /** The alerts a finished load raises. A non-ok status alerts twice: once
      before throwing, and once more in the handler that catches it. */
  function LoadAlerts(outcome: ProfileOutcome): (alerts: seq<Alert>)
    ensures outcome.AbortError? ==> alerts == []
    ensures outcome.NotOk? ==> |alerts| == 2
  {
    match outcome
    case NotOk(status) =>
      [Alert("Error", "API Failed \U{274C}\nStatus: " + IntToString(status)),
       Alert("Connection Error", "HTTP " + IntToString(status))]
    case Json(data) => if IsProfileBody(data) then [] else [Alert("Warning", "No Data Found \U{26A0}\U{FE0F}")]
    case AbortError => []
    case Failure(m) => [Alert("Connection Error", OrElse(m, "Something went wrong"))]
  }

  /** The error a finished load leaves: None means it keeps the one it had. */
  function LoadError(outcome: ProfileOutcome): (e: Option<string>)
    ensures e.None? <==> outcome.AbortError? || (outcome.Json? && IsProfileBody(outcome.data))
  {
    match outcome
    case NotOk(_) => Some(LOAD_FAILED)
    case Json(data) => if IsProfileBody(data) then None else Some(NO_DATA)
    case AbortError => None
    case Failure(_) => Some(LOAD_FAILED)
  }

  // ---------------------------------------------------------------------------
  // The screen
  // ---------------------------------------------------------------------------

  datatype KycRow = KycRow(field: KycField, caption: string, value: string, editing: bool)

  datatype Body =
    | SkeletonBody
    | Sections(open: seq<(SectionId, string, bool)>, applicant: seq<Row>, kyc: seq<KycRow>,
               property: seq<Row>, documents: seq<DocumentRow>)

  datatype View =
    | Nothing
    | Page(greetingLoading: bool, greetingName: JVal, greetingBuilding: string, errorBanner: Option<string>,
           body: Body, preview: Option<string>, upload: Option<string>)

  /** The four sections with their open flags, and their rows. */
  function SectionsBody(active: Option<SectionId>, kyc: map<KycField, JVal>, editing: Option<KycField>,
                        p: JVal, parse: DateParser): (b: Body)
    requires kyc.Keys == KYC_FIELDS
    ensures b.Sections?
    ensures |b.open| == 4 && forall i :: 0 <= i < 4 ==>
      b.open[i].0 == SECTION_ORDER[i] && b.open[i].1 == SectionTitle(SECTION_ORDER[i]) &&
      (b.open[i].2 <==> active == Some(SECTION_ORDER[i]))
    ensures |b.kyc| == 7 && forall i :: 0 <= i < 7 ==>
      b.kyc[i].field == KYC_ORDER[i] && b.kyc[i].caption == KycLabel(KYC_ORDER[i]) &&
      b.kyc[i].value == TextOf(kyc[KYC_ORDER[i]]) && (b.kyc[i].editing <==> editing == Some(KYC_ORDER[i]))
  {
    Sections(
      seq(4, i requires 0 <= i < 4 => (SECTION_ORDER[i], SectionTitle(SECTION_ORDER[i]), active == Some(SECTION_ORDER[i]))),
      ApplicantRows(p, parse),
      seq(7, i requires 0 <= i < 7 =>
        KycRow(KYC_ORDER[i], KycLabel(KYC_ORDER[i]), TextOf(kyc[KYC_ORDER[i]]), editing == Some(KYC_ORDER[i]))),
      PropertyRows(p),
      DocumentRows(p))
  }

  class ProfileScreen {
    var clientId: JVal
    var activeSection: Option<SectionId>
    var profile: JVal
    var loading: bool
    var error: Option<string>
    var editingKycField: Option<KycField>
    var kycValues: map<KycField, JVal>
    var previewVisible: bool
    var previewLabel: string
    var uploadVisible: bool
    var uploadLabel: string
    /** The URLs requested so far. */
    var requests: seq<string>

    /** Every KYC field always has a value. */
    ghost predicate Valid()
      reads this
    {
      kycValues.Keys == KYC_FIELDS
    }

    /** Mounting: the applicant section open, no profile, loading; the effect
        requests the profile when there is a client id. */
    constructor (c: JVal)
      ensures Valid()
      ensures clientId == c && activeSection == Some(Applicant) && profile == Null && loading
      ensures error.None? && editingKycField.None? && kycValues == EmptyKyc()
      ensures !previewVisible && previewLabel == "" && !uploadVisible && uploadLabel == ""
      ensures requests == (if Truthy(c) then [PROFILE_URL + ToJsString(c)] else [])
    {
      clientId := c;
      activeSection := Some(Applicant);
      profile := Null;
      loading := true;
      error := None;
      editingKycField := None;
      kycValues := EmptyKyc();
      previewVisible := false;
      previewLabel := "";
      uploadVisible := false;
      uploadLabel := "";
      requests := if Truthy(c) then [PROFILE_URL + ToJsString(c)] else [];
    }

    /** A new client id: the old request is aborted by the cleanup and a new one
        starts, with the skeleton and no error. The hooks sit after an early
        return, so the id may not switch between truthy and falsy. */
    method ClientChanged(c: JVal)
      requires Truthy(c) == Truthy(clientId)
      requires Valid()
      modifies this
      ensures Valid()
      ensures clientId == c
      ensures c == old(clientId) || !Truthy(c) ==> loading == old(loading) && error == old(error) && requests == old(requests)
      ensures c != old(clientId) && Truthy(c) ==>
        loading && error.None? && requests == old(requests) + [PROFILE_URL + ToJsString(c)]
      ensures profile == old(profile) && kycValues == old(kycValues) && activeSection == old(activeSection)
      ensures editingKycField == old(editingKycField)
      ensures previewVisible == old(previewVisible) && previewLabel == old(previewLabel)
      ensures uploadVisible == old(uploadVisible) && uploadLabel == old(uploadLabel)
    {
      if c != clientId && Truthy(c) {
        loading := true;
        error := None;
        requests := requests + [PROFILE_URL + ToJsString(c)];
      }
      clientId := c;
    }

    /** The end of a request, whichever one it was: the skeleton goes away on
        every path; a profile body replaces the profile and resets the KYC values;
        failures alert and set the error, and an abort does neither. */
    method LoadFinished(outcome: ProfileOutcome, parse: DateParser) returns (alerts: seq<Alert>)
      requires Valid()
      modifies this
      ensures Valid()
      ensures !loading
      ensures alerts == LoadAlerts(outcome)
      ensures error == (if LoadError(outcome).Some? then LoadError(outcome) else old(error))
      ensures outcome.Json? && IsProfileBody(outcome.data) ==>
        profile == outcome.data && kycValues == KycFromProfile(outcome.data, parse)
      ensures !(outcome.Json? && IsProfileBody(outcome.data)) ==>
        profile == old(profile) && kycValues == old(kycValues)
      ensures clientId == old(clientId) && activeSection == old(activeSection) && requests == old(requests)
      ensures editingKycField == old(editingKycField)
      ensures previewVisible == old(previewVisible) && previewLabel == old(previewLabel)
      ensures uploadVisible == old(uploadVisible) && uploadLabel == old(uploadLabel)
    {
      alerts := LoadAlerts(outcome);
      var e := LoadError(outcome);
      loading := false;
      if e.Some? {
        error := e;
      }
      if outcome.Json? && IsProfileBody(outcome.data) {
        ShowProfile(outcome.data, parse);
      }
    }

    /** A profile body replaces the profile and resets the KYC values from it. */
    method ShowProfile(data: JVal, parse: DateParser)
      modifies this
      ensures Valid()
      ensures profile == data && kycValues == KycFromProfile(data, parse)
      ensures loading == old(loading) && error == old(error)
      ensures clientId == old(clientId) && activeSection == old(activeSection) && requests == old(requests)
      ensures editingKycField == old(editingKycField)
      ensures previewVisible == old(previewVisible) && previewLabel == old(previewLabel)
      ensures uploadVisible == old(uploadVisible) && uploadLabel == old(uploadLabel)
    {
      profile := data;
      kycValues := KycFromProfile(data, parse);
    }

    method ToggleSection(s: SectionId)
      modifies this
      ensures activeSection == Toggled(old(activeSection), s)
      ensures clientId == old(clientId) && profile == old(profile) && loading == old(loading)
      ensures error == old(error) && editingKycField == old(editingKycField) && kycValues == old(kycValues)
      ensures previewVisible == old(previewVisible) && previewLabel == old(previewLabel)
      ensures uploadVisible == old(uploadVisible) && uploadLabel == old(uploadLabel)
      ensures requests == old(requests)
    {
      activeSection := if activeSection == Some(s) then None else Some(s);
    }

    /** The edit icon of a KYC row turns that row (and only it) into an input. */
    method EditKycField(f: KycField)
      modifies this
      ensures editingKycField == Some(f)
      ensures clientId == old(clientId) && profile == old(profile) && loading == old(loading)
      ensures error == old(error) && activeSection == old(activeSection) && kycValues == old(kycValues)
      ensures previewVisible == old(previewVisible) && previewLabel == old(previewLabel)
      ensures uploadVisible == old(uploadVisible) && uploadLabel == old(uploadLabel)
      ensures requests == old(requests)
    {
      editingKycField := Some(f);
    }

    /** Typing into the KYC input: only the field being edited has an input, and
        only its value changes. */
    method ChangeKycText(f: KycField, text: string)
      requires Valid()
      modifies this
      ensures Valid()
      ensures old(editingKycField) == Some(f) ==> kycValues == old(kycValues)[f := Str(text)]
      ensures old(editingKycField) != Some(f) ==> kycValues == old(kycValues)
      ensures forall g :: g in KYC_FIELDS && g != f ==> kycValues[g] == old(kycValues)[g]
      ensures editingKycField == old(editingKycField)
      ensures clientId == old(clientId) && profile == old(profile) && loading == old(loading)
      ensures error == old(error) && activeSection == old(activeSection)
      ensures previewVisible == old(previewVisible) && previewLabel == old(previewLabel)
      ensures uploadVisible == old(uploadVisible) && uploadLabel == old(uploadLabel)
      ensures requests == old(requests)
    {
      if editingKycField == Some(f) {
        kycValues := kycValues[f := Str(text)];
      }
    }

    /** Submitting or leaving the input ends editing. */
    method EditComplete()
      modifies this
      ensures editingKycField.None?
      ensures clientId == old(clientId) && profile == old(profile) && loading == old(loading)
      ensures error == old(error) && activeSection == old(activeSection) && kycValues == old(kycValues)
      ensures previewVisible == old(previewVisible) && previewLabel == old(previewLabel)
      ensures uploadVisible == old(uploadVisible) && uploadLabel == old(uploadLabel)
      ensures requests == old(requests)
    {
      editingKycField := None;
    }

    /** `handleViewDocument`: without a path, an alert and no preview; with one,
        the preview opens with the caption. */
    method ViewDocument(caption: string, path: JVal) returns (alert: Option<Alert>)
      modifies this
      ensures !Truthy(path) ==>
        alert == Some(Alert("No Document", caption + " is not uploaded yet.")) &&
        previewVisible == old(previewVisible) && previewLabel == old(previewLabel)
      ensures Truthy(path) ==> alert.None? && previewVisible && previewLabel == caption
      ensures clientId == old(clientId) && profile == old(profile) && loading == old(loading)
      ensures error == old(error) && activeSection == old(activeSection) && kycValues == old(kycValues)
      ensures editingKycField == old(editingKycField)
      ensures uploadVisible == old(uploadVisible) && uploadLabel == old(uploadLabel)
      ensures requests == old(requests)
    {
      if !Truthy(path) {
        alert := Some(Alert("No Document", caption + " is not uploaded yet."));
        return;
      }
      alert := None;
      previewLabel := caption;
      previewVisible := true;
    }

    method ClosePreview()
      modifies this
      ensures !previewVisible && previewLabel == old(previewLabel)
      ensures clientId == old(clientId) && profile == old(profile) && loading == old(loading)
      ensures error == old(error) && activeSection == old(activeSection) && kycValues == old(kycValues)
      ensures editingKycField == old(editingKycField)
      ensures uploadVisible == old(uploadVisible) && uploadLabel == old(uploadLabel)
      ensures requests == old(requests)
    {
      previewVisible := false;
    }

    /** `handleEditSingleDocument`: the upload prompt opens for the document. */
    method EditDocument(caption: string)
      modifies this
      ensures uploadVisible && uploadLabel == caption
      ensures clientId == old(clientId) && profile == old(profile) && loading == old(loading)
      ensures error == old(error) && activeSection == old(activeSection) && kycValues == old(kycValues)
      ensures editingKycField == old(editingKycField)
      ensures previewVisible == old(previewVisible) && previewLabel == old(previewLabel)
      ensures requests == old(requests)
    {
      uploadLabel := caption;
      uploadVisible := true;
    }

    /** Choosing camera or gallery only alerts (no picker is wired) and closes the prompt. */
    method ChooseUploadSource(camera: bool) returns (alert: Alert)
      modifies this
      ensures alert == Alert("Upload", "Open " + (if camera then "camera" else "gallery") + " picker for " +
                                       old(uploadLabel) + " (hook here).")
      ensures !uploadVisible && uploadLabel == old(uploadLabel)
      ensures clientId == old(clientId) && profile == old(profile) && loading == old(loading)
      ensures error == old(error) && activeSection == old(activeSection) && kycValues == old(kycValues)
      ensures editingKycField == old(editingKycField)
      ensures previewVisible == old(previewVisible) && previewLabel == old(previewLabel)
      ensures requests == old(requests)
    {
      alert := Alert("Upload", "Open " + (if camera then "camera" else "gallery") + " picker for " +
                               uploadLabel + " (hook here).");
      uploadVisible := false;
    }

    method CancelUpload()
      modifies this
      ensures !uploadVisible && uploadLabel == old(uploadLabel)
      ensures clientId == old(clientId) && profile == old(profile) && loading == old(loading)
      ensures error == old(error) && activeSection == old(activeSection) && kycValues == old(kycValues)
      ensures editingKycField == old(editingKycField)
      ensures previewVisible == old(previewVisible) && previewLabel == old(previewLabel)
      ensures requests == old(requests)
    {
      uploadVisible := false;
    }

    /** Nothing at all without a client id; otherwise the greeting (in its own
        skeleton while loading), the error, and the skeleton or the sections. */
    function View(parse: DateParser): (v: View)
      requires Valid()
      reads this
      ensures v.Nothing? <==> !Truthy(clientId)
      ensures v.Page? ==> v.greetingLoading == loading && (v.body.SkeletonBody? <==> loading)
      ensures v.Page? ==> v.errorBanner == error
      ensures v.Page? ==> (v.preview.Some? <==> previewVisible) && (v.upload.Some? <==> uploadVisible)
      ensures v.Page? && !loading ==> v.body == SectionsBody(activeSection, kycValues, editingKycField, Or(profile, Obj(map[])), parse)
    {
      if !Truthy(clientId) then Nothing
      else
        var p := Or(profile, Obj(map[]));
        Page(loading, OrDash(p, "FirstName"), GreetingBuilding(p), error,
             if loading then SkeletonBody else SectionsBody(activeSection, kycValues, editingKycField, p, parse),
             if previewVisible then Some(previewLabel) else None,
             if uploadVisible then Some(uploadLabel) else None)
    }
  }

  /** Changing client while a load is in flight: the aborted first request still
      runs its `finally`, so the skeleton goes away before the second answer
      arrives, showing the sections of the still empty profile. */
  method AbortedLoadEndsSkeletonEarly(a: JVal, b: JVal, parse: DateParser) returns (loading: bool, pending: nat, profile: JVal)
    requires Truthy(a) && Truthy(b) && a != b
    ensures !loading && pending == 2 && profile == Null
  {
    var screen := new ProfileScreen(a);
    screen.ClientChanged(b);
    var alerts := screen.LoadFinished(AbortError, parse);
    loading := screen.loading;
    pending := |screen.requests|;
    profile := screen.profile;
  }
}
