/** The contract-renewal form: reading the current contract into the form,
    normalising the dates the API returns to MM/DD/YYYY, validating the form,
    and submitting it. Network answers, the document picker and the clock are
    inputs; `new Date(...)` is the parser parameter of the `Dates` module. */
module RenewContract {
  import opened Optional
  import opened Text
  import opened JsValues
  import opened Dates
  import opened Sessions

  // ---------------------------------------------------------------------------
  // Date shapes and formatApiDate
  // ---------------------------------------------------------------------------

  /** `/^\d{2}\/\d{2}\/\d{4}$/.test(s)` */
  predicate IsSlashDate(s: string) {
    |s| == 10 && AllDigits(s[0..2]) && s[2] == '/' && AllDigits(s[3..5]) && s[5] == '/' && AllDigits(s[6..])
  }

  /** `\w`: an ASCII letter, digit or underscore. */
  predicate IsWordChar(c: char) {
    ('a' <= c <= 'z') || ('A' <= c <= 'Z') || IsDigit(c) || c == '_'
  }

  /** The length of the run of digits `s` starts with. */
  function DigitRun(s: string): (k: nat)
    ensures k <= |s|
    ensures AllDigits(s[..k])
    ensures k < |s| ==> !IsDigit(s[k])
  {
    if s == [] || !IsDigit(s[0]) then 0 else 1 + DigitRun(s[1..])
  }

  /** The length of the run of white space `s` starts with. */
  function SpaceRun(s: string): (k: nat)
    ensures k <= |s|
    ensures forall i :: 0 <= i < k ==> IsWhitespace(s[i])
    ensures k < |s| ==> !IsWhitespace(s[k])
  {
    if s == [] || !IsWhitespace(s[0]) then 0 else 1 + SpaceRun(s[1..])
  }

  /** `/^\d{1,2}\s+\w{3}\s+\d{4}$/.test(s)`, as "22 Aug 2025". Each run is
      followed by a character the next part cannot start with, so matching the
      runs greedily decides the pattern. */
  predicate IsDayMonYear(s: string) {
    var a := DigitRun(s);
    1 <= a <= 2 &&
    var r1 := s[a..];
    var b := SpaceRun(r1);
    b >= 1 &&
    var r2 := r1[b..];
    |r2| >= 3 && IsWordChar(r2[0]) && IsWordChar(r2[1]) && IsWordChar(r2[2]) &&
    var r3 := r2[3..];
    var c := SpaceRun(r3);
    c >= 1 && |r3[c..]| == 4 && AllDigits(r3[c..])
  }

  /** A run of digits ends where a non-digit starts. */
  lemma {:induction false} DigitRunOfDigits(a: string, b: string)
    requires AllDigits(a)
    requires b == [] || !IsDigit(b[0])
    ensures DigitRun(a + b) == |a|
  {
    if a != [] {
      assert (a + b)[1..] == a[1..] + b;
      DigitRunOfDigits(a[1..], b);
    }
  }

  /** One space before a character that is not white space is a run of one. */
  lemma SpaceRunOne(r: string)
    requires r != [] && !IsWhitespace(r[0])
    ensures SpaceRun(" " + r) == 1
  {
    assert (" " + r)[1..] == r;
  }

  /** The pattern read off its runs: digits, spaces, three word characters,
      spaces, four digits. */
  lemma DayMonYearFromRuns(s: string, a: nat, r1: string, r2: string, r3: string)
    requires DigitRun(s) == a && 1 <= a <= 2 && s[a..] == r1
    requires SpaceRun(r1) == 1 && r1[1..] == r2
    requires |r2| >= 3 && IsWordChar(r2[0]) && IsWordChar(r2[1]) && IsWordChar(r2[2]) && r2[3..] == r3
    requires SpaceRun(r3) == 1 && |r3[1..]| == 4 && AllDigits(r3[1..])
    ensures IsDayMonYear(s)
  {
  }

  /** `DayMonYearAccepts` with the concatenations grouped from the right. */
  lemma DayMonYearNested(day: string, mon: string, year: string)
    requires 1 <= |day| <= 2 && AllDigits(day)
    requires |mon| == 3 && IsWordChar(mon[0]) && IsWordChar(mon[1]) && IsWordChar(mon[2])
    requires |year| == 4 && AllDigits(year)
    ensures IsDayMonYear(day + (" " + (mon + (" " + year))))
  {
    var r3 := " " + year;
    var r2 := mon + r3;
    var r1 := " " + r2;
    DigitRunOfDigits(day, r1);
    assert (day + r1)[|day|..] == r1;
    SpaceRunOne(r2);
    assert r1[1..] == r2;
    assert r2[0] == mon[0] && r2[1] == mon[1] && r2[2] == mon[2];
    assert r2[3..] == r3;
    SpaceRunOne(year);
    assert r3[1..] == year;
    DayMonYearFromRuns(day + r1, |day|, r1, r2, r3);
  }

  /** The "DD MMM YYYY" test accepts a one- or two-digit day, a three-character
      month and a four-digit year separated by single spaces. */
  lemma DayMonYearAccepts(day: string, mon: string, year: string)
    requires 1 <= |day| <= 2 && AllDigits(day)
    requires |mon| == 3 && forall i :: 0 <= i < 3 ==> IsWordChar(mon[i])
    requires |year| == 4 && AllDigits(year)
    ensures IsDayMonYear(day + " " + mon + " " + year)
  {
    assert day + " " + mon + " " + year == day + (" " + (mon + (" " + year)));
    DayMonYearNested(day, mon, year);
  }

  /** An ISO date is not in "DD MMM YYYY" shape: its leading digit run is four long. */
  lemma IsoDateIsNotDayMonYear()
    ensures !IsDayMonYear("2025-08-22")
  {
    assert "2025-08-22" == "2025" + "-08-22";
    DigitRunOfDigits("2025", "-08-22");
  }

  /** `String(raw).replace(/-/g, " ")` */
  function DashesToSpaces(s: string): (r: string)
    ensures |r| == |s|
    ensures forall i :: 0 <= i < |s| ==> r[i] == (if s[i] == '-' then ' ' else s[i])
  {
    seq(|s|, i requires 0 <= i < |s| => if s[i] == '-' then ' ' else s[i])
  }

  /** `${mm}/${dd}/${yyyy}` of a valid date; the year is not padded. */
  function SlashFormat(d: DayDate): string {
    Pad2(d.month as nat + 1) + "/" + Pad2(d.day as nat) + "/" + NatToString(d.year as nat)
  }

  /** `formatApiDate`: "" for a falsy value other than 0; an MM/DD/YYYY string
      unchanged; otherwise the MM/DD/YYYY form of what the engine reads from the
      value, or from the value with dashes made spaces and trimmed; and failing
      both, `String(raw)`. */
  function FormatApiDate(raw: JVal, parse: DateParser): (r: string)
    ensures !Truthy(raw) && raw != Num(0) ==> r == ""
    ensures raw.Str? && IsSlashDate(raw.s) ==> r == raw.s
  {
    if !Truthy(raw) && raw != Num(0) then ""
    else if raw.Str? && IsSlashDate(raw.s) then raw.s
    else if raw.Str? && IsDayMonYear(raw.s) && parse(raw).Some? then SlashFormat(parse(raw).value)
    else if parse(raw).Some? then SlashFormat(parse(raw).value)
    else
      var cleaned := Str(Trim(DashesToSpaces(ToJsString(raw))));
      if parse(cleaned).Some? then SlashFormat(parse(cleaned).value) else ToJsString(raw)
  }

  /** Whatever the engine can read is rewritten as month/day/year: the
      "DD MMM YYYY" branch yields the same as the general one. */
  lemma ReadableDatesAreReformatted(raw: JVal, parse: DateParser)
    requires Truthy(raw) || raw == Num(0)
    requires !(raw.Str? && IsSlashDate(raw.s))
    requires parse(raw).Some?
    ensures FormatApiDate(raw, parse) == SlashFormat(parse(raw).value)
  {
  }

  /** Values the engine cannot read, even with dashes as spaces, come back as text. */
  lemma UnreadableDatesPassThrough(raw: JVal, parse: DateParser)
    requires Truthy(raw) || raw == Num(0)
    requires !(raw.Str? && IsSlashDate(raw.s))
    requires parse(raw).None?
    requires parse(Str(Trim(DashesToSpaces(ToJsString(raw))))).None?
    ensures FormatApiDate(raw, parse) == ToJsString(raw)
  {
  }

  /** A value the engine reads only once its dashes are spaces and the result
      is trimmed comes back as the month/day/year of that cleaned date. */
  lemma CleanedDatesAreReformatted(raw: JVal, parse: DateParser)
    requires Truthy(raw) || raw == Num(0)
    requires !(raw.Str? && IsSlashDate(raw.s))
    requires parse(raw).None?
    requires parse(Str(Trim(DashesToSpaces(ToJsString(raw))))).Some?
    ensures FormatApiDate(raw, parse) == SlashFormat(parse(Str(Trim(DashesToSpaces(ToJsString(raw))))).value)
  {
  }

  lemma {:induction false} NatToStringFourDigits(n: nat)
    requires 1000 <= n <= 9999
    ensures |NatToString(n)| == 4
  {
    assert |NatToString(n / 1000)| == 1;
    assert NatToString(n / 100) == NatToString(n / 100 / 10) + [DigitChar(n / 100 % 10)];
    assert n / 100 / 10 == n / 1000;
    assert NatToString(n / 10) == NatToString(n / 10 / 10) + [DigitChar(n / 10 % 10)];
    assert n / 10 / 10 == n / 100;
    assert NatToString(n) == NatToString(n / 10) + [DigitChar(n % 10)];
  }

  /** A date the API sends in another shape, once reformatted, passes the form's
      date check whenever its year has four digits. */
  lemma ReformattedDatesPassTheDateCheck(d: DayDate)
    requires 1000 <= d.year <= 9999
    ensures IsSlashDate(SlashFormat(d))
  {
    NatToStringFourDigits(d.year as nat);
    var s := SlashFormat(d);
    var mm := Pad2(d.month as nat + 1);
    var dd := Pad2(d.day as nat);
    var yy := NatToString(d.year as nat);
    assert s == mm + "/" + dd + "/" + yy;
    assert s[0..2] == mm && s[3..5] == dd && s[6..] == yy;
  }

  // ---------------------------------------------------------------------------
  // Session-derived values
  // ---------------------------------------------------------------------------

  /** `session?.clientId` */
  function UserId(s: Option<Session>): JVal {
    if s.None? then Undefined else s.value.clientId
  }

  /** `session?.unit || session?.officeId`: the unit wins when it is truthy. */
  function OfficeId(s: Option<Session>): (r: JVal)
    ensures s.Some? && Truthy(s.value.unit) ==> r == s.value.unit
    ensures s.Some? && !Truthy(s.value.unit) ==> r == s.value.officeId
    ensures s.None? ==> r == Undefined
  {
    if s.None? then Undefined else Or(s.value.unit, s.value.officeId)
  }

  /** `session?.loginKey || ""` */
  function LoginKey(s: Option<Session>): (r: JVal)
    ensures Truthy(r) <==> s.Some? && Truthy(s.value.loginKey)
  {
    Or(if s.None? then Undefined else s.value.loginKey, Str(""))
  }

  /** `officeNumberFromApi || session?.officeNumber || session?.officeId || ""`:
      the number the API sent, when it sent a truthy one, always wins. */
  function OfficeNumberDisplay(fromApi: JVal, s: Option<Session>): (r: JVal)
    ensures Truthy(fromApi) ==> r == fromApi
    ensures !Truthy(fromApi) && s.None? ==> r == Str("")
    ensures Truthy(r) <==> Truthy(fromApi) || (s.Some? && (Truthy(s.value.officeNumber) || Truthy(s.value.officeId)))
  {
    var number := if s.None? then Undefined else s.value.officeNumber;
    var office := if s.None? then Undefined else s.value.officeId;
    Or(fromApi, Or(number, Or(office, Str(""))))
  }

  /** `!userId || !officeId || !loginKey` */
  predicate SessionIncomplete(s: Option<Session>) {
    !Truthy(UserId(s)) || !Truthy(OfficeId(s)) || !Truthy(LoginKey(s))
  }

  /** The effect's condition for loading the contract: note that the login key
      is not part of it. */
  predicate EffectFetches(ready: bool, s: Option<Session>) {
    ready && Truthy(UserId(s)) && Truthy(OfficeId(s))
  }

  // ---------------------------------------------------------------------------
  // Reading the current contract
  // ---------------------------------------------------------------------------

  const INCOMPLETE_SESSION := "Session data incomplete. Please login again."
  const NO_CONTRACT := "No active contract found for this office."
  const FETCH_FAILED := "Unable to fetch contract details"

  /** The final-bill request: `userId` and `officeid` query parameters and a
      bearer token. */
  datatype BillRequest = BillRequest(userId: JVal, officeid: JVal, authorization: string)

  /** What came back: a status and a parsed body, or a rejection (network
      failure or a body that is not JSON). */
  datatype FetchOutcome = Replied(ok: bool, status: int, data: JVal) | Failed

  /** What a reply does to the form. */
  datatype FetchResult =
    | FetchError(message: string)
    | Loaded(officeNumber: JVal, contractId: string, startDate: string, endDate: string)

  /** The handling of one answer: a non-ok status, a body that is not a
      non-empty array, and a first element that is `null` or `undefined` (whose
      property read throws) are errors; otherwise the first contract fills the form. */
  function FetchResultOf(outcome: FetchOutcome, parse: DateParser): FetchResult {
    match outcome
    case Failed => FetchError(FETCH_FAILED)
    case Replied(ok, status, data) =>
      if !ok then FetchError("Server error (" + IntToString(status) + ")")
      else if !data.Arr? || |data.items| == 0 then FetchError(NO_CONTRACT)
      else
        var c := data.items[0];
        if IsNullish(c) then FetchError(FETCH_FAILED)
        else
          Loaded(Coalesce(Get(c, "OfficeNumber"), Str("")),
                 ToJsString(Coalesce(Get(c, "ContractId"), Str(""))),
                 FormatApiDate(Get(c, "ContractStartDate"), parse),
                 FormatApiDate(Get(c, "ContractEndDate"), parse))
  }

  /** Each kind of failed answer has its own message, and only an ok reply whose
      body is a non-empty array can load the form. */
  lemma FetchErrorsByCase(outcome: FetchOutcome, parse: DateParser)
    ensures outcome.Replied? && !outcome.ok ==>
      FetchResultOf(outcome, parse) == FetchError("Server error (" + IntToString(outcome.status) + ")")
    ensures outcome.Replied? && outcome.ok && (!outcome.data.Arr? || outcome.data.items == []) ==>
      FetchResultOf(outcome, parse) == FetchError(NO_CONTRACT)
    ensures FetchResultOf(outcome, parse).Loaded? <==>
      outcome.Replied? && outcome.ok && outcome.data.Arr? && |outcome.data.items| > 0 &&
      !IsNullish(outcome.data.items[0])
  {
  }

  /** Only the first contract of the array matters: bodies that agree on it load
      the same form, whatever follows. */
  lemma OnlyFirstContractRead(xs: seq<JVal>, ys: seq<JVal>, status: int, parse: DateParser)
    requires xs != [] && ys != [] && xs[0] == ys[0]
    ensures FetchResultOf(Replied(true, status, Arr(xs)), parse) == FetchResultOf(Replied(true, 1, Arr(ys)), parse)
  {
  }

  /** The contract's MM/DD/YYYY dates reach the form unchanged. */
  lemma SlashDatesLoadedVerbatim(c: map<string, JVal>, start: string, end: string, status: int, parse: DateParser)
    requires IsSlashDate(start) && IsSlashDate(end)
    requires c.Keys >= {"ContractStartDate", "ContractEndDate"}
    requires c["ContractStartDate"] == Str(start) && c["ContractEndDate"] == Str(end)
    ensures FetchResultOf(Replied(true, status, Arr([Obj(c)])), parse).startDate == start
    ensures FetchResultOf(Replied(true, status, Arr([Obj(c)])), parse).endDate == end
  {
    assert Get(Obj(c), "ContractStartDate") == Str(start);
    assert Get(Obj(c), "ContractEndDate") == Str(end);
  }

  // ---------------------------------------------------------------------------
  // Validation
  // ---------------------------------------------------------------------------

  /** The file the picker returned. */
  datatype PickedFile = PickedFile(uri: string, name: string, mimeType: string, size: nat)

  /** The editable part of the form. */
  datatype Form = Form(contractId: string, startDate: string, endDate: string, file: Option<PickedFile>)

  /** The checks `validateForm` makes, in its order. */
  datatype Check = ContractIdGiven | StartDateShape | EndDateShape | EndAfterStart | FileChosen

  const CHECKS: seq<Check> := [ContractIdGiven, StartDateShape, EndDateShape, EndAfterStart, FileChosen]

  /** `new Date(endDate) <= new Date(startDate)`: true only when both dates are
      readable, since a comparison with NaN is false. */
  predicate EndNotAfterStart(f: Form, parse: DateParser) {
    var s := parse(Str(f.startDate));
    var e := parse(Str(f.endDate));
    s.Some? && e.Some? && !Before(s.value, e.value)
  }

  predicate Passes(c: Check, f: Form, parse: DateParser) {
    match c
    case ContractIdGiven => !Blank(f.contractId)
    case StartDateShape => IsSlashDate(f.startDate)
    case EndDateShape => IsSlashDate(f.endDate)
    case EndAfterStart => !EndNotAfterStart(f, parse)
    case FileChosen => f.file.Some?
  }

  function Message(c: Check): string {
    match c
    case ContractIdGiven => "Please enter contract ID."
    case StartDateShape => "Enter valid start date (MM/DD/YYYY)."
    case EndDateShape => "Enter valid end date (MM/DD/YYYY)."
    case EndAfterStart => "End date must be after start date."
    case FileChosen => "Please upload the tenancy contract."
  }

  /** The first check of `cs` the form fails. */
  function FirstFailure(cs: seq<Check>, f: Form, parse: DateParser): Option<Check> {
    if cs == [] then None
    else if !Passes(cs[0], f, parse) then Some(cs[0])
    else FirstFailure(cs[1..], f, parse)
  }

  lemma {:induction false} FirstFailureSpec(cs: seq<Check>, f: Form, parse: DateParser)
    ensures FirstFailure(cs, f, parse).None? <==> forall i :: 0 <= i < |cs| ==> Passes(cs[i], f, parse)
    ensures FirstFailure(cs, f, parse).Some? ==>
      exists k :: 0 <= k < |cs| && cs[k] == FirstFailure(cs, f, parse).value && !Passes(cs[k], f, parse) &&
        forall i :: 0 <= i < k ==> Passes(cs[i], f, parse)
  {
    if cs != [] {
      FirstFailureSpec(cs[1..], f, parse);
      if Passes(cs[0], f, parse) {
        if FirstFailure(cs[1..], f, parse).Some? {
          var k :| 0 <= k < |cs[1..]| && cs[1..][k] == FirstFailure(cs[1..], f, parse).value &&
            !Passes(cs[1..][k], f, parse) && forall i :: 0 <= i < k ==> Passes(cs[1..][i], f, parse);
          assert cs[k + 1] == FirstFailure(cs, f, parse).value;
          forall i | 0 <= i < k + 1 ensures Passes(cs[i], f, parse) {
            if i > 0 {
              assert cs[i] == cs[1..][i - 1];
            }
          }
        } else {
          forall i | 0 <= i < |cs| ensures Passes(cs[i], f, parse) {
            if i > 0 {
              assert cs[i] == cs[1..][i - 1];
            }
          }
        }
      } else {
        assert cs[0] == FirstFailure(cs, f, parse).value;
      }
    }
  }

  /** `!contractId.trim()`, stated as "nothing but white space". */
  lemma ContractIdCheckIsTrim(f: Form, parse: DateParser)
    ensures Passes(ContractIdGiven, f, parse) <==> Trim(f.contractId) != ""
  {
    TrimEmptyIffBlank(f.contractId);
  }

  /** `validateForm` as written: the message of the alert it raises, or None
      when it returns true. */
  function ValidateForm(f: Form, parse: DateParser): (r: Option<string>)
    ensures r.None? ==> f.file.Some?
  {
    if Blank(f.contractId) then Some("Please enter contract ID.")
    else if !IsSlashDate(f.startDate) then Some("Enter valid start date (MM/DD/YYYY).")
    else if !IsSlashDate(f.endDate) then Some("Enter valid end date (MM/DD/YYYY).")
    else if EndNotAfterStart(f, parse) then Some("End date must be after start date.")
    else if f.file.None? then Some("Please upload the tenancy contract.")
    else None
  }

  /** The form is accepted exactly when it passes every check, and otherwise the
      alert names the first check it fails. */
  lemma ValidateReportsFirstFailure(f: Form, parse: DateParser)
    ensures ValidateForm(f, parse).None? <==> forall i :: 0 <= i < |CHECKS| ==> Passes(CHECKS[i], f, parse)
    ensures ValidateForm(f, parse) ==
      (match FirstFailure(CHECKS, f, parse) case None => None case Some(c) => Some(Message(c)))
  {
    FirstFailureSpec(CHECKS, f, parse);
    ValidateUnrolled(f, parse);
  }

  /** `FirstFailure` over the five checks, one check at a time. */
  lemma ValidateUnrolled(f: Form, parse: DateParser)
    ensures ValidateForm(f, parse) ==
      (match FirstFailure(CHECKS, f, parse) case None => None case Some(c) => Some(Message(c)))
  {
    var c4 := [FileChosen];
    var c3 := [EndAfterStart, FileChosen];
    var c2 := [EndDateShape, EndAfterStart, FileChosen];
    var c1 := [StartDateShape, EndDateShape, EndAfterStart, FileChosen];
    assert CHECKS[1..] == c1 && c1[1..] == c2 && c2[1..] == c3 && c3[1..] == c4 && c4[1..] == [];
    assert FirstFailure(c4, f, parse) == if f.file.None? then Some(FileChosen) else None;
    assert FirstFailure(c3, f, parse) ==
      if EndNotAfterStart(f, parse) then Some(EndAfterStart) else FirstFailure(c4, f, parse);
    assert FirstFailure(c2, f, parse) ==
      if !IsSlashDate(f.endDate) then Some(EndDateShape) else FirstFailure(c3, f, parse);
    assert FirstFailure(c1, f, parse) ==
      if !IsSlashDate(f.startDate) then Some(StartDateShape) else FirstFailure(c2, f, parse);
    assert FirstFailure(CHECKS, f, parse) ==
      if Blank(f.contractId) then Some(ContractIdGiven) else FirstFailure(c1, f, parse);
  }

  /** Dates the engine cannot read slip through the order check, so a form
      whose dates only have the right shape is accepted. */
  lemma UnreadableDatesSkipOrderCheck(f: Form, parse: DateParser)
    requires !Blank(f.contractId) && IsSlashDate(f.startDate) && IsSlashDate(f.endDate)
    requires parse(Str(f.startDate)).None? || parse(Str(f.endDate)).None?
    requires f.file.Some?
    ensures ValidateForm(f, parse).None?
  {
  }

  /** Equal start and end dates are refused. */
  lemma SameDayRefused(f: Form, parse: DateParser)
    requires !Blank(f.contractId) && IsSlashDate(f.startDate) && f.endDate == f.startDate
    requires parse(Str(f.startDate)).Some?
    ensures ValidateForm(f, parse) == Some("End date must be after start date.")
  {
  }

  // ---------------------------------------------------------------------------
  // Submitting
  // ---------------------------------------------------------------------------

  /** The multipart body of the renewal request. */
  datatype RenewPayload = RenewPayload(
    userId: string, officeid: string, contractId: string, startDate: string, endDate: string,
    fileUri: string, fileName: string, fileType: string)

  /** The POST with both the `loginKey` and the bearer header. */
  datatype RenewRequest = RenewRequest(payload: RenewPayload, loginKey: string, authorization: string)

  /** An alert, and whether its OK button reloads the contract. */
  datatype Alert = Alert(title: string, message: string, reloadOnOk: bool)

  datatype SubmitOutcome = Answered(ok: bool, body: JVal) | Rejected(errorMessage: string)

  datatype PickResult = Picked(file: PickedFile) | PickCancelled | PickFailed

  /** A missing name becomes `contract_<now>.pdf` and a missing type PDF. */
  function RenewPayloadOf(f: Form, s: Option<Session>, now: nat): (p: RenewPayload)
    requires f.file.Some?
    ensures p.contractId == f.contractId && p.startDate == f.startDate && p.endDate == f.endDate
    ensures p.fileName == (if f.file.value.name != "" then f.file.value.name else "contract_" + NatToString(now) + ".pdf")
    ensures p.fileType == (if f.file.value.mimeType != "" then f.file.value.mimeType else "application/pdf")
  {
    RenewPayload(ToJsString(UserId(s)), ToJsString(OfficeId(s)), f.contractId, f.startDate, f.endDate,
      f.file.value.uri,
      OrElse(f.file.value.name, "contract_" + NatToString(now) + ".pdf"),
      OrElse(f.file.value.mimeType, "application/pdf"))
  }

  /** `Math.round(size / 1024)` for a size in bytes. */
  function RoundKilobytes(size: nat): (k: nat)
    ensures 1024 * k <= size + 512 < 1024 * (k + 1)
  {
    (size + 512) / 1024
  }

  datatype View =
    | Skeleton
    /** A value React Native cannot place in a `Text` reached the details card. */
    | RenderError
    | Page(errorBanner: Option<string>, officeNumber: string, contractId: string,
           startDate: string, endDate: string, fileButton: string, fileLabel: string, spinner: bool)

  /** The text under the file button: the chosen file's name followed by its
      rounded size when the size is non-zero, else "No file chosen". */
  function FileLabel(file: Option<PickedFile>): (t: string)
    ensures file.None? ==> t == "No file chosen"
    ensures file.Some? && file.value.size == 0 ==> t == file.value.name
    ensures file.Some? && file.value.size > 0 ==>
      t == file.value.name + " (" + NatToString(RoundKilobytes(file.value.size)) + " KB)"
  {
    match file
    case None => "No file chosen"
    case Some(f) => f.name + (if f.size > 0 then " (" + NatToString(RoundKilobytes(f.size)) + " KB)" else "")
  }

  /** The loaded screen: the error banner, the details card with its
      fallbacks, and the form. `DetailItem` puts each value in a `Text`, so an
      office number that is an object (or holds one) makes the render throw,
      and an array shows its elements back to back. */
  function RenderPage(number: JVal, error: string, contractId: string, startDate: string, endDate: string,
                      file: Option<PickedFile>, submitting: bool): (v: View)
    ensures v.RenderError? <==> !Renderable(number)
    ensures !v.Skeleton?
    ensures v.Page? ==> v.errorBanner == (if error != "" then Some(error) else None) && v.spinner == submitting
    ensures v.Page? && !Truthy(number) ==> v.officeNumber == "N/A"
    ensures v.Page? && Truthy(number) ==> v.officeNumber == TextOf(number)
    ensures v.Page? ==> v.contractId == (if contractId == "" then "Not found" else contractId)
    ensures v.Page? ==> v.startDate == (if startDate == "" then "Not found" else startDate)
    ensures v.Page? ==> v.endDate == (if endDate == "" then "Not found" else endDate)
    ensures v.Page? ==> v.fileButton == (if file.Some? then "Change File" else "Choose File")
    ensures v.Page? ==> v.fileLabel == FileLabel(file)
  {
    if !Renderable(number) then RenderError
    else
      Page(if error != "" then Some(error) else None,
           TextOf(Or(number, Str("N/A"))),
           OrElse(contractId, "Not found"),
           OrElse(startDate, "Not found"),
           OrElse(endDate, "Not found"),
           if file.Some? then "Change File" else "Choose File",
           FileLabel(file),
           submitting)
  }

  /** The office number the API sends decides the card whatever the session
      holds: an object breaks the render, an array shows without commas,
      `true` shows nothing, and 0 falls back to "N/A". */
  lemma OfficeNumberShapes(s: Option<Session>, file: Option<PickedFile>)
    ensures RenderPage(OfficeNumberDisplay(Obj(map[]), s), "", "", "", "", file, false) == RenderError
    ensures RenderPage(OfficeNumberDisplay(Arr([Num(1), Num(2)]), s), "", "", "", "", file, false).officeNumber == "12"
    ensures RenderPage(OfficeNumberDisplay(Bool(true), s), "", "", "", "", file, false).officeNumber == ""
    ensures RenderPage(Num(0), "", "", "", "", file, false).officeNumber == "N/A"
  {
    var xs := [Num(1), Num(2)];
    assert xs[1..] == [Num(2)];
    assert TextOf(Arr(xs)) == TextOf(Num(1)) + TextOf(Num(2));
  }

  class RenewForm {
    var session: Option<Session>
    var isReady: bool
    var officeNumberFromApi: JVal
    var contractId: string
    var startDate: string
    var endDate: string
    var selectedFile: Option<PickedFile>
    var loading: bool
    var submitting: bool
    var error: string
    /** The final-bill requests sent so far. */
    var requests: seq<BillRequest>

    function CurrentForm(): Form
      reads this
    {
      Form(contractId, startDate, endDate, selectedFile)
    }

    /** Mounting: an empty form that is loading, and the effect's first run. */
    constructor (s: Option<Session>, ready: bool)
      ensures session == s && isReady == ready
      ensures officeNumberFromApi == Str("") && contractId == "" && startDate == "" && endDate == ""
      ensures selectedFile.None? && !submitting
      ensures !EffectFetches(ready, s) ==> loading && error == "" && requests == []
      ensures EffectFetches(ready, s) && SessionIncomplete(s) ==>
        !loading && error == INCOMPLETE_SESSION && requests == []
      ensures EffectFetches(ready, s) && !SessionIncomplete(s) ==>
        loading && error == "" && requests == [BillRequest(UserId(s), OfficeId(s), "Bearer " + ToJsString(LoginKey(s)))]
    {
      session := s;
      isReady := ready;
      officeNumberFromApi := Str("");
      contractId := "";
      startDate := "";
      endDate := "";
      selectedFile := None;
      loading := true;
      submitting := false;
      error := "";
      requests := [];
      new;
      if EffectFetches(ready, s) {
        FetchContractData();
      }
    }

    /** The synchronous start of `fetchContractData`: clear the error and show the
        skeleton, then either give up on an incomplete session or send the request. */
    method FetchContractData()
      modifies this
      ensures SessionIncomplete(session) ==>
        !loading && error == INCOMPLETE_SESSION && requests == old(requests)
      ensures !SessionIncomplete(session) ==>
        loading && error == "" &&
        requests == old(requests) + [BillRequest(UserId(session), OfficeId(session), "Bearer " + ToJsString(LoginKey(session)))]
      ensures session == old(session) && isReady == old(isReady) && submitting == old(submitting)
      ensures CurrentForm() == old(CurrentForm()) && officeNumberFromApi == old(officeNumberFromApi)
    {
      error := "";
      loading := true;
      if SessionIncomplete(session) {
        error := INCOMPLETE_SESSION;
        loading := false;
        return;
      }
      requests := requests + [BillRequest(UserId(session), OfficeId(session), "Bearer " + ToJsString(LoginKey(session)))];
    }

    /** The answer to a final-bill request. There is no staleness check: every
        answer is applied in the order it arrives, and the skeleton goes away. */
    method FetchFinished(outcome: FetchOutcome, parse: DateParser)
      modifies this
      ensures !loading
      ensures FetchResultOf(outcome, parse).FetchError? ==>
        error == FetchResultOf(outcome, parse).message &&
        officeNumberFromApi == old(officeNumberFromApi) && CurrentForm() == old(CurrentForm())
      ensures FetchResultOf(outcome, parse).Loaded? ==>
        error == "" &&
        officeNumberFromApi == FetchResultOf(outcome, parse).officeNumber &&
        CurrentForm() == Form(FetchResultOf(outcome, parse).contractId, FetchResultOf(outcome, parse).startDate,
                              FetchResultOf(outcome, parse).endDate, old(selectedFile))
      ensures session == old(session) && isReady == old(isReady) && submitting == old(submitting)
      ensures requests == old(requests)
    {
      var r := FetchResultOf(outcome, parse);
      loading := false;
      match r {
        case FetchError(m) =>
          error := m;
        case Loaded(number, id, start, end) =>
          officeNumberFromApi := number;
          contractId := id;
          startDate := start;
          endDate := end;
          error := "";
      }
    }

    /** A new render with a (possibly) different session: the effect reruns only
        when readiness, the user id or the office id changed. */
    method SessionChanged(s: Option<Session>, ready: bool)
      modifies this
      ensures session == s && isReady == ready
      ensures var changed := (ready, UserId(s), OfficeId(s)) != old((isReady, UserId(session), OfficeId(session)));
        if changed && EffectFetches(ready, s) then
          (SessionIncomplete(s) ==> !loading && error == INCOMPLETE_SESSION && requests == old(requests)) &&
          (!SessionIncomplete(s) ==>
            (loading && error == "" &&
             requests == old(requests) + [BillRequest(UserId(s), OfficeId(s), "Bearer " + ToJsString(LoginKey(s)))]))
        else
          loading == old(loading) && error == old(error) && requests == old(requests)
      ensures CurrentForm() == old(CurrentForm()) && officeNumberFromApi == old(officeNumberFromApi)
      ensures submitting == old(submitting)
    {
      var changed := (ready, UserId(s), OfficeId(s)) != (isReady, UserId(session), OfficeId(session));
      session := s;
      isReady := ready;
      if changed && EffectFetches(ready, s) {
        FetchContractData();
      }
    }

    /** Typing into one of the fields; the inputs are not editable while submitting. */
    method EditContractId(v: string)
      modifies this
      ensures contractId == (if old(submitting) then old(contractId) else v)
      ensures startDate == old(startDate) && endDate == old(endDate) && selectedFile == old(selectedFile)
      ensures submitting == old(submitting) && loading == old(loading) && error == old(error)
      ensures session == old(session) && isReady == old(isReady) && requests == old(requests)
      ensures officeNumberFromApi == old(officeNumberFromApi)
    {
      if !submitting {
        contractId := v;
      }
    }

    method EditStartDate(v: string)
      modifies this
      ensures startDate == (if old(submitting) then old(startDate) else v)
      ensures contractId == old(contractId) && endDate == old(endDate) && selectedFile == old(selectedFile)
      ensures submitting == old(submitting) && loading == old(loading) && error == old(error)
      ensures session == old(session) && isReady == old(isReady) && requests == old(requests)
      ensures officeNumberFromApi == old(officeNumberFromApi)
    {
      if !submitting {
        startDate := v;
      }
    }

    method EditEndDate(v: string)
      modifies this
      ensures endDate == (if old(submitting) then old(endDate) else v)
      ensures contractId == old(contractId) && startDate == old(startDate) && selectedFile == old(selectedFile)
      ensures submitting == old(submitting) && loading == old(loading) && error == old(error)
      ensures session == old(session) && isReady == old(isReady) && requests == old(requests)
      ensures officeNumberFromApi == old(officeNumberFromApi)
    {
      if !submitting {
        endDate := v;
      }
    }

    /** `pickFile`: a picked file replaces the selection; a cancel does nothing;
        any other picker error alerts. The button is disabled while submitting. */
    method PickFile(result: PickResult) returns (alert: Option<Alert>)
      modifies this
      ensures !old(submitting) && result.Picked? ==> selectedFile == Some(result.file)
      ensures old(submitting) || !result.Picked? ==> selectedFile == old(selectedFile)
      ensures alert == (if !old(submitting) && result.PickFailed? then Some(Alert("File error", "Unable to pick file", false)) else None)
      ensures contractId == old(contractId) && startDate == old(startDate) && endDate == old(endDate)
      ensures submitting == old(submitting) && loading == old(loading) && error == old(error)
      ensures session == old(session) && isReady == old(isReady) && requests == old(requests)
      ensures officeNumberFromApi == old(officeNumberFromApi)
    {
      alert := None;
      if submitting {
        return;
      }
      match result
      case Picked(file) =>
        selectedFile := Some(file);
      case PickCancelled =>
      case PickFailed =>
        alert := Some(Alert("File error", "Unable to pick file", false));
    }

    /** The start of `submitRenew`: an invalid form or an incomplete session
        alerts and sends nothing; otherwise the button spins, the error clears and
        the request goes out. The button is disabled while submitting. */
    method SubmitRenew(now: nat, parse: DateParser) returns (alert: Option<Alert>, sent: Option<RenewRequest>)
      modifies this
      ensures old(submitting) ==> alert.None? && sent.None? && unchanged(this)
      ensures !old(submitting) && ValidateForm(CurrentForm(), parse).Some? ==>
        alert == Some(Alert("Validation", ValidateForm(CurrentForm(), parse).value, false)) && sent.None? &&
        unchanged(this)
      ensures !old(submitting) && ValidateForm(CurrentForm(), parse).None? && SessionIncomplete(session) ==>
        alert == Some(Alert("Session Error", "Please login again.", false)) && sent.None? && unchanged(this)
      ensures sent.Some? <==> !old(submitting) && ValidateForm(CurrentForm(), parse).None? && !SessionIncomplete(session)
      ensures sent.Some? ==>
        alert.None? && submitting && error == "" && selectedFile.Some? &&
        sent.value == RenewRequest(RenewPayloadOf(CurrentForm(), session, now),
                                   ToJsString(LoginKey(session)), "Bearer " + ToJsString(LoginKey(session)))
      ensures CurrentForm() == old(CurrentForm()) && loading == old(loading)
      ensures session == old(session) && isReady == old(isReady) && requests == old(requests)
      ensures officeNumberFromApi == old(officeNumberFromApi)
    {
      alert := None;
      sent := None;
      if submitting {
        return;
      }
      var v := ValidateForm(CurrentForm(), parse);
      if v.Some? {
        alert := Some(Alert("Validation", v.value, false));
        return;
      }
      if SessionIncomplete(session) {
        alert := Some(Alert("Session Error", "Please login again.", false));
        return;
      }
      submitting := true;
      error := "";
      var key := ToJsString(LoginKey(session));
      sent := Some(RenewRequest(RenewPayloadOf(CurrentForm(), session, now), key, "Bearer " + key));
    }

    /** The end of `submitRenew`: a non-ok answer or a rejection becomes the
        error and an alert; success alerts with the server's message (OK reloads
        the contract) and clears the chosen file. The button stops spinning. */
    method SubmitFinished(outcome: SubmitOutcome) returns (alert: Alert)
      requires submitting
      modifies this
      ensures !submitting
      ensures outcome.Answered? && outcome.ok ==>
        alert == Alert("Success", ToJsString(Or(Get(outcome.body, "Message"), Str("Contract renewed successfully"))), true) &&
        selectedFile.None? && error == old(error)
      ensures outcome.Answered? && !outcome.ok ==>
        error == ToJsString(Or(Get(outcome.body, "Message"), Str("Submission failed"))) &&
        alert == Alert("Error", error, false) && selectedFile == old(selectedFile)
      ensures outcome.Rejected? ==>
        error == outcome.errorMessage && alert == Alert("Error", error, false) && selectedFile == old(selectedFile)
      ensures contractId == old(contractId) && startDate == old(startDate) && endDate == old(endDate)
      ensures loading == old(loading) && session == old(session) && isReady == old(isReady)
      ensures requests == old(requests) && officeNumberFromApi == old(officeNumberFromApi)
    {
      submitting := false;
      match outcome {
        case Answered(ok, body) =>
          if ok {
            alert := Alert("Success", ToJsString(Or(Get(body, "Message"), Str("Contract renewed successfully"))), true);
            selectedFile := None;
          } else {
            error := ToJsString(Or(Get(body, "Message"), Str("Submission failed")));
            alert := Alert("Error", error, false);
          }
        case Rejected(m) =>
          error := m;
          alert := Alert("Error", m, false);
      }
    }

    /** The skeleton while the session is not ready or the contract is loading;
        otherwise `RenderPage` of the form, with the office number resolved by
        `OfficeNumberDisplay`. */
    function View(): (v: View)
      reads this
      ensures v.Skeleton? <==> !isReady || loading
      ensures v.RenderError? <==> isReady && !loading && !Renderable(OfficeNumberDisplay(officeNumberFromApi, session))
      ensures v.Page? ==> (v.errorBanner.Some? <==> error != "") && v.spinner == submitting
      ensures v.Page? ==> v.contractId == (if contractId == "" then "Not found" else contractId)
      ensures v.Page? ==> v.startDate == (if startDate == "" then "Not found" else startDate)
      ensures v.Page? ==> v.endDate == (if endDate == "" then "Not found" else endDate)
      ensures v.Page? ==> v.fileButton == (if selectedFile.Some? then "Change File" else "Choose File")
      ensures v.Page? ==> v.fileLabel == FileLabel(selectedFile)
      ensures v.Page? && Truthy(officeNumberFromApi) ==> v.officeNumber == TextOf(officeNumberFromApi)
      ensures v.Page? && !Truthy(OfficeNumberDisplay(officeNumberFromApi, session)) ==> v.officeNumber == "N/A"
    {
      if !isReady || loading then Skeleton
      else RenderPage(OfficeNumberDisplay(officeNumberFromApi, session), error, contractId, startDate, endDate,
                      selectedFile, submitting)
    }
  }

  /** Without a user or office id the effect never loads the contract, so the
      screen stays on its skeleton and nothing is sent. */
  method NoIdsStayOnSkeleton(s: Option<Session>) returns (skeleton: bool, sent: nat)
    requires !Truthy(UserId(s)) || !Truthy(OfficeId(s))
    ensures skeleton && sent == 0
  {
    var form := new RenewForm(s, true);
    skeleton := form.View().Skeleton?;
    sent := |form.requests|;
  }

  /** A session whose ids are present but whose login key is missing shows the
      "incomplete" error; supplying the key afterwards does not retry, because
      the key is not one of the effect's dependencies. */
  method MissingKeyNotRetried(s: Session, key: JVal) returns (error: string, sent: nat)
    requires Truthy(s.clientId) && Truthy(s.unit) && !Truthy(s.loginKey) && Truthy(key)
    ensures error == INCOMPLETE_SESSION && sent == 0
  {
    var form := new RenewForm(Some(s), true);
    form.SessionChanged(Some(s.(loginKey := key)), true);
    error := form.error;
    sent := |form.requests|;
  }
}
