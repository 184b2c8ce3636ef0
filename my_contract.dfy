/** The my-contract screen: the first contract of the client's contract
    response, read through `pick` over several spellings of each field, shown as
    a summary card or a details table. */
module MyContract {
  import opened Optional
  import opened Text
  import opened JsValues
  import opened Dates
  import opened Sessions

  // ---------------------------------------------------------------------------
  // pick
  // ---------------------------------------------------------------------------

  /** `obj` has `k` as an own property whose value is neither null nor undefined. */
  predicate Present(obj: JVal, k: string) {
    OwnProperty(obj, k).Some? && !IsNullish(OwnProperty(obj, k).value)
  }

  /** The value of the first present key, or `undefined`. */
  function FirstPresent(obj: JVal, keys: seq<string>): JVal {
    if keys == [] then Undefined
    else if Present(obj, keys[0]) then OwnProperty(obj, keys[0]).value
    else FirstPresent(obj, keys[1..])
  }

  /** What `pick(obj, ...keys)` returns. */
  function PickSpec(obj: JVal, keys: seq<string>): JVal {
    if !Truthy(obj) then Undefined else FirstPresent(obj, keys)
  }

  /** `pick`: the loop over the keys that returns at the first present one. */
  method Pick(obj: JVal, keys: seq<string>) returns (r: JVal)
    ensures r == PickSpec(obj, keys)
  {
    if !Truthy(obj) {
      return Undefined;
    }
    for i := 0 to |keys|
      invariant FirstPresent(obj, keys) == FirstPresent(obj, keys[i..])
    {
      assert keys[i..][1..] == keys[i + 1..];
      var p := OwnProperty(obj, keys[i]);
      if p.Some? && !IsNullish(p.value) {
        return p.value;
      }
    }
    assert keys[|keys|..] == [];
    return Undefined;
  }

  /** `pick` returns the value of the first listed key that is present, and
      `undefined` exactly when the object is falsy or no listed key is present. */
  lemma {:induction false} PickFirstPresent(obj: JVal, keys: seq<string>)
    ensures PickSpec(obj, keys) == Undefined <==>
      !Truthy(obj) || forall i :: 0 <= i < |keys| ==> !Present(obj, keys[i])
    ensures forall i ::
      (0 <= i < |keys| && Truthy(obj) && Present(obj, keys[i]) && forall j :: 0 <= j < i ==> !Present(obj, keys[j])) ==>
        PickSpec(obj, keys) == OwnProperty(obj, keys[i]).value
  {
    if keys != [] && Truthy(obj) {
      PickFirstPresent(obj, keys[1..]);
      forall i | 0 <= i < |keys| && Present(obj, keys[i]) && (forall j :: 0 <= j < i ==> !Present(obj, keys[j]))
        ensures PickSpec(obj, keys) == OwnProperty(obj, keys[i]).value
      {
        if i > 0 {
          assert !Present(obj, keys[0]);
          assert keys[1..][i - 1] == keys[i];
          assert forall j :: 0 <= j < i - 1 ==> keys[1..][j] == keys[j + 1];
        }
      }
      if forall i :: 0 <= i < |keys| ==> !Present(obj, keys[i]) {
        assert forall i :: 0 <= i < |keys[1..]| ==> keys[1..][i] == keys[i + 1];
      }
    }
  }

  /** Earlier keys win: looking up a list of keys followed by more keys only
      consults the later ones when none of the first are present. */
  lemma {:induction false} PickEarlierWins(obj: JVal, a: seq<string>, b: seq<string>)
    ensures PickSpec(obj, a + b) == (if PickSpec(obj, a) != Undefined then PickSpec(obj, a) else PickSpec(obj, b))
  {
    if a != [] && Truthy(obj) {
      assert (a + b)[0] == a[0];
      assert (a + b)[1..] == a[1..] + b;
      PickEarlierWins(obj, a[1..], b);
    } else if Truthy(obj) {
      assert a + b == b;
    }
  }

  // ---------------------------------------------------------------------------
  // normalizeContract
  // ---------------------------------------------------------------------------

  const CONTRACT_ID_KEYS: seq<string> := ["ContractID", "contractId", "id", "Id", "contractID"]
  const CATEGORY_KEYS: seq<string> := ["ContractCategory", "contractCategory", "category"]
  const STATUS_KEYS: seq<string> := ["ContractStatus", "contractStatus", "isActive", "active"]
  const EXPIRY_KEYS: seq<string> := ["ContractExpiry", "contractExpiry", "expiryDate", "ExpiryDate", "expiry"]
  const PROPERTY_KEYS: seq<string> := ["PropertyName", "propertyName", "Property", "property", "property_name"]
  const OFFICE_KEYS: seq<string> := ["OfficeId", "officeId", "office", "Unit", "unit", "office_id"]

  /** The last argument of the `PropertyName` lookup is the value of
      `raw.Property.Name` (when both are truthy) or `undefined`, used as a key:
      it is its string form, so a missing name looks up the key "undefined". */
  function NestedNameKey(raw: JVal): string {
    var property := Get(raw, "Property");
    ToJsString(if Truthy(property) && Truthy(Get(property, "Name")) then Get(property, "Name") else Undefined)
  }

  /** `normalizeContract`: `{}` for a falsy input, otherwise an object with the
      six picked fields and the input itself under `__raw`. */
  function NormalizeContract(raw: JVal): (c: JVal)
    ensures c.Obj?
    ensures !Truthy(raw) ==> c == Obj(map[])
    ensures Truthy(raw) ==> Get(c, "__raw") == raw
    ensures Truthy(raw) ==> Get(c, "ContractID") == PickSpec(raw, CONTRACT_ID_KEYS)
    ensures Truthy(raw) ==>
      Get(c, "ContractCategory") == PickSpec(raw, CATEGORY_KEYS) &&
      Get(c, "ContractStatus") == PickSpec(raw, STATUS_KEYS) &&
      Get(c, "ContractExpiry") == PickSpec(raw, EXPIRY_KEYS) &&
      Get(c, "PropertyName") == PickSpec(raw, PROPERTY_KEYS + [NestedNameKey(raw)]) &&
      Get(c, "OfficeId") == PickSpec(raw, OFFICE_KEYS)
    ensures Truthy(raw) ==>
      c.props.Keys == {"ContractID", "ContractCategory", "ContractStatus", "ContractExpiry", "PropertyName", "OfficeId", "__raw"}
  {
    if !Truthy(raw) then Obj(map[])
    else Obj(map[
      "ContractID" := PickSpec(raw, CONTRACT_ID_KEYS),
      "ContractCategory" := PickSpec(raw, CATEGORY_KEYS),
      "ContractStatus" := PickSpec(raw, STATUS_KEYS),
      "ContractExpiry" := PickSpec(raw, EXPIRY_KEYS),
      "PropertyName" := PickSpec(raw, PROPERTY_KEYS + [NestedNameKey(raw)]),
      "OfficeId" := PickSpec(raw, OFFICE_KEYS),
      "__raw" := raw])
  }

  /** Every field of the normalized form of a falsy value reads as undefined. */
  lemma EmptyContractFields(raw: JVal, k: string)
    requires !Truthy(raw)
    ensures Get(NormalizeContract(raw), k) == Undefined
  {
  }

  /** A nested property name is only used when none of the flat spellings is present. */
  lemma NestedNameIsLastResort(raw: JVal)
    requires Truthy(raw)
    ensures PickSpec(raw, PROPERTY_KEYS) != Undefined ==>
      Get(NormalizeContract(raw), "PropertyName") == PickSpec(raw, PROPERTY_KEYS)
    ensures PickSpec(raw, PROPERTY_KEYS) == Undefined ==>
      Get(NormalizeContract(raw), "PropertyName") == PickSpec(raw, [NestedNameKey(raw)])
  {
    PickEarlierWins(raw, PROPERTY_KEYS, [NestedNameKey(raw)]);
  }

  /** `rawContract`: an array response gives its first element, anything else
      itself, with a falsy response read as `null`. */
  function RawContract(data: JVal): (raw: JVal)
    ensures data.Arr? && |data.items| > 0 ==> raw == data.items[0]
    ensures data.Arr? && |data.items| == 0 ==> raw == Undefined
    ensures !data.Arr? && Truthy(data) ==> raw == data
    ensures !data.Arr? && !Truthy(data) ==> raw == Null
  {
    if data.Arr? then (if |data.items| > 0 then data.items[0] else Undefined)
    else Or(data, Null)
  }

  // ---------------------------------------------------------------------------
  // Derived display values
  // ---------------------------------------------------------------------------


  /** `contract.PropertyName || "—"`, placed as it is in a `Text`. */
  function PropertyNameValue(c: JVal): (v: JVal)
    ensures Truthy(v)
    ensures Truthy(Get(c, "PropertyName")) ==> v == Get(c, "PropertyName")
    ensures !Truthy(Get(c, "PropertyName")) ==> v == Str(DASH)
  {
    Or(Get(c, "PropertyName"), Str(DASH))
  }

  function PropertyNameText(c: JVal): string {
    TextOf(PropertyNameValue(c))
  }

  function ContractIdText(c: JVal): (t: string)
    ensures !Truthy(Get(c, "ContractID")) ==> t == DASH
    ensures Truthy(Get(c, "ContractID")) ==> t == ToJsString(Get(c, "ContractID"))
  {
    var v := Get(c, "ContractID");
    if Truthy(v) then ToJsString(v) else DASH
  }

  /** `contract.OfficeId || contract.OfficeId === 0 ? String(...) : "—"` */
  function OfficeIdText(v: JVal): (t: string)
    ensures (Truthy(v) || v == Num(0)) ==> t == ToJsString(v)
    ensures !(Truthy(v) || v == Num(0)) ==> t == DASH
  {
    if Truthy(v) || v == Num(0) then ToJsString(v) else DASH
  }

  /** Office 0 is shown as "0"; a missing, null, false or empty office as a dash. */
  lemma OfficeZeroIsShown()
    ensures OfficeIdText(Num(0)) == "0"
    ensures OfficeIdText(Undefined) == DASH && OfficeIdText(Null) == DASH
    ensures OfficeIdText(Str("")) == DASH && OfficeIdText(Bool(false)) == DASH
  {
  }

  /** `isActive` */
  predicate IsActive(status: JVal) {
    status == Bool(true) || status == Str("true") || status == Num(1) || status == Str("1")
  }

  /** Only the four spellings of "active" count: other truthy values do not. */
  lemma ActiveSpellings()
    ensures IsActive(Bool(true)) && IsActive(Str("true")) && IsActive(Num(1)) && IsActive(Str("1"))
    ensures !IsActive(Num(2)) && !IsActive(Str("yes")) && !IsActive(Str("True")) && !IsActive(Undefined)
  {
  }

  /** `contractTypeText` */
  function ContractTypeText(category: JVal): (t: string)
    ensures t == "RESIDENTIAL" <==> category == Num(0) || category == Str("0")
    ensures t != "RESIDENTIAL" ==> t == "COMMERCIAL"
  {
    if category == Num(0) || category == Str("0") then "RESIDENTIAL" else "COMMERCIAL"
  }

  const MONTH_ABBREVIATIONS: seq<string> :=
    ["Jan", "Feb", "Mar", "Apr", "May", "Jun", "Jul", "Aug", "Sep", "Oct", "Nov", "Dec"]

  /** `formatDate`: "dd Mon yyyy", or a dash for a falsy or unreadable value. */
  function FormatDate(iso: JVal, parse: DateParser): (t: string)
    ensures (!Truthy(iso) || parse(iso).None?) ==> t == DASH
    ensures Truthy(iso) && parse(iso).Some? ==>
      t == Pad2(parse(iso).value.day as nat) + " " + MONTH_ABBREVIATIONS[parse(iso).value.month] + " " +
           NatToString(parse(iso).value.year)
  {
    if !Truthy(iso) then DASH
    else
      var d := parse(iso);
      if d.None? then DASH
      else Pad2(d.value.day as nat) + " " + MONTH_ABBREVIATIONS[d.value.month] + " " + NatToString(d.value.year)
  }

  /** What the screen shows. */
  datatype View =
    | Loading
    | Summary(contractType: string, propertyName: string, badge: string, expiry: string)
    | Details(property: string, office: string, contractType: string, status: string,
              contractId: string, expiry: string)
    /** The property name is an object (such as a nested `Property` record),
        which is not a valid `Text` child, so rendering throws. */
    | RenderError

  function Render(loading: bool, showDetails: bool, contractData: JVal, parse: DateParser): (v: View)
    ensures loading <==> v.Loading?
    ensures v.RenderError? <==>
      !loading && !Renderable(PropertyNameValue(NormalizeContract(RawContract(contractData))))
    ensures !v.RenderError? && !loading && !showDetails ==> v.Summary?
    ensures !v.RenderError? && !loading && showDetails ==> v.Details?
    ensures v.Summary? ==>
      var c := NormalizeContract(RawContract(contractData));
      v.contractType == ContractTypeText(Get(c, "ContractCategory")) &&
      (v.badge == "Approved" <==> IsActive(Get(c, "ContractStatus"))) &&
      v.propertyName == PropertyNameText(c) && v.expiry == FormatDate(Get(c, "ContractExpiry"), parse)
    ensures v.Details? ==>
      var c := NormalizeContract(RawContract(contractData));
      v.contractType == ContractTypeText(Get(c, "ContractCategory")) &&
      (v.status == "Active" <==> IsActive(Get(c, "ContractStatus"))) &&
      v.property == PropertyNameText(c) && v.office == OfficeIdText(Get(c, "OfficeId")) &&
      v.contractId == ContractIdText(c) && v.expiry == FormatDate(Get(c, "ContractExpiry"), parse)
  {
    var c := NormalizeContract(RawContract(contractData));
    var active := IsActive(Get(c, "ContractStatus"));
    var typeText := ContractTypeText(Get(c, "ContractCategory"));
    var expiry := FormatDate(Get(c, "ContractExpiry"), parse);
    if loading then Loading
    else if !Renderable(PropertyNameValue(c)) then RenderError
    else if !showDetails then
      Summary(typeText, PropertyNameText(c), if active then "Approved" else "Inactive", expiry)
    else
      Details(PropertyNameText(c), OfficeIdText(Get(c, "OfficeId")),
              typeText, if active then "Active" else "Inactive", ContractIdText(c), expiry)
  }

  /** The summary badge and the details status agree: "Approved" exactly when
      "Active"; and with no contract at all the screen shows a commercial,
      inactive contract with dashes. */
  lemma SummaryAgreesWithDetails(contractData: JVal, parse: DateParser)
    ensures Render(false, false, contractData, parse).RenderError? <==> Render(false, true, contractData, parse).RenderError?
    ensures Render(false, false, contractData, parse).Summary? ==>
      (Render(false, false, contractData, parse).badge == "Approved" <==>
       Render(false, true, contractData, parse).status == "Active") &&
      Render(false, false, contractData, parse).contractType == Render(false, true, contractData, parse).contractType
    ensures !Truthy(RawContract(contractData)) ==>
      Render(false, true, contractData, parse) ==
        Details(DASH, DASH, "COMMERCIAL", "Inactive", DASH, DASH)
  {
  }

  /** A contract whose property is a nested record `{Property: {Name: ...}}`
      picks the record itself under the `Property` spelling. */
  lemma NestedPropertyPicksRecord(name: JVal)
    ensures PropertyNameValue(NormalizeContract(RawContract(Obj(map["Property" := Obj(map["Name" := name])])))) ==
      Obj(map["Name" := name])
  {
    var nested := Obj(map["Property" := Obj(map["Name" := name])]);
    PickEarlierWins(nested, PROPERTY_KEYS, [NestedNameKey(nested)]);
    PickFirstPresent(nested, PROPERTY_KEYS);
    assert !Present(nested, PROPERTY_KEYS[0]) && !Present(nested, PROPERTY_KEYS[1]) && Present(nested, PROPERTY_KEYS[2]);
  }

  /** So such a contract cannot be rendered, as a summary or as details. */
  lemma NestedPropertyRecordThrows(name: JVal, showDetails: bool, parse: DateParser)
    ensures Render(false, showDetails, Obj(map["Property" := Obj(map["Name" := name])]), parse) == RenderError
  {
    NestedPropertyPicksRecord(name);
  }

  /** A flat property name is shown as it is. */
  lemma FlatPropertyNameShown(name: string, parse: DateParser)
    requires name != ""
    ensures Render(false, false, Obj(map["PropertyName" := Str(name)]), parse).Summary?
    ensures Render(false, false, Obj(map["PropertyName" := Str(name)]), parse).propertyName == name
  {
    var flat := Obj(map["PropertyName" := Str(name)]);
    PickEarlierWins(flat, PROPERTY_KEYS, [NestedNameKey(flat)]);
    assert Present(flat, PROPERTY_KEYS[0]);
    assert PropertyNameValue(NormalizeContract(RawContract(flat))) == Str(name);
  }

  // ---------------------------------------------------------------------------
  // Loading
  // ---------------------------------------------------------------------------

  /** The request `loadContracts` sends: the owner endpoint or the tenant one,
      the client id to use, the type id, and the bearer token if there is a login key. */
  datatype ContractRequest = ContractRequest(owner: bool, clientId: JVal, clientTypeId: JVal,
                                             authorization: Option<string>)

  /** How a request ends: a response with `ok` and its data, or an exception. */
  datatype ContractOutcome = Response(ok: bool, data: JVal) | Failure

  /** The request the effect makes for a session, if any. */
  function RequestFor(session: Option<Session>): (r: Option<ContractRequest>)
    ensures r.Some? <==> session.Some? && Truthy(Or(session.value.clientId, session.value.userId))
    ensures r.Some? ==> (r.value.owner <==> session.value.clientTypeId == Num(1))
    ensures r.Some? ==> r.value.clientId == Or(session.value.clientId, session.value.userId)
  {
    if session.None? then None
    else
      var s := session.value;
      var id := Or(s.clientId, s.userId);
      if !Truthy(id) then None
      else Some(ContractRequest(s.clientTypeId == Num(1), id, s.clientTypeId,
                                if Truthy(s.loginKey) then Some("Bearer " + ToJsString(s.loginKey)) else None))
  }

  class ContractScreen {
    var session: Option<Session>
    /** The identity of the session object the context hands out: the effect
        depends on `[session]`, which React compares with `Object.is`, so a new
        object reruns it even when its contents are equal. */
    var sessionRef: nat
    var loading: bool
    var contractData: JVal
    var showContractDetails: bool
    /** Which run of the effect is current; the cleanup of a run makes its
        `isMounted` false, so responses to older runs are dropped. */
    var generation: nat
    /** Requests sent, each with the run of the effect that sent it. */
    var requests: seq<(nat, ContractRequest)>

    /** Mounting: loading, no data, and the effect's first run. */
    constructor (s: Option<Session>, ref: nat)
      ensures session == s && sessionRef == ref && loading && contractData == Null && !showContractDetails
      ensures generation == 0
      ensures requests == (if RequestFor(s).Some? then [(0, RequestFor(s).value)] else [])
    {
      session := s;
      sessionRef := ref;
      loading := true;
      contractData := Null;
      showContractDetails := false;
      generation := 0;
      requests := if RequestFor(s).Some? then [(0, RequestFor(s).value)] else [];
    }

    /** A render with the session object `ref` holding `s`. The same object
        changes nothing; a different one, even with equal contents, cleans up the
        old run and runs the effect again. Without a usable id nothing is sent and
        `loading` is left as it was. */
    method SessionChanged(s: Option<Session>, ref: nat)
      modifies this
      ensures ref == old(sessionRef) ==> unchanged(this)
      ensures ref != old(sessionRef) ==>
        session == s && sessionRef == ref &&
        generation == old(generation) + 1 &&
        requests == old(requests) + (if RequestFor(s).Some? then [(generation, RequestFor(s).value)] else []) &&
        loading == (RequestFor(s).Some? || old(loading))
      ensures contractData == old(contractData) && showContractDetails == old(showContractDetails)
    {
      if ref == sessionRef {
        return;
      }
      session := s;
      sessionRef := ref;
      generation := generation + 1;
      var r := RequestFor(s);
      if r.Some? {
        loading := true;
        requests := requests + [(generation, r.value)];
      }
    }

    /** Whether run `run` of the effect sent a request, so that an answer for
        it can arrive. */
    predicate Sent(run: nat)
      reads this
    {
      exists k :: 0 <= k < |requests| && requests[k].0 == run
    }

    /** A response or failure for the request of run `run`. Only the current
        run stores data and clears `loading`; an earlier run's answer is dropped. */
    method LoadFinished(run: nat, outcome: ContractOutcome)
      requires Sent(run)
      modifies this
      ensures run != old(generation) ==> unchanged(this)
      ensures run == old(generation) ==>
        !loading &&
        contractData == (if outcome.Response? && outcome.ok then outcome.data else old(contractData))
      ensures session == old(session) && generation == old(generation) && requests == old(requests)
      ensures showContractDetails == old(showContractDetails)
    {
      if run != generation {
        return;
      }
      if outcome.Response? && outcome.ok {
        contractData := outcome.data;
      }
      loading := false;
    }

    /** Unmounting cleans up the current run. */
    method Unmount()
      modifies this
      ensures generation == old(generation) + 1
      ensures loading == old(loading) && contractData == old(contractData) && session == old(session)
      ensures requests == old(requests) && showContractDetails == old(showContractDetails)
    {
      generation := generation + 1;
    }

    /** "View Contract Details" and the back arrow. */
    method SetShowDetails(show: bool)
      modifies this
      ensures showContractDetails == show
      ensures loading == old(loading) && contractData == old(contractData) && session == old(session)
      ensures generation == old(generation) && requests == old(requests)
    {
      showContractDetails := show;
    }

    function View(parse: DateParser): View
      reads this
    {
      Render(loading, showContractDetails, contractData, parse)
    }
  }

  /** Without a session, or with a session that has neither a client id nor a
      user id, nothing is requested and the screen keeps showing its skeleton. */
  method NoSessionStaysLoading(s: Option<Session>) returns (loading: bool, sent: nat)
    requires s.None? || !Truthy(Or(s.value.clientId, s.value.userId))
    ensures loading && sent == 0
  {
    var screen := new ContractScreen(s, 0);
    loading := screen.loading;
    sent := |screen.requests|;
  }

  /** A response to a session that has since been replaced does not overwrite
      the data of the new session's response. */
  method StaleResponseDropped(a: Session, b: Session, dataA: JVal, dataB: JVal) returns (shown: JVal)
    requires RequestFor(Some(a)).Some? && RequestFor(Some(b)).Some?
    ensures shown == dataB
  {
    var screen := new ContractScreen(Some(a), 0);
    screen.SessionChanged(Some(b), 1);
    assert screen.requests[0].0 == 0 && screen.requests[1].0 == 1;
    screen.LoadFinished(1, Response(true, dataB));
    screen.LoadFinished(0, Response(true, dataA));
    shown := screen.contractData;
  }

  /** A new session object with the same contents sends the request again; a
      render with the same object sends nothing. */
  method EqualSessionObjectRefetches(a: Session) returns (sentAgain: nat, sentSame: nat)
    ensures RequestFor(Some(a)).Some? ==> sentAgain == 2 && sentSame == 1
    ensures RequestFor(Some(a)).None? ==> sentAgain == 0 && sentSame == 0
  {
    var screen := new ContractScreen(Some(a), 0);
    screen.SessionChanged(Some(a), 0);
    sentSame := |screen.requests|;
    screen.SessionChanged(Some(a), 1);
    sentAgain := |screen.requests|;
  }
}
