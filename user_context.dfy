/** The user-profile provider: the `profile` and `loading` cells shared with the
    screens, and `loadProfile`, which runs on mount, whenever the session's
    `clientId` changes, and as `reloadProfile`. The fetch is split into the
    request (`LoadProfile`) and the arrival of its outcome (`LoadFinished`), so
    overlapping loads can finish in any order. */
module UserContext {
  import opened JsValues

  const APPROVED_CLIENT_URL := "https://residentapi.strata-global.com/api/get-approved-client?userId="

  /** How one request ends: a response whose body parsed as `body` (with
      whatever HTTP status), or a network or JSON error. */
  datatype LoadOutcome =
    | Responded(status: int, body: JVal)
    | Failed

  class ProfileStore {
    /** `session?.clientId` */
    var clientId: JVal
    var profile: JVal
    var loading: bool
    /** Requests sent and not yet answered. */
    var inFlight: nat

    /** Mounting the provider: `profile = null`, `loading = true`, then the
        mount effect loads the profile if there is a client id. */
    constructor (id: JVal)
      ensures clientId == id && profile == Null && loading
      ensures inFlight == (if Truthy(id) then 1 else 0)
    {
      clientId := id;
      profile := Null;
      loading := true;
      inFlight := if Truthy(id) then 1 else 0;
    }

    /** `loadProfile` / `reloadProfile` up to the fetch. Without a client id it
        returns at once and touches nothing; otherwise `loading` is set and the
        request for that id goes out. */
    method LoadProfile() returns (url: string)
      modifies this
      ensures !Truthy(old(clientId)) ==> unchanged(this) && url == ""
      ensures Truthy(old(clientId)) ==>
        loading && inFlight == old(inFlight) + 1 && profile == old(profile) &&
        url == APPROVED_CLIENT_URL + ToJsString(clientId)
      ensures clientId == old(clientId)
    {
      if !Truthy(clientId) {
        return "";
      }
      loading := true;
      inFlight := inFlight + 1;
      url := APPROVED_CLIENT_URL + ToJsString(clientId);
    }

    /** A new session `clientId`: the effect re-runs only when it differs. */
    method SessionChanged(id: JVal) returns (url: string)
      modifies this
      ensures clientId == id
      ensures id == old(clientId) ==> unchanged(this) && url == ""
      ensures id != old(clientId) && !Truthy(id) ==>
        profile == old(profile) && loading == old(loading) && inFlight == old(inFlight) && url == ""
      ensures id != old(clientId) && Truthy(id) ==>
        loading && inFlight == old(inFlight) + 1 && profile == old(profile) &&
        url == APPROVED_CLIENT_URL + ToJsString(id)
    {
      if id == clientId {
        return "";
      }
      clientId := id;
      url := LoadProfile();
    }

    /** One outstanding request completes. A parsed body becomes the profile
        whatever the HTTP status; an error keeps the previous profile; `loading`
        ends false either way, even if other requests are still out. */
    method LoadFinished(outcome: LoadOutcome)
      requires inFlight > 0
      modifies this
      ensures !loading && inFlight == old(inFlight) - 1 && clientId == old(clientId)
      ensures outcome.Responded? ==> profile == outcome.body
      ensures outcome.Failed? ==> profile == old(profile)
    {
      if outcome.Responded? {
        profile := outcome.body;
      }
      loading := false;
      inFlight := inFlight - 1;
    }
  }

  /** There is no guard against stale responses: when the answer to an older
      request arrives after the answer to a newer one, the older body is the
      profile that stays. */
  method OutOfOrderResponses() returns (final: JVal)
    ensures final == Str("first client")
  {
    var store := new ProfileStore(Str("A"));
    var _ := store.SessionChanged(Str("B"));
    store.LoadFinished(Responded(200, Str("second client")));
    store.LoadFinished(Responded(200, Str("first client")));
    final := store.profile;
  }

  /** With no client id nothing is ever requested and `loading` stays true. */
  method NoClientStaysLoading() returns (loading: bool, requests: nat)
    ensures loading && requests == 0
  {
    var store := new ProfileStore(Undefined);
    var _ := store.LoadProfile();
    loading := store.loading;
    requests := store.inFlight;
  }
}
