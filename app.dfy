/** The root of the app (`AppContent`): what it shows for the session state, the
    page chosen from the menu, the notification dropdown flag and the cloud-error
    switch. The session store is outside this model: `session` and `isReady`
    are inputs and every `saveSession` call is appended to a log. */
module AppRoot {
  import opened Optional
  import opened Sessions

  /** The page components the root can mount under the header. */
  datatype Page =
    | DashboardPage
    | ProfilePage
    | RequestMovePage
    | NotificationsPage
    | MyContractPage
    | RenewContractPage
    | BillHistoryPage
    | BillDuePage
    | PaymentHistoryPage
    | RaiseTicketPage
    | PaymentPage

  /** The `selectedPage === key && <Page/>` conditionals, in the order they appear. */
  const PAGE_TABLE: seq<(string, Page)> := [
    ("dashboard", DashboardPage),
    ("profile", ProfilePage),
    ("request-moveout", RequestMovePage),
    ("Notifications", NotificationsPage),
    ("my-contract", MyContractPage),
    ("renew-contract", RenewContractPage),
    ("bill-history", BillHistoryPage),
    ("Bill-Due", BillDuePage),
    ("payment-history", PaymentHistoryPage),
    ("raise-ticket", RaiseTicketPage),
    ("pay-now", PaymentPage)
  ]

  predicate DistinctKeys(table: seq<(string, Page)>) {
    forall i, j :: 0 <= i < j < |table| ==> table[i].0 != table[j].0
  }

  predicate KeyIn(table: seq<(string, Page)>, key: string) {
    exists i :: 0 <= i < |table| && table[i].0 == key
  }

  /** The pages whose condition holds, one conditional after the other. */
  function PagesFor(table: seq<(string, Page)>, selected: string): seq<Page> {
    if table == [] then []
    else (if table[0].0 == selected then [table[0].1] else []) + PagesFor(table[1..], selected)
  }

  /** With pairwise distinct keys at most one conditional fires, and one fires
      exactly when the selected key is in the table. */
  lemma {:induction false} AtMostOnePage(table: seq<(string, Page)>, selected: string)
    requires DistinctKeys(table)
    ensures |PagesFor(table, selected)| <= 1
    ensures |PagesFor(table, selected)| == 1 <==> KeyIn(table, selected)
    ensures forall i :: 0 <= i < |table| && table[i].0 == selected ==> PagesFor(table, selected) == [table[i].1]
  {
    if table != [] {
      var rest := table[1..];
      assert DistinctKeys(rest) by {
        forall i, j | 0 <= i < j < |rest| ensures rest[i].0 != rest[j].0 {
          assert rest[i] == table[i + 1] && rest[j] == table[j + 1];
        }
      }
      AtMostOnePage(rest, selected);
      if table[0].0 == selected {
        assert !KeyIn(rest, selected) by {
          forall i | 0 <= i < |rest| ensures rest[i].0 != selected {
            assert rest[i] == table[i + 1];
          }
        }
      }
      if KeyIn(table, selected) {
        var i :| 0 <= i < |table| && table[i].0 == selected;
        if i > 0 {
          assert rest[i - 1] == table[i];
        }
      }
      if KeyIn(rest, selected) {
        var i :| 0 <= i < |rest| && rest[i].0 == selected;
        assert table[i + 1] == rest[i];
      }
      forall i | 0 <= i < |table| && table[i].0 == selected
        ensures PagesFor(table, selected) == [table[i].1]
      {
        if i > 0 {
          assert rest[i - 1] == table[i];
        }
      }
    }
  }

  lemma PageKeysDistinct()
    ensures DistinctKeys(PAGE_TABLE)
  {
  }

  /** The page components mounted for `selectedPage`. */
  function RenderedPages(selected: string): (pages: seq<Page>)
    ensures |pages| <= 1
    ensures |pages| == 1 <==> KeyIn(PAGE_TABLE, selected)
  {
    PageKeysDistinct();
    AtMostOnePage(PAGE_TABLE, selected);
    PagesFor(PAGE_TABLE, selected)
  }

  /** A notification tap routes to "NotificationDetail", which no page handles:
      the area under the header stays empty. */
  lemma NotificationDetailHasNoPage()
    ensures RenderedPages("NotificationDetail") == []
  {
  }

  datatype Screen =
    | Nothing
    | Auth
    | CloudError
    | Main(pages: seq<Page>)

  /** `AppContent`'s early returns: nothing before the session is loaded, the
      auth screen (logging in through `saveSession`) without a session, the
      cloud-error screen while the cloud is down, or the wrapped page. */
  function AppScreen(isReady: bool, session: Option<Session>, isCloudDown: bool, selectedPage: string): (s: Screen)
    ensures !isReady ==> s == Nothing
    ensures isReady && session.None? ==> s == Auth
    ensures isReady && session.Some? && isCloudDown ==> s == CloudError
    ensures isReady && session.Some? && !isCloudDown ==> s == Main(RenderedPages(selectedPage))
    ensures s.Main? ==> isReady && session.Some? && !isCloudDown && |s.pages| <= 1
  {
    if !isReady then Nothing
    else if session.None? then Auth
    else if isCloudDown then CloudError
    else Main(RenderedPages(selectedPage))
  }

  /** `"NotificationsScreen"` is published as the "Notifications" page; every
      other route name, "NotificationDetail" included, is used as the page key. */
  function NotificationRoute(screenName: string): (page: string)
    ensures screenName == "NotificationsScreen" ==> page == "Notifications"
    ensures screenName != "NotificationsScreen" ==> page == screenName
  {
    if screenName == "NotificationsScreen" then "Notifications"
    else if screenName == "NotificationDetail" then "NotificationDetail"
    else screenName
  }

  /** The signed-in part of the root: its four state cells, the 1 s loading timer,
      and the log of `saveSession` calls it makes. */
  class AppShell {
    var selectedPage: string
    var notifOpen: bool
    var isCloudDown: bool
    var loading: bool
    var loadingTimerArmed: bool
    var sessionWrites: seq<SessionWrite>

    /** The loading timer is pending exactly while `loading`, and nothing in
        the root ever sets `isCloudDown`. */
    ghost predicate Valid()
      reads this
    {
      loadingTimerArmed == loading && !isCloudDown
    }

    /** So the cloud-error screen is never shown, whatever the session. */
    lemma CloudErrorUnreachable(isReady: bool, session: Option<Session>)
      requires Valid()
      ensures AppScreen(isReady, session, isCloudDown, selectedPage) != CloudError
    {
    }

    constructor ()
      ensures Valid()
      ensures selectedPage == "dashboard" && !notifOpen && !isCloudDown
      ensures loading && loadingTimerArmed && sessionWrites == []
    {
      selectedPage := "dashboard";
      notifOpen := false;
      isCloudDown := false;
      loading := true;
      loadingTimerArmed := true;
      sessionWrites := [];
    }

    /** `handleMenuSelect`: "logout" clears the session and nothing else;
        any other key becomes the page. */
    method MenuSelect(key: string)
      requires Valid()
      modifies this
      ensures Valid()
      ensures key == "logout" ==>
        sessionWrites == old(sessionWrites) + [Cleared] && selectedPage == old(selectedPage)
      ensures key != "logout" ==>
        selectedPage == key && sessionWrites == old(sessionWrites)
      ensures notifOpen == old(notifOpen) && isCloudDown == old(isCloudDown)
      ensures loading == old(loading) && loadingTimerArmed == old(loadingTimerArmed)
    {
      if key == "logout" {
        sessionWrites := sessionWrites + [Cleared];
        return;
      }
      selectedPage := key;
    }

    /** `handleNotificationNavigation`: the dropdown closes and the route's page is selected. */
    method NotificationNavigation(screenName: string)
      requires Valid()
      modifies this
      ensures Valid()
      ensures !notifOpen && selectedPage == NotificationRoute(screenName)
      ensures isCloudDown == old(isCloudDown) && sessionWrites == old(sessionWrites)
      ensures loading == old(loading) && loadingTimerArmed == old(loadingTimerArmed)
    {
      notifOpen := false;
      selectedPage := NotificationRoute(screenName);
    }

    /** `handleRetry` of the cloud-error screen. */
    method Retry()
      requires Valid()
      modifies this
      ensures Valid()
      ensures !isCloudDown
      ensures selectedPage == old(selectedPage) && notifOpen == old(notifOpen)
      ensures loading == old(loading) && loadingTimerArmed == old(loadingTimerArmed)
      ensures sessionWrites == old(sessionWrites)
    {
      isCloudDown := false;
    }

    /** The bell in the header: `setNotifOpen(v => !v)`. */
    method ToggleNotifications()
      requires Valid()
      modifies this
      ensures Valid()
      ensures notifOpen == !old(notifOpen)
      ensures selectedPage == old(selectedPage) && isCloudDown == old(isCloudDown)
      ensures loading == old(loading) && loadingTimerArmed == old(loadingTimerArmed)
      ensures sessionWrites == old(sessionWrites)
    {
      notifOpen := !notifOpen;
    }

    /** The dropdown's `onClose`. */
    method CloseNotifications()
      requires Valid()
      modifies this
      ensures Valid()
      ensures !notifOpen
      ensures selectedPage == old(selectedPage) && isCloudDown == old(isCloudDown)
      ensures loading == old(loading) && loadingTimerArmed == old(loadingTimerArmed)
      ensures sessionWrites == old(sessionWrites)
    {
      notifOpen := false;
    }

    /** The payment page's `onHome`. */
    method PaymentHome()
      requires Valid()
      modifies this
      ensures Valid()
      ensures selectedPage == "dashboard"
      ensures notifOpen == old(notifOpen) && isCloudDown == old(isCloudDown)
      ensures loading == old(loading) && loadingTimerArmed == old(loadingTimerArmed)
      ensures sessionWrites == old(sessionWrites)
    {
      selectedPage := "dashboard";
    }

    /** The 1 s timer of the mount effect. */
    method LoadingTimerFires()
      requires Valid() && loadingTimerArmed
      modifies this
      ensures Valid()
      ensures !loading && !loadingTimerArmed
      ensures selectedPage == old(selectedPage) && notifOpen == old(notifOpen)
      ensures isCloudDown == old(isCloudDown) && sessionWrites == old(sessionWrites)
    {
      loading := false;
      loadingTimerArmed := false;
    }
  }
}
