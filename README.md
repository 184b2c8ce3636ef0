# TenantApp resident portal — a Dafny model of its screen logic

TenantApp is a React Native app for residents: they can sign in or sign up (a captcha-checked
three-page wizard, plus a four-page move-in form), see their profile, contract, due bills,
bill history and notifications, renew a contract, and move between pages from a side menu.
Most of the app is layout. This project models the logic inside the screens, and the
`NoInternetConnectionWrapper` around them, and proves what these screens promise.

**How the source is modelled.**

- **State cells.** A component's `useState` cells become fields of a Dafny `class`. Each event
  handler becomes a method, and so does each effect that runs after it. The method's
  `ensures` state the whole new state.
- **Built-in operations.** Pure derivations become functions with named results. These cover
  filters, sorts, groupings, fallbacks, payloads, labels and validators. JavaScript's
  built-ins are spelled out in small shared modules:
  - `JsValues`: dynamic values, truthiness, `||`, `??`, property access and `String()`.
  - `Text`: `trim`, ASCII `toUpperCase`, `split` on one character, and decimal printing and
    reading.
  - `Seqs`: `filter` and `map`.
  - `Dates`: calendar days as integer tuples, with months counted from 0 like `getMonth`.
- **Inputs from outside.**
  - Network results are parameters of the methods that handle them: a JSON body, a status
    that is not ok, an abort or a failure.
  - Timers are explicit expiry events.
  - Connectivity changes are events.
  - The captcha text is an input.
  - `new Date(x)` is a `DateParser` parameter, which maps a value to its calendar day or to
    an Invalid Date.
- **Side effects.** Alerts, `saveSession` writes, navigations and outgoing requests are
  appended to logs that the methods' contracts describe.
- **Session store.** `src/context/SessionContext` is not part of this model. The session, its
  ready flag and `saveSession` are inputs and outputs.

Three behaviours of the code to know:

- The user context has no guard against stale responses, so a late answer overwrites a newer
  one (`UserContext.OutOfOrderResponses`).
- The root never sets `isCloudDown`, so the cloud-error screen cannot be reached
  (`AppRoot.AppShell.CloudErrorUnreachable`).
- The date-range pills only log, so the bill history's range filter never applies
  (`BillHistory.BillHistoryScreen.RangeNeverApplies`).

## Model

| member | source | states |
|---|---|---|
| Connectivity.HasInnerHeaderOrFooter | src/NoInternetConnectionWrapper.jsx:211-240 | the loop with its `found` flag reports true exactly when some truthy element of the children tree is a Header or Footer, by identity or by the name `Header`/`Footer` |
| Connectivity.TypeName | src/NoInternetConnectionWrapper.jsx:216-219 | no contract; the display name, name or tag of an element type, specified by `Connectivity.HasInnerHeaderOrFooter` |
| Connectivity.HasChrome | src/NoInternetConnectionWrapper.jsx:211-240 | no contract; a Header or Footer at or below one entry, specified by `Connectivity.HasInnerHeaderOrFooter` and `ChromeFoundThroughElements` |
| Connectivity.AnyChrome | src/NoInternetConnectionWrapper.jsx:211-240 | no contract; a Header or Footer among the children, specified by `Connectivity.HasInnerHeaderOrFooter`, `ChromeFoundThroughElements` and `AnyChromeAppend` |
| Connectivity.ChromeFoundThroughElements | src/NoInternetConnectionWrapper.jsx:231-236 | a Header or Footer nested inside any element's children is found wherever that element stands among its siblings |
| Connectivity.AnyChromeAppend | src/NoInternetConnectionWrapper.jsx:213-238 | detection over concatenated children is detection over either part, so the order of siblings does not matter |
| Connectivity.StatusBarHeight | src/NoInternetConnectionWrapper.jsx:51 | 20 off Android; on Android the current height, or 24 when it is missing or 0 |
| Connectivity.ResolvedHeaderOffset | src/NoInternetConnectionWrapper.jsx:252-259 | a numeric `headerOffset` wins; otherwise 80 when the wrapper draws its chrome, 56 when inner chrome was detected, else 0 |
| Connectivity.RendersChrome | src/NoInternetConnectionWrapper.jsx:243 | no contract; `renderWrapperHeaderFooter`, specified by `Connectivity.ChromeIffNoInnerChrome` and `ResolvedHeaderOffset` |
| Connectivity.ChildrenAlwaysRendered | src/NoInternetConnectionWrapper.jsx:338-339 | the children are rendered in every connectivity, retry and popup state |
| Connectivity.ChromeIffNoInnerChrome | src/NoInternetConnectionWrapper.jsx:242-243 | the wrapper's header and footer render, with 80/86 px reserved, exactly when not suppressed and no Header/Footer is among the children; otherwise no margins |
| Connectivity.ChromeFor | src/NoInternetConnectionWrapper.jsx:205-208 | no contract; the chrome's pointer events and opacity, specified by `Connectivity.ChromeInteractiveIffOnline` |
| Connectivity.ChromeInteractiveIffOnline | src/NoInternetConnectionWrapper.jsx:205-208 | header and footer take touches (`pointerEvents` is `auto`) and are fully opaque exactly while online |
| Connectivity.BannerIffOffline | src/NoInternetConnectionWrapper.jsx:280-308 | the offline banner renders exactly while offline; its button is disabled and reads "Checking..." exactly while a retry is loading |
| Connectivity.PopupTop | src/NoInternetConnectionWrapper.jsx:261 | no contract; specified by `Connectivity.PopupBelowHeader` |
| Connectivity.PopupBelowHeader | src/NoInternetConnectionWrapper.jsx:252-261 | the popup and the banner sit 8 px below the status bar and the reserved band: the wrapper's own header, the 56 px inner-header estimate, nothing, or an explicit numeric offset |
| Connectivity.Render | src/NoInternetConnectionWrapper.jsx:265-345 | no contract; specified by `Connectivity.ChildrenAlwaysRendered`, `ChromeIffNoInnerChrome`, `ChromeInteractiveIffOnline`, `BannerIffOffline` and `PopupBelowHeader` |
| Connectivity.Wrapper.constructor | src/NoInternetConnectionWrapper.jsx:34-49 | the first render is online, with no popup, not loading and no timer pending |
| Connectivity.Wrapper.NetworkChanged | src/NoInternetConnectionWrapper.jsx:53-173 | a report that does not change `isOnline` changes nothing; going offline sets `wasOffline`, hides the popup and cancels its timer; coming back online shows the popup with one 2 s timer and stops a loading retry and its fallback |
| Connectivity.Wrapper.TapRetry | src/NoInternetConnectionWrapper.jsx:175-202 | a tap while loading changes nothing and does not call `onRetry`; a missing handler or non-promise result loads behind one 6 s fallback; a promise loads with no fallback; a throw stops loading (the retry-clear effect stops it at once while online) |
| Connectivity.Wrapper.RetryPromiseSettled | src/NoInternetConnectionWrapper.jsx:183-201 | a rejection stops loading and cancels the fallback; a resolution leaves loading as it was |
| Connectivity.Wrapper.RetryTimerFires | src/NoInternetConnectionWrapper.jsx:189-192 | the fallback stops loading and clears its handle, nothing else changes |
| Connectivity.Wrapper.PopupTimerFires | src/NoInternetConnectionWrapper.jsx:88-106 | after 2 s both `showOnlinePopup` and `wasOffline` become false |
| Connectivity.Wrapper.Unmount | src/NoInternetConnectionWrapper.jsx:154-162 | unmounting cancels both timers and leaves the flags |
| Connectivity.Wrapper.View | src/NoInternetConnectionWrapper.jsx:265-345 | no contract; `Connectivity.Render` of the current state, specified by the `Render` lemmas and `Connectivity.Wrapper.PopupAndBannerExclusive` |
| Connectivity.Wrapper.PopupAndBannerExclusive | src/NoInternetConnectionWrapper.jsx:280-329 | in every state the event methods keep, the "Back online" popup and the offline banner never show together, and a retry never loads while online |
| AppRoot.AtMostOnePage | App.jsx:112-140 | with pairwise distinct keys at most one `selectedPage === key` conditional mounts a page, exactly one when the key is among them, and it is that key's page |
| AppRoot.PagesFor | App.jsx:112-140 | no contract; the `selectedPage === key && <Page/>` conditionals, specified by `AppRoot.AtMostOnePage` |
| AppRoot.PageKeysDistinct | App.jsx:112-140 | the eleven keys the page conditionals compare against are pairwise distinct |
| AppRoot.RenderedPages | App.jsx:112-140 | at most one page component is mounted for any `selectedPage`, and one exactly when it is a listed key |
| AppRoot.NotificationDetailHasNoPage | App.jsx:74-75 | the "NotificationDetail" page chosen by notification routing mounts no page component |
| AppRoot.AppScreen | App.jsx:35-96 | nothing before the session is ready; the auth screen for a null session; the cloud-error screen while `isCloudDown`; otherwise the main layout holding exactly the page components mounted for `selectedPage`, at most one |
| AppRoot.NotificationRoute | App.jsx:72-78 | "NotificationsScreen" maps to "Notifications"; every other screen name, "NotificationDetail" included, maps to itself |
| AppRoot.AppShell.constructor | App.jsx:43-53 | starts on "dashboard" with the dropdown closed, no cloud error, loading and its 1 s timer armed |
| AppRoot.AppShell.CloudErrorUnreachable | App.jsx:45-88 | in every state the shell's methods keep, `isCloudDown` is false, so the cloud-error screen is never shown |
| AppRoot.AppShell.MenuSelect | App.jsx:59-66 | "logout" records `saveSession(null)` and keeps the page; any other key becomes `selectedPage` |
| AppRoot.AppShell.NotificationNavigation | App.jsx:69-79 | the dropdown always closes and the page becomes the routed name |
| AppRoot.AppShell.Retry | App.jsx:81-83 | `handleRetry` clears `isCloudDown` and nothing else |
| AppRoot.AppShell.ToggleNotifications | App.jsx:108 | the bell negates `notifOpen` |
| AppRoot.AppShell.CloseNotifications | App.jsx:147 | the dropdown's `onClose` sets `notifOpen` false |
| AppRoot.AppShell.PaymentHome | App.jsx:139 | the payment page's `onHome` selects "dashboard" |
| AppRoot.AppShell.LoadingTimerFires | App.jsx:48-53 | after 1 s `loading` becomes false |
| UserContext.ProfileStore.constructor | src/context/UserContext.js:15-16 | mounting starts with `profile = null` and `loading = true`, and the mount effect sends one request exactly when there is a client id |
| UserContext.ProfileStore.LoadProfile | src/context/UserContext.js:18-26 | without a client id nothing changes and nothing is requested; otherwise `loading` becomes true and one request for `get-approved-client?userId=<id>` is outstanding, `profile` untouched |
| UserContext.ProfileStore.SessionChanged | src/context/UserContext.js:39-41 | the load re-runs only when `clientId` changed, and then as `LoadProfile` does |
| UserContext.ProfileStore.LoadFinished | src/context/UserContext.js:28-35 | every completion ends with `loading` false; a parsed body replaces `profile` whatever the HTTP status; a failure keeps the previous profile |
| UserContext.OutOfOrderResponses | src/context/UserContext.js:24-29 | with no stale-response guard, the answer to an older request that arrives last is the profile that stays |
| UserContext.NoClientStaysLoading | src/context/UserContext.js:19 | with no client id nothing is requested and `loading` keeps its initial true |
| Feedback.Shown | src/auth/AuthScreen.jsx:96-144 | `Alert.alert(title, message)` shows both texts; the global `alert(text)` shows "Alert" over its single argument |
| Feedback.GlobalAlertDropsMessage | src/auth/AuthScreen.jsx:128 | a global alert called with a title and a message shows "Alert" over the title only; it differs from the `Alert.alert` call with the same arguments unless title and message are both "Alert" |
| AuthScreen.CaptchaIgnoresCase | src/auth/AuthScreen.jsx:127 | a captcha typed in capitals matches, because both sides are trimmed and upper-cased |
| AuthScreen.CaptchaIgnoresSurroundingSpace | src/auth/AuthScreen.jsx:127 | white space typed around the captcha still matches |
| AuthScreen.CaptchaMatches | src/auth/AuthScreen.jsx:127-138 | no contract; specified by `AuthScreen.CaptchaIgnoresCase`, `CaptchaIgnoresSurroundingSpace` and `Text.TrimUpper` |
| AuthScreen.RequiredFilled | src/auth/AuthScreen.jsx:132-143 | no contract; the three required fields of pages 1 and 2, used by `AuthScreen.AuthCard.HandleSignupNext` |
| AuthScreen.RegistrationPayload | src/auth/AuthScreen.jsx:101-110 | `ClientTypeid` is 1, `FirstName` is the name or "User", `ClientId` is the phone, else the e-mail, else "temp-<now>", so it is never empty; e-mail and mobile default to "" |
| AuthScreen.AuthCard.constructor | src/auth/AuthScreen.jsx:53-73 | the card opens on the login tab at sign-up page 1 with the picker closed, empty captcha texts and the ten empty form fields |
| AuthScreen.AuthCard.BodyAlwaysShown | src/auth/AuthScreen.jsx:151-197 | since the page stays within 1..3, the sign-up switch never reaches its `null` default |
| AuthScreen.RenderBody | src/auth/AuthScreen.jsx:151-197 | no contract; specified by `AuthScreen.AuthCard.BodyAlwaysShown` |
| AuthScreen.AuthCard.OnChange | src/auth/AuthScreen.jsx:75-76 | only the named field of the form changes |
| AuthScreen.AuthCard.OpenPicker | src/auth/AuthScreen.jsx:78-81 | the picker opens for the given field |
| AuthScreen.AuthCard.SelectOption | src/auth/AuthScreen.jsx:83-86 | only `signupForm[pickerType]` is written, and the picker closes |
| AuthScreen.AuthCard.ClosePicker | src/auth/AuthScreen.jsx:306 | closing the picker changes nothing else |
| AuthScreen.AuthCard.SetCaptchaText | src/auth/AuthScreen.jsx:161 | the captcha component's text is stored and nothing else changes |
| AuthScreen.AuthCard.TypeCaptcha | src/auth/AuthScreen.jsx:163-179 | typing changes only the captcha box of its page |
| AuthScreen.AuthCard.HandleSignupNext | src/auth/AuthScreen.jsx:125-148 | pages 1 and 2 advance by one exactly when the trimmed, upper-cased captcha of that page matches and its three required fields are non-empty; otherwise the page stays and the global `alert` is called with "Error" and the failed check; since it shows only its first argument, a wrong captcha and a missing field both show just "Error"; page 3 changes nothing |
| AuthScreen.AuthCard.PrevStep | src/auth/AuthScreen.jsx:123 | one page back, never below 1 |
| AuthScreen.AuthCard.BackToLogin | src/auth/AuthScreen.jsx:165 | step 1's back button switches to the login tab and keeps the page |
| AuthScreen.AuthCard.LoginTab | src/auth/AuthScreen.jsx:250-253 | the Login tab sets the tab to "login" and the page to 1 |
| AuthScreen.AuthCard.SignupTab | src/auth/AuthScreen.jsx:269 | the Sign Up tab changes only the tab |
| AuthScreen.AuthCard.HandleSubmit | src/auth/AuthScreen.jsx:94-120 | differing passwords show the global alert "Passwords do not match" and save nothing; otherwise the registration payload is saved, the global alert shows "Success" (its message argument is not shown) and a navigator, if passed, goes to "Home" |
| MoveIn.ToggleTwice | src/auth/MoveIn.jsx:64-66 | flipping a boolean switch twice restores the form, and a flip touches no other field |
| MoveIn.Field | src/auth/MoveIn.jsx:65 | no contract; `formData[field]`, specified by `MoveIn.ToggleTwice` and `SignupPayload` |
| MoveIn.Toggled | src/auth/MoveIn.jsx:64-66 | no contract; the form after `toggleSwitch`, specified by `MoveIn.ToggleTwice` and `MoveInForm.ToggleSwitch` |
| MoveIn.SignupPayload | src/auth/MoveIn.jsx:94-100 | `ClientTypeid` is 1; `FirstName` is the customer name or "User"; `ClientId` is the mobile number as a string, else "temp-<now>"; e-mail and mobile default to "" |
| MoveIn.DefaultPayloadUsesPrefilledNumber | src/auth/MoveIn.jsx:30 | submitting the untouched form signs up "User" under the pre-filled number "+971 741852963" |
| MoveIn.StepFlags | src/auth/MoveIn.jsx:124-150 | one highlight flag per step of the four-step bar (their meaning is stated by `MoveIn.ProgressMatchesPage`) |
| MoveIn.ConnectorFlags | src/auth/MoveIn.jsx:151-160 | one flag per connector, three in all (their meaning is stated by `MoveIn.ProgressMatchesPage`) |
| MoveIn.CountTrue | src/auth/MoveIn.jsx:124-160 | no contract; the number of lit flags, specified by `MoveIn.ProgressMatchesPage` |
| MoveIn.ProgressMatchesPage | src/auth/MoveIn.jsx:130-156 | step n is highlighted iff n <= `currentPage` and the connector after step n iff n < `currentPage`, so `currentPage` steps and `currentPage - 1` connectors are lit |
| MoveIn.RenderPage | src/auth/MoveIn.jsx:696-708 | pages 2, 3 and 4 render their own forms exactly on those numbers; any other number renders page 1, the owner form iff `customerType` is "Owner" |
| MoveIn.MoveInForm.constructor | src/auth/MoveIn.jsx:21-58 | the form starts on page 1 with the initial field values |
| MoveIn.MoveInForm.InputChange | src/auth/MoveIn.jsx:60-62 | only the named field changes, to the typed text |
| MoveIn.MoveInForm.ToggleSwitch | src/auth/MoveIn.jsx:64-66 | only the named field changes, to the negation of its value |
| MoveIn.MoveInForm.Submit | src/auth/MoveIn.jsx:90-111 | the payload is saved as the session and a success alert is shown |
| MoveIn.MoveInForm.Next | src/auth/MoveIn.jsx:68-74 | below page 4 the page advances by one; on page 4 the form is submitted and the page stays |
| MoveIn.MoveInForm.Back | src/auth/MoveIn.jsx:76-86 | above page 1 the page goes back by one; on page 1 the page stays and the form leaves through `navigation.goBack`, else `onClose`, else not at all |
| MoveIn.MoveInForm.ShownPageMatchesCounter | src/auth/MoveIn.jsx:696-747 | within the kept bounds 1..4 the applicant page shows exactly on page 1, the back button reads "Cancel" exactly there and the next button "Submit" exactly on page 4 |
| MoveIn.BackLabel | src/auth/MoveIn.jsx:741 | no contract; specified by `MoveIn.MoveInForm.ShownPageMatchesCounter` |
| MoveIn.NextLabel | src/auth/MoveIn.jsx:747 | no contract; specified by `MoveIn.MoveInForm.ShownPageMatchesCounter` |
| NotificationDropdown.MarkAllRead | src/notifications/NotificationDropdown.jsx:74 | every notification keeps all its fields except `unread`, which becomes false, in the same order |
| NotificationDropdown.MarkRead | src/notifications/NotificationDropdown.jsx:88-90 | only the notifications with the pressed id are marked read; the others and the order are kept |
| NotificationDropdown.RemoveIdSpec | src/notifications/NotificationDropdown.jsx:78-85 | removal keeps exactly the notifications with another id, leaves a list without that id as it was, and removing twice is removing once |
| NotificationDropdown.RemoveIdKeepsOrder | src/notifications/NotificationDropdown.jsx:96-98 | removal works piece by piece along the list, so the kept notifications stay in order |
| NotificationDropdown.RemoveId | src/notifications/NotificationDropdown.jsx:78-98 | no contract; the `filter(n => n.id !== id)`, specified by `NotificationDropdown.RemoveIdSpec` and `RemoveIdKeepsOrder` |
| NotificationDropdown.UnreadCountPositive | src/notifications/NotificationDropdown.jsx:100-103 | the unread count is positive exactly when some notification is unread |
| NotificationDropdown.UnreadCount | src/notifications/NotificationDropdown.jsx:100-103 | no contract; specified by `NotificationDropdown.UnreadCountPositive`, `MarkAllReadClearsCount` and `MarkReadCount` |
| NotificationDropdown.MarkAllReadClearsCount | src/notifications/NotificationDropdown.jsx:73-76 | after "Mark all as read" the unread count is 0 and the ids keep their order |
| NotificationDropdown.MarkReadClearsId | src/notifications/NotificationDropdown.jsx:87-90 | after a press no notification with that id is unread, and the unread count does not grow |
| NotificationDropdown.MarkReadCount | src/notifications/NotificationDropdown.jsx:100-103 | marking one id read never raises the unread count |
| NotificationDropdown.DropdownItems | src/notifications/NotificationDropdown.jsx:106-109 | the dropdown shows the first min(3, n) notifications, unchanged |
| NotificationDropdown.HasDropdownItems | src/notifications/NotificationDropdown.jsx:111 | no contract; `dropdownNotifications.length > 0`, specified by `NotificationDropdown.DropdownFlags` |
| NotificationDropdown.DropdownFlags | src/notifications/NotificationDropdown.jsx:111-112 | "Mark all as read" shows iff some notification is unread; "View all" is disabled iff the list is empty; there are more iff the slice dropped some, and otherwise the slice is the whole list; the "View all" label names the count exactly when there are more |
| NotificationDropdown.HasMore | src/notifications/NotificationDropdown.jsx:112 | no contract; specified by `NotificationDropdown.DropdownFlags` |
| NotificationDropdown.ShowMarkAllRead | src/notifications/NotificationDropdown.jsx:314 | no contract; specified by `NotificationDropdown.DropdownFlags` |
| NotificationDropdown.ViewAllDisabled | src/notifications/NotificationDropdown.jsx:357 | no contract; specified by `NotificationDropdown.DropdownFlags` |
| NotificationDropdown.ViewAllLabel | src/notifications/NotificationDropdown.jsx:360-362 | no contract; specified by `NotificationDropdown.DropdownFlags`: the label names the count exactly when more than three notifications exist |
| NotificationDropdown.InitialDropdown | src/notifications/NotificationDropdown.jsx:26-51 | the hard-coded list has three unread notifications, all shown, under a "View all notifications" button |
| NotificationDropdown.Dropdown.constructor | src/notifications/NotificationDropdown.jsx:26-52 | the dropdown starts on the hard-coded list with no card being swiped |
| NotificationDropdown.Dropdown.MarkAll | src/notifications/NotificationDropdown.jsx:73-76 | every notification is marked read and `onMarkAllRead` is called when it is a function |
| NotificationDropdown.Dropdown.Accept | src/notifications/NotificationDropdown.jsx:78-81 | the notifications with that id go and `onNavigate("Requests", {id})` is called when passed; `handleAccept` is not referenced by the render, so no user action reaches it |
| NotificationDropdown.Dropdown.Decline | src/notifications/NotificationDropdown.jsx:83-85 | the notifications with that id go and nothing is called; `handleDecline` is not referenced by the render, so no user action reaches it |
| NotificationDropdown.Dropdown.Press | src/notifications/NotificationDropdown.jsx:256 | a press while a card is swiped does nothing; otherwise the id is marked read, then `onNavigate("NotificationDetail", {id})` and `onClose` are called in that order when passed |
| NotificationDropdown.Dropdown.SwipeGranted | src/notifications/NotificationDropdown.jsx:226-228 | the swiped card's id is recorded |
| NotificationDropdown.Dropdown.SwipeReleased | src/notifications/NotificationDropdown.jsx:180-211 | a release past the threshold removes the card's id, a shorter one keeps the list; either way no card is swiped any more |
| NotificationDropdown.Dropdown.SwipeTerminated | src/notifications/NotificationDropdown.jsx:212-225 | a cancelled gesture keeps the list and clears the swiped id |
| NotificationDropdown.Dropdown.ViewAll | src/notifications/NotificationDropdown.jsx:274-279 | with the button enabled `onClose` then `onNavigate("NotificationsScreen")` are called when passed; an empty list disables it |
| NotificationsScreen.BucketsSnoc | src/notifications/NotificationsScreen.jsx:43 | the buckets of a longer list are those of the shorter one with the next notification pushed onto its period's bucket |
| NotificationsScreen.Buckets | src/notifications/NotificationsScreen.jsx:41-45 | no contract; the grouped buckets, specified by `NotificationsScreen.BucketsSnoc`, `GroupByPeriod` and `BucketsPartition` |
| NotificationsScreen.Push | src/notifications/NotificationsScreen.jsx:43 | no contract; `grouped[n.period].push(n)`, specified by `NotificationsScreen.BucketsSnoc` |
| NotificationsScreen.GroupByPeriod | src/notifications/NotificationsScreen.jsx:41-45 | the `forEach` succeeds exactly when every period is "today", "thisWeek" or "older" (another period has no bucket to push onto), and then each bucket holds exactly its period's notifications in input order |
| NotificationsScreen.BucketsPartition | src/notifications/NotificationsScreen.jsx:41-45 | with every period known the three buckets together are as long as the input |
| NotificationsScreen.Cards | src/notifications/NotificationsScreen.jsx:51 | every notification of a bucket becomes one entry tagged `'notification'`, in order |
| NotificationsScreen.BuildSectionData | src/notifications/NotificationsScreen.jsx:47-62 | the three guarded pushes build the Today, This Week and Older sections in that order (the shape of that list is stated by `NotificationsScreen.SectionsOrder`) |
| NotificationsScreen.PushSection | src/notifications/NotificationsScreen.jsx:49-52 | one bucket's step appends its header and its cards when the bucket is not empty, and nothing otherwise |
| NotificationsScreen.Section | src/notifications/NotificationsScreen.jsx:49-60 | no contract; one bucket's header and cards when it is not empty, specified by `NotificationsScreen.SectionItems`, `SectionHeader` and `PushSection` |
| NotificationsScreen.CardItems | src/notifications/NotificationsScreen.jsx:50-59 | no contract; the notifications a section list carries, specified by `NotificationsScreen.CardItemsAppend`, `CardItemsOfCards` and `SectionItems` |
| NotificationsScreen.HeaderCount | src/notifications/NotificationsScreen.jsx:50-59 | no contract; the headers a section list carries, specified by `NotificationsScreen.HeaderCountAppend` and `SectionItems` |
| NotificationsScreen.CardItemsAppend | src/notifications/NotificationsScreen.jsx:47-62 | the notifications carried by joined section lists are those of each part, in order |
| NotificationsScreen.HeaderCountAppend | src/notifications/NotificationsScreen.jsx:47-62 | the headers of joined section lists are counted part by part |
| NotificationsScreen.CardItemsOfCards | src/notifications/NotificationsScreen.jsx:51 | a bucket's cards carry exactly that bucket and no header |
| NotificationsScreen.SectionItems | src/notifications/NotificationsScreen.jsx:49-52 | a section carries its bucket's notifications after exactly one header when the bucket is non-empty, and nothing otherwise |
| NotificationsScreen.SectionHeader | src/notifications/NotificationsScreen.jsx:49-52 | a section holds its own header exactly when its bucket is not empty, and no other header |
| NotificationsScreen.SectionsOrder | src/notifications/NotificationsScreen.jsx:48-60 | the list carries Today's, then This Week's, then Older notifications; there is one header per non-empty bucket, and each header is present iff its bucket is non-empty |
| NotificationsScreen.Sections | src/notifications/NotificationsScreen.jsx:47-60 | no contract; the list `buildSectionData` builds, specified by `NotificationsScreen.SectionsOrder`, `SectionItems` and `SectionHeader`; `NotificationsScreen.BuildSectionData` is proved against it |
| NotificationsScreen.CardsCoverInput | src/notifications/NotificationsScreen.jsx:41-62 | grouping then building yields exactly as many `'notification'` entries as there are notifications |
| NotificationsScreen.BadgeIffUnread | src/notifications/NotificationsScreen.jsx:75 | the badge is drawn exactly when some notification is unread |
| NotificationsScreen.UnreadCount | src/notifications/NotificationsScreen.jsx:75 | no contract; specified by `NotificationsScreen.BadgeIffUnread` |
| NotificationsScreen.BadgeShown | src/notifications/NotificationsScreen.jsx:128 | no contract; specified by `NotificationsScreen.BadgeIffUnread` |
| NotificationsScreen.SampleBadge | src/notifications/NotificationsScreen.jsx:30-38 | the sample list has unread notifications, so its badge is drawn |
| NotificationsScreen.Render | src/notifications/NotificationsScreen.jsx:73-140 | five skeleton cards exactly while loading; otherwise the section rows of the grouped list, with a badge iff some notification is unread, showing the unread count |
| NotificationsScreen.Screen.constructor | src/notifications/NotificationsScreen.jsx:66-71 | the screen mounts loading with its 1 s timer armed |
| NotificationsScreen.Screen.TimerFires | src/notifications/NotificationsScreen.jsx:69 | the timer clears `loading` |
| NotificationsScreen.Screen.Unmount | src/notifications/NotificationsScreen.jsx:70 | unmounting clears the timer and leaves the flag |
| NotificationsScreen.Screen.View | src/notifications/NotificationsScreen.jsx:78-122 | the content shows exactly when not loading |
| BillHistory.MonthsDiffMeaning | src/BillHistory.jsx:64-69 | the month difference is 0 exactly within the same calendar month, negative exactly when `from` is in a later month, and changes sign with its arguments |
| BillHistory.MonthsDiff | src/BillHistory.jsx:64-69 | no contract; specified by `BillHistory.MonthsDiffMeaning` |
| BillHistory.Keeps | src/BillHistory.jsx:138-154 | no contract; the per-bill test of `filteredBills`, specified by `BillHistory.FilteredIsOrderedSelection`, `RangeBoundsListedBills`, `UnreadableDateBill` and `CurrentWithinLastSix` |
| BillHistory.FilteredBills | src/BillHistory.jsx:138-154 | no contract; specified by `BillHistory.FilteredIsOrderedSelection` and `AllKeepsEverything` |
| BillHistory.FilteredIsOrderedSelection | src/BillHistory.jsx:138-154 | `filteredBills` is an order-preserving sub-sequence of the bills, holding exactly those that pass the range and pill tests |
| BillHistory.RangeBoundsListedBills | src/BillHistory.jsx:143-147 | with both dates set, every listed bill with a readable date lies between them, ends included |
| BillHistory.AllKeepsEverything | src/BillHistory.jsx:143-152 | without a full range, a key other than "current" and "last6" lists every bill |
| BillHistory.UnreadableDateBill | src/BillHistory.jsx:141-152 | a bill whose date is unreadable is never kept by "current" or "last6" (its difference is NaN) and is kept by every other key, whatever the range |
| BillHistory.CurrentWithinLastSix | src/BillHistory.jsx:150-151 | narrowing the "last6" list to the current month gives the "current" list, so it is never longer |
| BillHistory.AmountsOf | src/BillHistory.jsx:157 | one `Number(bill.amount \|\| 0)` per bill, in order |
| BillHistory.AmountValue | src/BillHistory.jsx:157 | no contract; `Number(bill.amount \|\| 0)` with NaN as none, specified by `BillHistory.AmountsOf`, `AmountOfDigits` and `TotalAmountDefined` |
| BillHistory.SumAmountsDefined | src/BillHistory.jsx:157 | the reduce from 0 is a number exactly when every amount is, and then it is never negative; the empty sum is 0 |
| BillHistory.SumAmounts | src/BillHistory.jsx:157 | no contract; the `reduce` from 0, specified by `BillHistory.SumAmountsDefined` and `SumAmountsAppend` |
| BillHistory.SumAmountsAppend | src/BillHistory.jsx:157 | the sum over a split list is the sum of the two sums, NaN when either part is |
| BillHistory.TotalAmountDefined | src/BillHistory.jsx:156-159 | `totalAmount` is a number exactly when every listed amount is one; it is then non-negative, and 0 for no bills |
| BillHistory.TotalAmount | src/BillHistory.jsx:156-159 | no contract; specified by `BillHistory.TotalAmountDefined` and `TotalAmountAppend` |
| BillHistory.TotalAmountAppend | src/BillHistory.jsx:156-159 | totals add up over a list split in two |
| BillHistory.AmountOfDigits | src/BillHistory.jsx:157 | an amount written as a decimal numeral converts to that number |
| BillHistory.AmountOfLiteral | src/BillHistory.jsx:28-50 | example on the bundled bills: their amount strings convert to 100, 250 and 180 |
| BillHistory.AmountsOfBillData | src/BillHistory.jsx:19-53 | example on the bundled bills: the three amounts are 100, 250 and 180 |
| BillHistory.SumOfThree | src/BillHistory.jsx:157 | example for the bundled bills: three defined amounts reduce to their sum |
| BillHistory.TotalOfAllBills | src/BillHistory.jsx:19-53 | example on the bundled bills: the three paid bills total 530 |
| BillHistory.FormatDisplayDate | src/BillHistory.jsx:55-62 | an unreadable date is returned as given; a readable one as the two-digit day, "-", the two-digit month counted from 1, "-" and the year |
| BillHistory.BillHistoryScreen.constructor | src/BillHistory.jsx:127-136 | the screen mounts on the skeleton with its timer armed, the "all" pill, no dates and the date card closed |
| BillHistory.BillHistoryScreen.SkeletonTimerFires | src/BillHistory.jsx:134 | after 1.5 s the skeleton gives way, nothing else changes |
| BillHistory.BillHistoryScreen.Unmount | src/BillHistory.jsx:135 | unmounting clears the timer |
| BillHistory.BillHistoryScreen.SelectFilter | src/BillHistory.jsx:254-259 | a filter pill becomes active and clears both dates and the date card |
| BillHistory.BillHistoryScreen.ToggleDateRange | src/BillHistory.jsx:288-291 | the Date Range pill flips the date card and resets the filter to "all" |
| BillHistory.BillHistoryScreen.ClearDates | src/BillHistory.jsx:350-353 | "Clear Dates" empties both dates and nothing else |
| BillHistory.BillHistoryScreen.AtMostOnePillLit | src/BillHistory.jsx:250 | a filter pill is lit only while the date card is closed, and at most one is lit |
| BillHistory.BillHistoryScreen.View | src/BillHistory.jsx:162-402 | three skeleton cards exactly while the skeleton shows; otherwise the filtered bills, the "no bills" notice exactly for an empty list, the date card exactly while open, and "Clear Dates" exactly while it is open with both dates set |
| BillHistory.BillHistoryScreen.RangeNeverApplies | src/BillHistory.jsx:324-342 | since the date boxes only log, the dates stay empty, the list depends on the pill alone, and "all" lists every bill |
| BillDue.DayNumberOrder | src/BillDue.jsx:157-159 | the day numbering used as sort key orders two days exactly as their midnights, and equal numbers mean the same day |
| BillDue.DayNumber | src/BillDue.jsx:157-159 | no contract; specified by `BillDue.DayNumberOrder` |
| BillDue.TimeKey | src/BillDue.jsx:157-159 | no contract; the comparator's `getTime`, specified through `BillDue.SortedDueBillsSpec` (see "Left out") |
| BillDue.InsertAddsOne | src/BillDue.jsx:157-159 | one insertion step of the sort adds exactly the inserted bill |
| BillDue.InsertSpec | src/BillDue.jsx:157-159 | inserting into a key-sorted list adds exactly the new element and leaves the list sorted |
| BillDue.Insert | src/BillDue.jsx:157-159 | no contract; specified by `BillDue.InsertAddsOne` and `InsertSpec` |
| BillDue.SortBySpec | src/BillDue.jsx:157-159 | the comparator sort returns a permutation of its input in non-decreasing key order |
| BillDue.SortBy | src/BillDue.jsx:157-159 | no contract; specified by `BillDue.SortBySpec` |
| BillDue.SortedDueBillsSpec | src/BillDue.jsx:156-160 | `sortedDueBills` holds every due bill as often as the data does, and no bill with a readable date is listed after a later-dated one |
| BillDue.SortedDueBills | src/BillDue.jsx:156-160 | no contract; specified by `BillDue.SortedDueBillsSpec` |
| BillDue.MonthYearLabel | src/BillDue.jsx:51-58 | an unreadable date labels itself; a readable one gives its month's name, a space and its year |
| BillDue.MonthNamesSpaceFree | src/BillDue.jsx:53-56 | no month name contains a space |
| BillDue.FirstSpace | src/BillDue.jsx:58 | in a label the first space comes right after the month name |
| BillDue.SplitLabel | src/BillDue.jsx:58 | two labels built from space-free month names are equal only when their names and their years are |
| BillDue.LabelIdentifiesMonth | src/BillDue.jsx:51-58 | two readable dates share a label exactly when they fall in the same month of the same year |
| BillDue.HeaderAtMonthChange | src/BillDue.jsx:208-215 | the first card always carries a month header; with readable dates a later card carries one exactly when its month or year differs from the card before it |
| BillDue.ShowMonthHeader | src/BillDue.jsx:207-215 | no contract; specified by `BillDue.HeaderAtMonthChange` |
| BillDue.TypeInitial | src/BillDue.jsx:216-217 | the card initial is one character: the upper-cased first letter of the bill type, or "?" for an empty type |
| BillDue.RowsOf | src/BillDue.jsx:207-222 | one card per sorted bill, in order, with its type initial, and the month label as header exactly where a header is shown |
| BillDue.DueScreen.constructor | src/BillDue.jsx:148-154 | the screen mounts on the skeleton with the 1.2 s timer pending, remembering which callbacks were passed |
| BillDue.DueScreen.TimerFires | src/BillDue.jsx:152 | the timer ends the skeleton |
| BillDue.DueScreen.Unmount | src/BillDue.jsx:153 | unmounting clears the timer and leaves the skeleton flag as it was |
| BillDue.DueScreen.View | src/BillDue.jsx:188-223 | three skeleton cards exactly while the skeleton shows; otherwise the cards of the sorted bills, one per due bill, the first with a month header |
| BillDue.DueScreen.PressPay | src/BillDue.jsx:281 | "Pay Now" hands that card's bill to `onPressPay`, and does nothing without one |
| BillDue.DueScreen.PressHistory | src/BillDue.jsx:181 | the history button calls `onPressHistory` when it was passed |
| MyContract.Pick | src/MyContract.jsx:24-32 | the loop returns exactly what the key-by-key lookup specifies: `undefined` for a falsy object, else the value of the first own, non-nullish key |
| MyContract.PickFirstPresent | src/MyContract.jsx:24-32 | `pick` is `undefined` exactly when the object is falsy or none of the keys is present, and otherwise the value of the earliest present key |
| MyContract.PickSpec | src/MyContract.jsx:24-32 | no contract; the reference definition of `pick` that `MyContract.Pick` is proved against, specified by `MyContract.PickFirstPresent` and `PickEarlierWins` |
| MyContract.PickEarlierWins | src/MyContract.jsx:26-30 | for keys `a` then `b`, a value found among `a` wins and `b` is consulted only when `a` finds nothing |
| MyContract.NormalizeContract | src/MyContract.jsx:34-62 | a falsy input gives `{}`; otherwise an object with exactly the six picked fields, each `pick` over its own spellings (the property name with the nested name as its last key), and the input under `__raw` |
| MyContract.NestedNameKey | src/MyContract.jsx:48 | no contract; the last key of the property-name lookup, specified by `MyContract.NormalizeContract`, `NestedNameIsLastResort` and `NestedPropertyPicksRecord` |
| MyContract.EmptyContractFields | src/MyContract.jsx:35 | every field of the normalized form of a falsy contract reads as undefined |
| MyContract.NestedNameIsLastResort | src/MyContract.jsx:41-49 | the property name comes from a flat spelling when one is present, and only otherwise from the key formed from `raw.Property.Name` |
| MyContract.RawContract | src/MyContract.jsx:122 | an array response gives its first element (undefined when empty); any other truthy response itself; a falsy one `null` |
| MyContract.ContractIdText | src/MyContract.jsx:126 | a truthy contract id as its string form, otherwise a dash |
| MyContract.OfficeIdText | src/MyContract.jsx:127 | a truthy office or the number 0 as its string form, anything else a dash |
| MyContract.OfficeZeroIsShown | src/MyContract.jsx:127 | office 0 shows "0"; undefined, null, "" and false show a dash |
| MyContract.ActiveSpellings | src/MyContract.jsx:129 | true, "true", 1 and "1" count as active; 2, "yes", "True" and undefined do not |
| MyContract.IsActive | src/MyContract.jsx:129 | no contract; specified by `MyContract.ActiveSpellings` |
| MyContract.ContractTypeText | src/MyContract.jsx:130 | "RESIDENTIAL" exactly for category 0 or "0", "COMMERCIAL" for anything else |
| MyContract.FormatDate | src/MyContract.jsx:11-21 | a dash for a falsy or unreadable value; otherwise the two-digit day, the month's abbreviation and the year, separated by spaces |
| MyContract.Render | src/MyContract.jsx:121-320 | the skeleton exactly while loading; a render error exactly when, not loading, the property name shown is an object; otherwise the summary card or the details table as `showContractDetails` says, each field read from the normalized first contract |
| MyContract.NestedPropertyPicksRecord | src/MyContract.jsx:41-48 | a contract whose `Property` is a record `{Name: ...}` picks the record itself as its property name |
| MyContract.NestedPropertyRecordThrows | src/MyContract.jsx:254-290 | such a contract fails to render, as the summary and as the details |
| MyContract.FlatPropertyNameShown | src/MyContract.jsx:41-48 | a non-empty flat `PropertyName` is shown as it is in the summary |
| MyContract.PropertyNameValue | src/MyContract.jsx:125 | the picked property name when truthy, otherwise a dash |
| MyContract.PropertyNameText | src/MyContract.jsx:125 | no contract; the property name as its `Text` shows it, specified by `MyContract.Render` and `FlatPropertyNameShown` |
| MyContract.SummaryAgreesWithDetails | src/MyContract.jsx:244-303 | the summary fails to render exactly when the details do; otherwise the summary badge is "Approved" exactly when the details say "Active", both show the same type, and with no contract the details read dash, dash, "COMMERCIAL", "Inactive", dash, dash |
| MyContract.RequestFor | src/MyContract.jsx:75-98 | a request is sent exactly when there is a session with a truthy client or user id; it goes to the owner endpoint exactly for client type 1 and uses the client id, else the user id |
| MyContract.ContractScreen.constructor | src/MyContract.jsx:64-72 | mounting starts loading, with no data and the summary shown, and sends the session's request if it has one |
| MyContract.ContractScreen.SessionChanged | src/MyContract.jsx:75-118 | the same session object changes nothing; a different object, even with equal contents, retires the previous run and sends its own request if it has a usable id, setting `loading` only then |
| MyContract.EqualSessionObjectRefetches | src/MyContract.jsx:118 | a new session object with the same contents sends the request again; the same object sends nothing |
| MyContract.ContractScreen.LoadFinished | src/MyContract.jsx:100-110 | for a run that sent a request, only the current run's answer counts: an ok response stores its data, any answer ends loading; answers of retired runs change nothing |
| MyContract.ContractScreen.Unmount | src/MyContract.jsx:115-117 | unmounting retires the current run and nothing else |
| MyContract.ContractScreen.Sent | src/MyContract.jsx:100-110 | no contract; whether a run of the effect sent a request, the precondition of `MyContract.ContractScreen.LoadFinished` |
| MyContract.ContractScreen.SetShowDetails | src/MyContract.jsx:152-154 | the details button and the back arrow set which view is shown and nothing else |
| MyContract.ContractScreen.View | src/MyContract.jsx:121-320 | no contract; `MyContract.Render` of the current state, specified by its contract |
| MyContract.NoSessionStaysLoading | src/MyContract.jsx:77-80 | without a session or a usable id nothing is requested and the skeleton stays |
| MyContract.StaleResponseDropped | src/MyContract.jsx:104-109 | when both sessions send a request, a late answer for the replaced session does not overwrite the new session's data |
| RenewContract.DigitRun | src/RenewContract.jsx:31 | the length of the leading run of digits: all of it digits, and the character after it, if any, not a digit |
| RenewContract.SpaceRun | src/RenewContract.jsx:31 | the length of the leading run of white space: all of it white space, and the character after it, if any, not white space |
| RenewContract.IsSlashDate | src/RenewContract.jsx:25 | no contract; the MM/DD/YYYY test, specified by `RenewContract.FormatApiDate` and `ReformattedDatesPassTheDateCheck` |
| RenewContract.DigitRunOfDigits | src/RenewContract.jsx:31 | a run of digits followed by a non-digit or nothing is read as exactly that run |
| RenewContract.IsDayMonYear | src/RenewContract.jsx:31 | no contract; the "DD MMM YYYY" test, specified by `RenewContract.DayMonYearAccepts`; its branch gives what the general one gives (`ReadableDatesAreReformatted`) |
| RenewContract.DayMonYearAccepts | src/RenewContract.jsx:31 | a one- or two-digit day, a three-character month and a four-digit year separated by spaces pass the test |
| RenewContract.IsoDateIsNotDayMonYear | src/RenewContract.jsx:31 | an ISO date such as "2025-08-22" does not pass the test |
| RenewContract.DashesToSpaces | src/RenewContract.jsx:47 | every dash becomes a space and every other character, and the length, stay as they were |
| RenewContract.SlashFormat | src/RenewContract.jsx:35-58 | no contract; the `${mm}/${dd}/${yyyy}` template, specified by `RenewContract.ReformattedDatesPassTheDateCheck` |
| RenewContract.FormatApiDate | src/RenewContract.jsx:19-28 | a falsy value other than 0 gives ""; a string already in MM/DD/YYYY shape is returned unchanged |
| RenewContract.ReadableDatesAreReformatted | src/RenewContract.jsx:30-60 | any other value the engine can read comes back as the month/day/year form of that date, the "DD MMM YYYY" branch included |
| RenewContract.UnreadableDatesPassThrough | src/RenewContract.jsx:44-66 | a value unreadable as given and with dashes made spaces comes back as its string form |
| RenewContract.CleanedDatesAreReformatted | src/RenewContract.jsx:44-59 | a value the engine reads only after dashes become spaces and the ends are trimmed comes back as the month/day/year of the cleaned date |
| RenewContract.NatToStringFourDigits | src/RenewContract.jsx:56 | a year from 1000 to 9999 prints as four digits |
| RenewContract.ReformattedDatesPassTheDateCheck | src/RenewContract.jsx:53-58 | a reformatted date with a four-digit year passes the form's MM/DD/YYYY check |
| RenewContract.UserId | src/RenewContract.jsx:74 | no contract; `session?.clientId`, specified by `RenewContract.NoIdsStayOnSkeleton` and `RenewForm.SessionChanged` |
| RenewContract.OfficeId | src/RenewContract.jsx:75 | the session's unit when truthy, else its office id; undefined without a session |
| RenewContract.LoginKey | src/RenewContract.jsx:78 | the key is truthy exactly when the session has a truthy login key |
| RenewContract.OfficeNumberDisplay | src/RenewContract.jsx:77 | a truthy number from the API always wins; the result is truthy exactly when the API number, the session's office number or its office id is |
| RenewContract.SessionIncomplete | src/RenewContract.jsx:100 | no contract; the `!userId \|\| !officeId \|\| !loginKey` guard, specified by `RenewContract.RenewForm.FetchContractData`, `SubmitRenew` and `MissingKeyNotRetried` |
| RenewContract.EffectFetches | src/RenewContract.jsx:143-147 | no contract; the effect's condition, specified by `RenewContract.RenewForm.constructor`, `SessionChanged` and `NoIdsStayOnSkeleton` |
| RenewContract.FetchErrorsByCase | src/RenewContract.jsx:113-136 | a non-ok status shows "Server error (status)", an ok body that is not a non-empty array shows the no-contract message, and the form loads exactly for an ok non-empty array whose first element is neither null nor undefined |
| RenewContract.FetchResultOf | src/RenewContract.jsx:107-136 | no contract; the result handling of the `getFinalBillRequest` call, specified by `RenewContract.FetchErrorsByCase`, `OnlyFirstContractRead` and `SlashDatesLoadedVerbatim` |
| RenewContract.OnlyFirstContractRead | src/RenewContract.jsx:125-130 | two arrays with the same first contract load the same form, whatever else they hold |
| RenewContract.SlashDatesLoadedVerbatim | src/RenewContract.jsx:129-130 | contract dates already in MM/DD/YYYY shape reach the form unchanged |
| RenewContract.FirstFailureSpec | src/RenewContract.jsx:164-192 | no check fails exactly when every check passes; a reported check fails and all checks before it pass |
| RenewContract.FirstFailure | src/RenewContract.jsx:164-192 | no contract; specified by `RenewContract.FirstFailureSpec` |
| RenewContract.ContractIdCheckIsTrim | src/RenewContract.jsx:165 | the contract-id check passes exactly when the trimmed id is non-empty |
| RenewContract.ValidateForm | src/RenewContract.jsx:186-191 | a form is only accepted with a file chosen |
| RenewContract.ValidateReportsFirstFailure | src/RenewContract.jsx:164-192 | the form is accepted exactly when all five checks pass, and otherwise the alert carries the message of the first failing check |
| RenewContract.ValidateUnrolled | src/RenewContract.jsx:164-192 | `validateForm` agrees with the first failure over the checks in their order |
| RenewContract.UnreadableDatesSkipOrderCheck | src/RenewContract.jsx:181 | with a start or end date the engine cannot read, the order check never fires, so a well-shaped form with a file is accepted |
| RenewContract.EndNotAfterStart | src/RenewContract.jsx:181 | no contract; specified by `RenewContract.UnreadableDatesSkipOrderCheck` and `SameDayRefused` |
| RenewContract.SameDayRefused | src/RenewContract.jsx:181-184 | equal readable start and end dates are refused with "End date must be after start date." |
| RenewContract.RenewPayloadOf | src/RenewContract.jsx:206-217 | the form's id and dates are sent as entered; a nameless file is sent as `contract_<now>.pdf` and a typeless one as PDF |
| RenewContract.RoundKilobytes | src/RenewContract.jsx:345 | the size in kilobytes rounded half up: the nearest whole number of 1024-byte units |
| RenewContract.FileLabel | src/RenewContract.jsx:343-346 | "No file chosen" without a file; the file's name, followed by " (n KB)" with n its rounded size when the size is non-zero |
| RenewContract.RenderPage | src/RenewContract.jsx:276-379 | never the skeleton; a render error exactly for an office number that is not renderable; otherwise the error banner exactly for a non-empty error, the office number as `Text` shows it or "N/A" when falsy, "Not found" for an empty id, start date or end date, the file button's caption, the file label and the spinner |
| RenewContract.OfficeNumberShapes | src/RenewContract.jsx:288 | an office number from the API wins whatever the session holds: an object breaks the render, an array `[1, 2]` shows "12", `true` shows nothing, and 0 falls back to "N/A" |
| RenewContract.RenewForm.constructor | src/RenewContract.jsx:71-147 | mounting starts from an empty loading form and, when the session is ready with both ids, runs the fetch: an incomplete session shows its error, a complete one sends the request with its bearer token |
| RenewContract.RenewForm.FetchContractData | src/RenewContract.jsx:96-111 | the error clears and the skeleton shows; an incomplete session ends loading with "Session data incomplete", a complete one sends the final-bill request; the form is untouched |
| RenewContract.RenewForm.FetchFinished | src/RenewContract.jsx:113-138 | every answer ends loading; an error keeps the form and shows its message; a loaded contract fills id, dates and office number and clears the error |
| RenewContract.RenewForm.SessionChanged | src/RenewContract.jsx:143-147 | the fetch reruns only when readiness, the user id or the office id changed and the effect's condition holds; otherwise nothing but the session changes |
| RenewContract.RenewForm.EditContractId | src/RenewContract.jsx:302 | typing sets the contract id unless a submission is running; nothing else changes |
| RenewContract.RenewForm.EditStartDate | src/RenewContract.jsx:314 | typing sets the start date unless a submission is running; nothing else changes |
| RenewContract.RenewForm.EditEndDate | src/RenewContract.jsx:326 | typing sets the end date unless a submission is running; nothing else changes |
| RenewContract.RenewForm.PickFile | src/RenewContract.jsx:150-162 | a picked file replaces the selection, a cancel changes nothing, any other picker failure alerts "Unable to pick file"; the button does nothing while submitting |
| RenewContract.RenewForm.SubmitRenew | src/RenewContract.jsx:194-226 | an invalid form alerts the first failing check and an incomplete session alerts "Please login again", both sending nothing; otherwise the spinner starts, the error clears and the multipart request goes out with both the login key and the bearer header |
| RenewContract.RenewForm.SubmitFinished | src/RenewContract.jsx:228-244 | success alerts the server's message (or the default), whose OK reloads, and clears the file; a non-ok answer or a rejection becomes the error and an "Error" alert; the spinner always stops |
| RenewContract.RenewForm.View | src/RenewContract.jsx:247-357 | the skeleton exactly while the session is not ready or loading; a render error exactly when, loaded, the office number to show is not renderable; otherwise the error banner exactly for a non-empty error, the API office number as `Text` shows it or "N/A" when none is truthy, "Not found" for a missing id, start date or end date, the file button's caption and the file label |
| RenewContract.NoIdsStayOnSkeleton | src/RenewContract.jsx:143-147 | without a user id or an office id nothing is sent and the skeleton stays |
| RenewContract.MissingKeyNotRetried | src/RenewContract.jsx:96-104 | ids present but no login key shows the incomplete-session error, and a key arriving later sends nothing, the key not being a dependency of the effect |
| Profile.FormatDate | src/Profile.jsx:29-37 | "-" for a falsy value; the value itself when the engine cannot read it; otherwise the two-digit day, "/", the two-digit month counted from 1, "/" and the decimal year |
| Profile.OrDash | src/Profile.jsx:339-348 | a profile field with a dash fallback is always truthy and is the field whenever that is truthy |
| Profile.CustomerTypeText | src/Profile.jsx:358-364 | "Owner" exactly for the number 1, "Tenant" exactly for the number 2, "Unknown" for anything else |
| Profile.CustomerTypeIsStrict | src/Profile.jsx:358-369 | the string "1" is an unknown client type, while a unit type given as the number 1 is shown as "1" rather than "Individual"; missing values give "Unknown" and a dash |
| Profile.UnitTypeText | src/Profile.jsx:369 | "Individual" exactly for the string "1", otherwise the unit type with a dash fallback |
| Profile.OfficeIdText | src/Profile.jsx:476 | a falsy office id, 0 included, shows as blank; a truthy one as its string form |
| Profile.GreetingBuildingAlwaysJoined | src/Profile.jsx:536 | the building already has its dash, so the greeting always joins building and unit, and an empty profile greets with "— - —" |
| Profile.GreetingBuilding | src/Profile.jsx:536 | no contract; specified by `Profile.GreetingBuildingAlwaysJoined` |
| Profile.ApplicantRows | src/Profile.jsx:354-380 | twelve rows, starting with the customer type and holding the unit type third; only the mobile number carries the verified tick |
| Profile.PropertyRows | src/Profile.jsx:471-477 | four rows ending with the office id |
| Profile.PlainRow | src/Profile.jsx:366-379 | no contract; a `DetailRow` without a tick, specified by `Profile.ApplicantRows` and `PropertyRows` |
| Profile.DocumentRowOf | src/Profile.jsx:485-492 | a document reads "Uploaded" and is ticked and viewable exactly when its path is truthy, and "Not uploaded" otherwise |
| Profile.DocumentRows | src/Profile.jsx:483-519 | the four documents in order, each viewable exactly when its profile path is truthy |
| Profile.EmptyKyc | src/Profile.jsx:240-248 | all seven KYC values start as "" |
| Profile.KycFromProfile | src/Profile.jsx:306-316 | a loaded profile sets all seven KYC values: the numbers with a dash fallback and the dates through `formatDate` |
| Profile.EjariExpiryAsOtherDates | src/Profile.jsx:312-315 | the extra guard on the Ejari expiry changes nothing: it is formatted like the other dates |
| Profile.Toggled | src/Profile.jsx:256-259 | the tapped section opens exactly when it was not the open one, and everything closes exactly when it was |
| Profile.ToggleTwice | src/Profile.jsx:256-259 | tapping a section twice restores the accordion exactly when nothing or that section was open; from another open section everything ends closed |
| Profile.AtMostOneOpen | src/Profile.jsx:578-583 | at most one section is open; this holds by representation, since the single `activeSection` cell is an `Option`; what a tap does to it is stated by `Profile.Toggled` |
| Profile.LoadAlerts | src/Profile.jsx:295-328 | an abort raises no alert and a non-ok status raises two |
| Profile.LoadError | src/Profile.jsx:302-328 | a finished load keeps the previous error exactly when it was aborted or returned an object body, and otherwise records "Failed to load profile." or "No profile data found." |
| Profile.SectionsBody | src/Profile.jsx:350-589 | the four sections in order under their titles, each open exactly when it is the active one, and the seven KYC rows in order under their captions, showing their values, the row being edited as an input |
| Profile.SectionTitle | src/Profile.jsx:353-482 | no contract; a section's title, specified by `Profile.SectionsBody` and `CaptionsDistinct` |
| Profile.KycLabel | src/Profile.jsx:389-455 | no contract; a KYC row's caption, specified by `Profile.SectionsBody` and `CaptionsDistinct` |
| Profile.CaptionsDistinct | src/Profile.jsx:353-482 | the four section titles are different from each other, and so are the seven KYC captions |
| Profile.ProfileScreen.constructor | src/Profile.jsx:223-285 | mounting opens the applicant section, empties the KYC values and loads; the profile is requested only for a truthy client id |
| Profile.ProfileScreen.ClientChanged | src/Profile.jsx:279-337 | a new truthy client id restarts loading with no error and requests that client's profile; otherwise nothing but the id changes |
| Profile.ProfileScreen.ShowProfile | src/Profile.jsx:303-314 | an object body becomes the profile and the KYC values are recomputed from it; nothing else changes |
| Profile.ProfileScreen.LoadFinished | src/Profile.jsx:286-332 | every finished request ends the skeleton; an object body replaces the profile and resets the KYC values; the alerts and the error follow the outcome, and an abort leaves both alone |
| Profile.ProfileScreen.ToggleSection | src/Profile.jsx:256-259 | a section tap toggles the accordion and changes nothing else |
| Profile.ProfileScreen.EditKycField | src/Profile.jsx:261-263 | the edit icon makes that KYC field the one being edited |
| Profile.ProfileScreen.ChangeKycText | src/Profile.jsx:393-395 | typing replaces the value of the field being edited and no other |
| Profile.ProfileScreen.EditComplete | src/Profile.jsx:397 | submitting or leaving the input ends editing |
| Profile.ProfileScreen.ViewDocument | src/Profile.jsx:265-272 | without a path, the "not uploaded yet" alert and no preview; with one, the preview opens under the document's caption |
| Profile.ProfileScreen.ClosePreview | src/Profile.jsx:601-612 | closing hides the preview |
| Profile.ProfileScreen.EditDocument | src/Profile.jsx:274-277 | the edit icon opens the upload prompt for that document |
| Profile.ProfileScreen.ChooseUploadSource | src/Profile.jsx:633-656 | camera or gallery only alerts the picker that would open for the document, and closes the prompt |
| Profile.ProfileScreen.CancelUpload | src/Profile.jsx:657-660 | cancel closes the upload prompt |
| Profile.ProfileScreen.View | src/Profile.jsx:223-667 | nothing without a client id; otherwise the greeting in its skeleton and the section skeleton exactly while loading, the error banner, the modals exactly while visible, and the sections of the profile once loaded |
| Profile.AbortedLoadEndsSkeletonEarly | src/Profile.jsx:329-336 | after a client change the aborted first request's `finally` ends the skeleton while the second request is still pending and the profile is still empty |
| SidebarMenu.SubKeys | src/SidebarMenu.jsx:14-57 | the keys of a list of sub-items, one per sub-item in order |
| SidebarMenu.EntryKeys | src/SidebarMenu.jsx:14-57 | no contract; every item's key followed by its sub-items' keys, specified by `SidebarMenu.MenuEntryKeys` and `MenuKeysDistinct` |
| SidebarMenu.MenuEntryKeys | src/SidebarMenu.jsx:14-57 | the menu's items and sub-items carry, in order, the twelve keys from "dashboard" to "logout" |
| SidebarMenu.MenuKeysDistinct | src/SidebarMenu.jsx:14-57 | no two of those keys are equal |
| SidebarMenu.AtMostOneEntryActive | src/SidebarMenu.jsx:136-178 | whatever the active key, at most one item or sub-item of the menu is highlighted |
| SidebarMenu.ToggleExpanded | src/SidebarMenu.jsx:103-107 | toggling flips the expansion of that item, where a key never toggled counts as collapsed, and leaves every other item's as it was |
| SidebarMenu.ToggleTwiceRestores | src/SidebarMenu.jsx:103-107 | toggling the same item twice restores the expansion of every item |
| SidebarMenu.Expanded | src/SidebarMenu.jsx:137 | no contract; `expandedItems[key]` read as a flag, specified by `SidebarMenu.ToggleExpanded` and `RowOf` |
| SidebarMenu.HasSubItems | src/SidebarMenu.jsx:138 | no contract; `item.hasDropdown && item.subItems`, specified by `SidebarMenu.RowOf` and `Sidebar.HandleItem` |
| SidebarMenu.Choose | src/SidebarMenu.jsx:124-125 | the chosen key is reported to `onSelect` exactly when it was passed and to `onNavigate` exactly when it was passed, and to nothing else |
| SidebarMenu.RowOf | src/SidebarMenu.jsx:135-218 | a row is highlighted exactly when its key is active and has an arrow exactly when it has sub-items; the sub-items are listed, each highlighted exactly when active, only while the item is expanded |
| SidebarMenu.Sidebar.constructor | src/SidebarMenu.jsx:61-68 | the menu starts hidden, with "dashboard" active, nothing expanded and no timer |
| SidebarMenu.Sidebar.Open | src/SidebarMenu.jsx:70-83 | opening shows the skeleton with exactly one timer pending, replacing any earlier one |
| SidebarMenu.Sidebar.SkeletonTimerFires | src/SidebarMenu.jsx:79-82 | after 500 ms the skeleton gives way to the list and the timer is gone |
| SidebarMenu.Sidebar.Close | src/SidebarMenu.jsx:85-92 | closing hides the menu and its skeleton and cancels the timer |
| SidebarMenu.Sidebar.Unmount | src/SidebarMenu.jsx:94-101 | unmounting cancels a pending timer |
| SidebarMenu.Sidebar.ToggleExpand | src/SidebarMenu.jsx:103-114 | the expansion map is toggled at that key and nothing else changes |
| SidebarMenu.Sidebar.HandleItem | src/SidebarMenu.jsx:116-126 | an item with sub-items only expands or collapses and reports nothing; any other item becomes active, closes the menu and is reported |
| SidebarMenu.Sidebar.HandleSubItem | src/SidebarMenu.jsx:128-133 | a sub-item becomes active, the menu closes and the sub-item's key is reported |
| SidebarMenu.Sidebar.View | src/SidebarMenu.jsx:221-264 | nothing while hidden, the skeleton list while the skeleton shows, and otherwise one row per menu item |
| SidebarMenu.ChooseRenewContract | src/SidebarMenu.jsx:116-133 | expanding "Contract" and choosing "Renew Contract" reports "renew-contract" to both callbacks, highlights it, closes the menu and leaves the group expanded |
| GreetingCard.EffectiveLoading | src/GreetingCard.jsx:13 | a boolean `loading` prop decides; any other prop defers to the user context's flag |
| GreetingCard.BooleanPropWins | src/GreetingCard.jsx:13 | `false` hides the skeleton even against a loading context, `true` shows it, and a non-boolean such as 0 defers to the context |
| GreetingCard.CustomerName | src/GreetingCard.jsx:15-18 | the name prop when truthy, else the profile's first name when truthy, else "Guest"; the result is always truthy |
| GreetingCard.BuildingLabel | src/GreetingCard.jsx:20-29 | the building prop when truthy; else "building - unit" when the profile has both, the building alone when it has no unit, and a dash without a building |
| GreetingCard.UnitNeedsBuilding | src/GreetingCard.jsx:25-29 | a profile unit without a building is never shown: the label is a dash |
| GreetingCard.Render | src/GreetingCard.jsx:31-65 | the skeleton exactly while the effective loading flag is truthy; otherwise a render error exactly when the name or the building label is an object, and else the name and, after a space, the building label |
| GreetingCard.StringProfileRenders | src/GreetingCard.jsx:15-65 | once loaded, a profile whose name, building and unit are strings always shows the greeting |
| GreetingCard.GuestGreeting | src/GreetingCard.jsx:10-65 | with no props, the user context's default value (a null profile, still loading) shows the skeleton; a null profile that is no longer loading greets "Guest" with a dash for the building |
| UserCard.Words | src/User.jsx:42-44 | the words of the name: non-empty and free of spaces |
| UserCard.Initials | src/User.jsx:42-48 | at most two characters, as many as the name has words up to two, each the upper-cased first character of the matching word |
| UserCard.WordsAround | src/User.jsx:42-44 | the words of two texts joined by a space are the words of the first followed by those of the second |
| UserCard.OneWord | src/User.jsx:42-48 | a single word is its only word and gives its upper-cased first character |
| UserCard.NoWordsInEmpty | src/User.jsx:42-44 | the empty name has no words |
| UserCard.LeadingWordsIgnoreSpace | src/User.jsx:42-44 | a leading space adds no word |
| UserCard.DoubledWordsIgnoreSpace | src/User.jsx:42-44 | a doubled space between words adds no word |
| UserCard.LeadingSpaceIgnored | src/User.jsx:42-48 | a leading space does not change the initials |
| UserCard.DoubledSpaceIgnored | src/User.jsx:42-48 | a doubled space between words does not change the initials |
| UserCard.GuestInitial | src/User.jsx:24-48 | the fallback name "Guest" gives the initial "G" |
| UserCard.Render | src/User.jsx:10-84 | a name that is not a string breaks the card, since the initials are computed first; otherwise the skeleton exactly while loading; when not loading, an initials prop or building label that is an object breaks it too; else the initials (a truthy prop wins), the name and the building label |
| Text.TrimStart | src/auth/AuthScreen.jsx:127 | the left trim is a suffix of the input |
| Text.TrimStartCuts | src/auth/AuthScreen.jsx:127 | the left trim removes only white space, and all of it: what remains is empty or starts with a non-white-space character |
| Text.TrimEnd | src/auth/AuthScreen.jsx:127 | the right trim is a prefix of the input |
| Text.TrimEndCuts | src/auth/AuthScreen.jsx:127 | the right trim removes only white space, and all of it: what remains is empty or ends with a non-white-space character |
| Text.TrimIsTrimmed | src/RenewContract.jsx:165 | `trim` keeps a contiguous piece of its input, removes only white space on both sides, and leaves no white space at either end |
| Text.TrimStartIdle | src/auth/AuthScreen.jsx:127 | a string that does not start with white space is its own left trim |
| Text.TrimIdempotent | src/auth/AuthScreen.jsx:127 | trimming twice is trimming once |
| Text.TrimBlank | src/RenewContract.jsx:165 | a string of white space only trims to "" |
| Text.Upper | src/User.jsx:47 | upper-casing keeps the length and maps each character on its own |
| Text.UpperCharKeepsWhitespace | src/auth/AuthScreen.jsx:127 | upper-casing turns white space into white space and nothing else into it |
| Text.TrimStartUpper | src/auth/AuthScreen.jsx:127 | left-trimming and upper-casing commute |
| Text.TrimEndUpper | src/auth/AuthScreen.jsx:127 | right-trimming and upper-casing commute |
| Text.TrimUpper | src/auth/AuthScreen.jsx:127 | trimming and upper-casing commute, so the captcha comparison does not depend on their order |
| Text.UpperIdempotent | src/auth/AuthScreen.jsx:127 | upper-casing twice is upper-casing once |
| Text.TrimEmptyIffBlank | src/RenewContract.jsx:165 | a string trims to "" exactly when it is all white space |
| Text.TrimStartBlankPrefix | src/auth/AuthScreen.jsx:127 | white space put in front does not change the left trim |
| Text.TrimEndBlankSuffix | src/auth/AuthScreen.jsx:127 | white space put behind does not change the right trim |
| Text.TrimStartAppend | src/auth/AuthScreen.jsx:127 | the left trim of a text followed by anything is the text's left trim followed by it, when the text is not all white space |
| Text.TrimPadded | src/auth/AuthScreen.jsx:127 | white space typed around a text does not change what it trims to |
| Text.OrElse | src/RenewContract.jsx:215-216 | `a \|\| b` on strings: `a` unless it is empty, then `b` |
| Text.NatToString | src/BillDue.jsx:58 | the decimal form of a number: at least one digit, all digits, ending in the last decimal digit of the number, and one digit long exactly below 10 |
| Text.NatToStringInjective | src/BillDue.jsx:58 | different numbers print differently |
| Text.Split | src/User.jsx:43 | `split` on one character gives at least one piece |
| Text.SplitPiecesLackSep | src/User.jsx:43 | no piece of a split contains the separator |
| Text.SplitCons | src/User.jsx:43 | a leading separator opens a new empty piece; any other leading character joins the first piece of the rest |
| Text.SplitJoin | src/User.jsx:43 | joining the pieces with the separator gives the input back |
| Text.SplitAround | src/User.jsx:43 | splitting at a separator gives the pieces on its left followed by those on its right |
| Text.SplitWithoutSep | src/User.jsx:43 | a string without the separator splits into itself alone |
| Text.DigitsValueOfNatToString | src/BillHistory.jsx:157 | reading back the decimal form of a number gives the number |
| Text.JsNumber | src/BillHistory.jsx:157 | `Number` of a blank string is 0, and of a string of digits is the number they denote |
| Text.JsNumberOfNatToString | src/BillHistory.jsx:157 | `Number(String(n))` is `n` |
| Seqs.Filter | src/User.jsx:44 | `filter` never lengthens the list |
| Seqs.FilterMembers | src/User.jsx:44 | an element is in the filtered list exactly when it is in the list and passes the test |
| Seqs.FilterAppend | src/User.jsx:44 | filtering works piece by piece: filtering two joined lists joins their filtered lists |
| Seqs.FilterKeepsAll | src/BillHistory.jsx:138-154 | a test every element passes keeps the list as it is |
| Seqs.FilterDropsAll | src/notifications/NotificationDropdown.jsx:100-103 | a test no element passes leaves nothing |
| Seqs.FilterIdempotent | src/notifications/NotificationDropdown.jsx:78-85 | filtering again by the same test changes nothing |
| Seqs.FilterIsSubsequence | src/BillHistory.jsx:138-154 | a filter only leaves elements out and keeps the rest in their order |
| Seqs.FilterNarrow | src/BillHistory.jsx:150-151 | filtering by a stricter test after a weaker one is filtering by the stricter one |
| Dates.Pad2 | src/MyContract.jsx:15 | `padStart(2, "0")` of a number gives at least two digits, exactly two below 100 |
| JsValues.IndexKey | src/MyContract.jsx:27 | a key names an own index of an array exactly when it is the decimal form of an index below the length |
| JsValues.ArrayTextHasNoSeparator | src/MyContract.jsx:256 | an array in a `Text` shows its elements' texts one after the other, with no commas unlike `String(...)`, and nothing for null and booleans |
| Seqs.Map | src/BillHistory.jsx:157 | `map` gives one result per element, the callback's value for it, in order |
| Seqs.MapAppend | src/BillHistory.jsx:157 | mapping two joined lists joins their mapped lists |
| Seqs.MapThree | src/BillHistory.jsx:157 | example for the bundled bills: mapping a three-element list gives the three callback values in order |

## Left out

- **Session store.** `src/context/SessionContext` is not part of this model. Persistence,
  rehydration and what logout does to storage are not modelled; the session is an input and
  `saveSession` calls are logged.
- **Network I/O.** `fetch`, the URL and JSON helpers, `Linking`, `DocumentPicker` and the
  button callbacks of `Alert` are not modelled. A request is logged, and its result is a
  method parameter.
- **JavaScript `Date`.** The parsing rules of `new Date` are a `DateParser` parameter.
  Calendar rollover, time zones and `toLocaleDateString` are not modelled.
- `BillDue.TimeKey`: an unreadable date makes the comparator NaN, which leaves the order to
  the engine. The model sorts such a bill as if it were dated on day 0, and
  `BillDue.SortedDueBillsSpec` states the order only between readable dates.
- **Animations and gestures.** `Animated`, `LayoutAnimation`, opacity values and the swipe
  distance arithmetic of the `PanResponder` are not modelled. A swipe is modelled only by its
  grant, release and termination events.
- **Timers.** Timers are expiry events; real time is not modelled.
- **Connectivity and captcha sources.** The NetInfo subscription becomes a connectivity-change
  event, starting online. Captcha generation is random and drawn as SVG, so the captcha text
  is an input.
- **Layout.** Styles, icons, skeleton shapes and other presentation-only files are not
  modelled. A view is modelled as the data it shows.
- **React rules.** Hooks called after an early return (`App.jsx`, `src/Profile.jsx`) are
  modelled as the intended control flow, not as what React would do with them.
- `Profile.ProfileScreen.ClientChanged`: requires that the client id does not switch between
  truthy and falsy, because the screen's hooks sit after an early return on a missing id.
- **Ignored prop.** The `initialNotifications` prop of the dropdown is ignored, as in the code.
  The hard-coded list is the initial state.
- **Console-only buttons.** The "View bill" button of the due-bills screen and the copy
  callback of the user card only log to the console. They are not modelled.
- `Text.Upper`: upper-cases the ASCII letters only. `toUpperCase` on other scripts, and its
  length-changing cases, are not modelled.
- `UserCard.Initials`: is stated with that ASCII upper-casing.
- `Text.JsNumber`: covers blank strings and runs of decimal digits, the only amounts in the
  data. Signs, decimals, exponents and hexadecimal forms are modelled as NaN.
- `BillDue.SortBySpec`: states a permutation in non-decreasing order. That the sort is stable
  is not stated.
- **Stale responses.** There is no staleness check when the renewal form loads a contract, and
  the model adds none. The contract screen drops stale answers by a generation number, which
  stands for its `isMounted` flag.
- `JsValues.TextOf`: an object placed in a `Text` makes the render throw. The contract
  screen, the renewal form's office number, the greeting card and the user card model that
  throw as a render error. The
  profile screen's rows do not: an object-valued profile field shows as "" there.
- `Profile.ApplicantRows`, `Profile.PropertyRows` and `Profile.SectionsBody`: do not model
  the throw of an object-valued field, for the reason above.
- `JsValues.JVal`: JSON numbers are integers. Fractions, NaN from the API and floating
  point rounding are not modelled.
- `JsValues.JVal`: strings are sequences of Unicode characters, not UTF-16 code units. For
  characters outside the Basic Multilingual Plane, `part[0]`, `charAt(0)` and `length` differ
  from the model.
- `AppRoot.AppScreen`: `App.jsx:30` spells its last import `frm`, which does not parse. The
  model reads it as `from`.
- `RenewContract.RenewForm`: the debug effect at `src/RenewContract.jsx:83-85` lists
  `contractId`, `startDate` and `endDate` before their `const` declarations at lines 86-88.
  Under native block scoping that read throws on every render. The model assumes the
  render goes on.
- `AuthScreen.AuthCard.HandleSignupNext` and `AuthScreen.AuthCard.HandleSubmit`: only the
  first argument of the global `alert` calls is recorded, since it is the only one shown. The
  message naming the failed check, and the registration message, are dropped.
- `AuthScreen.AuthCard.HandleSubmit`: the `catch` branch (`src/auth/AuthScreen.jsx:116-119`)
  is not modelled, because `saveSession` is an input and the model's payload cannot throw.
