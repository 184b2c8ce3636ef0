/** The connectivity wrapper that surrounds every signed-in page: the offline
    banner with its "Try again" button, the short "Back online" popup, the
    wrapper's own header and footer, and where the popups sit on screen.

    The React state cells and refs of the wrapper are the fields of `Wrapper`.
    Each method is one event (a connectivity report, a tap, a timer or a promise
    settling) followed by the effects whose dependencies that event changed, so
    every method leaves the wrapper in the state of the next settled render. */
module Connectivity {
  import opened Optional
  import opened JsValues

  const HEADER_HEIGHT := 80
  const FOOTER_HEIGHT := 86
  const INNER_HEADER_ESTIMATE := 56
  /** How long the "Back online" popup stays before it slides away. */
  const ONLINE_POPUP_MS := 2000
  /** How long "Checking..." stays when the retry handler does not return a promise. */
  const RETRY_FALLBACK_MS := 6000

  // ---------------------------------------------------------------------------
  // The element tree handed to the wrapper as `children`
  // ---------------------------------------------------------------------------

  /** The `type` of a React element. The wrapper's own `Header` and `Footer`
      imports are compared by identity; other components carry an optional
      `displayName` and their function name; host components are tag strings;
      a fragment's type is a symbol. */
  datatype ElementType =
    | HeaderComponent
    | FooterComponent
    | Component(displayName: JVal, name: string)
    | HostTag(tag: string)
    | FragmentSymbol

  /** One entry among the children: a falsy entry (`null`, `false`, `""`, `0`),
      a truthy string or number, a nested array (which `React.Children.forEach`
      flattens), or an element with the children of its props. */
  datatype Node =
    | Empty
    | TextNode(text: string)
    | Group(items: seq<Node>)
    | Element(elementType: ElementType, children: seq<Node>)

  predicate IsHeaderOrFooter(t: ElementType) {
    t.HeaderComponent? || t.FooterComponent?
  }

  /** Only the empty tag string is a falsy element type. */
  predicate TypeTruthy(t: ElementType) {
    !(t.HostTag? && t.tag == "")
  }

  /** `(type.displayName || type.name) || (typeof type === "string" ? type : null)` */
  function TypeName(t: ElementType): JVal {
    match t
    case HeaderComponent => Str("Header")
    case FooterComponent => Str("Footer")
    case Component(d, n) => Or(Or(d, Str(n)), Null)
    case HostTag(tag) => Or(Str(tag), Null)
    case FragmentSymbol => Null
  }

  predicate NamedHeaderOrFooter(t: ElementType) {
    TypeName(t) == Str("Header") || TypeName(t) == Str("Footer")
  }

  /** A Header or Footer element, found by identity or by name, at this entry or
      anywhere below it. */
  predicate HasChrome(n: Node)
    decreases n
  {
    match n
    case Empty => false
    case TextNode(_) => false
    case Group(items) => AnyChrome(items)
    case Element(t, kids) =>
      TypeTruthy(t) && (IsHeaderOrFooter(t) || NamedHeaderOrFooter(t) || AnyChrome(kids))
  }

  predicate AnyChrome(ns: seq<Node>)
    decreases ns
  {
    exists i :: 0 <= i < |ns| && HasChrome(ns[i])
  }

  /** `hasInnerHeaderOrFooter`: the forEach over the children with a `found` flag
      that short-cuts the remaining entries, recursing into `props.children`. */
  method HasInnerHeaderOrFooter(nodes: seq<Node>) returns (found: bool)
    ensures found <==> AnyChrome(nodes)
    decreases nodes
  {
    found := false;
    var i := 0;
    while i < |nodes|
      invariant 0 <= i <= |nodes|
      invariant found <==> exists j :: 0 <= j < i && HasChrome(nodes[j])
    {
      var child := nodes[i];
      if !found {
        match child {
          case Empty =>
          case TextNode(_) =>
          case Group(items) =>
            found := HasInnerHeaderOrFooter(items);
          case Element(t, kids) =>
            if TypeTruthy(t) {
              if IsHeaderOrFooter(t) {
                found := true;
              } else if NamedHeaderOrFooter(t) {
                found := true;
              } else if |kids| > 0 {
                var inner := HasInnerHeaderOrFooter(kids);
                if inner {
                  found := true;
                }
              }
            }
        }
      }
      i := i + 1;
    }
  }

  /** Detection sees a Header or Footer however deeply it is nested in elements. */
  lemma ChromeFoundThroughElements(t: ElementType, before: seq<Node>, kids: seq<Node>, after: seq<Node>)
    requires TypeTruthy(t)
    requires AnyChrome(kids)
    ensures AnyChrome(before + [Element(t, kids)] + after)
  {
    var ns := before + [Element(t, kids)] + after;
    assert ns[|before|] == Element(t, kids);
  }

  /** Detection over concatenated children is detection over either part. */
  lemma {:induction false} AnyChromeAppend(a: seq<Node>, b: seq<Node>)
    ensures AnyChrome(a + b) <==> AnyChrome(a) || AnyChrome(b)
  {
    if AnyChrome(a + b) {
      var i :| 0 <= i < |a + b| && HasChrome((a + b)[i]);
      if i < |a| {
        assert (a + b)[i] == a[i];
      } else {
        assert (a + b)[i] == b[i - |a|];
      }
    }
    if AnyChrome(a) {
      var i :| 0 <= i < |a| && HasChrome(a[i]);
      assert (a + b)[i] == a[i];
    }
    if AnyChrome(b) {
      var i :| 0 <= i < |b| && HasChrome(b[i]);
      assert (a + b)[|a| + i] == b[i];
    }
  }

  // ---------------------------------------------------------------------------
  // What the wrapper renders
  // ---------------------------------------------------------------------------

  datatype WrapperProps = WrapperProps(
    children: seq<Node>,
    suppressInnerHeaderFooter: JVal,
    headerOffset: JVal)

  /** `Platform.OS === "android"` and `StatusBar.currentHeight`. */
  datatype Platform = Platform(android: bool, currentHeight: Option<int>)

  function StatusBarHeight(p: Platform): (h: int)
    ensures !p.android ==> h == 20
    ensures p.android && (p.currentHeight == None || p.currentHeight == Some(0)) ==> h == 24
    ensures p.android && p.currentHeight.Some? && p.currentHeight.value != 0 ==> h == p.currentHeight.value
  {
    if !p.android then 20
    else if p.currentHeight.Some? && p.currentHeight.value != 0 then p.currentHeight.value
    else 24
  }

  /** `renderWrapperHeaderFooter` */
  predicate RendersChrome(props: WrapperProps) {
    !Truthy(props.suppressInnerHeaderFooter) && !AnyChrome(props.children)
  }

  /** `resolvedHeaderOffset`, stated by the priority it implements: an explicit
      numeric offset, else the wrapper header, else the estimated inner header,
      else nothing. */
  function ResolvedHeaderOffset(props: WrapperProps): (offset: int)
    ensures props.headerOffset.Num? ==> offset == props.headerOffset.n
    ensures !props.headerOffset.Num? && RendersChrome(props) ==> offset == HEADER_HEIGHT
    ensures !props.headerOffset.Num? && AnyChrome(props.children) ==> offset == INNER_HEADER_ESTIMATE
    ensures !props.headerOffset.Num? && Truthy(props.suppressInnerHeaderFooter) && !AnyChrome(props.children) ==> offset == 0
  {
    if props.headerOffset.Num? then props.headerOffset.n
    else if RendersChrome(props) then HEADER_HEIGHT
    else if AnyChrome(props.children) then INNER_HEADER_ESTIMATE
    else 0
  }

  function PopupTop(props: WrapperProps, p: Platform): int {
    StatusBarHeight(p) + ResolvedHeaderOffset(props) + 8
  }

  /** The wrapper's header or footer container: touch handling (`pointerEvents`) and opacity in hundredths. */
  datatype ChromeView = ChromeView(pointerEvents: string, opacityPercent: nat)

  datatype RetryButtonView = RetryButtonView(caption: string, disabled: bool, spinner: bool)

  datatype WrapperView = WrapperView(
    header: Option<ChromeView>,
    offlineBanner: Option<RetryButtonView>,
    onlinePopup: bool,
    popupTop: int,
    marginTop: nat,
    marginBottom: nat,
    children: seq<Node>,
    footer: Option<ChromeView>)

  function ChromeFor(isOnline: bool): ChromeView {
    if isOnline then ChromeView("auto", 100) else ChromeView("none", 98)
  }

  function Render(isOnline: bool, retryLoading: bool, showOnlinePopup: bool, props: WrapperProps, p: Platform): WrapperView {
    var chrome := RendersChrome(props);
    WrapperView(
      if chrome then Some(ChromeFor(isOnline)) else None,
      if !isOnline then Some(RetryButtonView(if retryLoading then "Checking..." else "Try again", retryLoading, retryLoading)) else None,
      showOnlinePopup,
      PopupTop(props, p),
      if chrome then HEADER_HEIGHT else 0,
      if chrome then FOOTER_HEIGHT else 0,
      props.children,
      if chrome then Some(ChromeFor(isOnline)) else None)
  }

  /** The children are shown whatever the connectivity and retry state. */
  lemma ChildrenAlwaysRendered(isOnline: bool, retryLoading: bool, showOnlinePopup: bool, props: WrapperProps, p: Platform)
    ensures Render(isOnline, retryLoading, showOnlinePopup, props, p).children == props.children
  {
  }

  /** The wrapper draws its own header and footer, and reserves 80/86 px for them,
      exactly when it is not told to suppress them and no Header or Footer appears
      anywhere in the children tree. */
  lemma ChromeIffNoInnerChrome(isOnline: bool, retryLoading: bool, showOnlinePopup: bool, props: WrapperProps, p: Platform)
    ensures var v := Render(isOnline, retryLoading, showOnlinePopup, props, p);
      (v.header.Some? <==> !Truthy(props.suppressInnerHeaderFooter) && !AnyChrome(props.children)) &&
      v.footer.Some? == v.header.Some? &&
      (v.header.Some? ==> v.marginTop == 80 && v.marginBottom == 86) &&
      (v.header.None? ==> v.marginTop == 0 && v.marginBottom == 0)
  {
  }

  /** Header and footer take touches exactly while online, and are dimmed otherwise. */
  lemma ChromeInteractiveIffOnline(isOnline: bool, retryLoading: bool, showOnlinePopup: bool, props: WrapperProps, p: Platform)
    ensures var v := Render(isOnline, retryLoading, showOnlinePopup, props, p);
      v.header.Some? ==>
        (v.header.value.pointerEvents == "auto" <==> isOnline) &&
        (v.header.value.opacityPercent == 100 <==> isOnline) &&
        v.footer == v.header
  {
  }

  /** The offline banner shows exactly while offline; its button reads
      "Checking..." and ignores taps exactly while a retry is loading. */
  lemma BannerIffOffline(isOnline: bool, retryLoading: bool, showOnlinePopup: bool, props: WrapperProps, p: Platform)
    ensures var v := Render(isOnline, retryLoading, showOnlinePopup, props, p);
      (v.offlineBanner.Some? <==> !isOnline) &&
      (v.offlineBanner.Some? ==>
        (v.offlineBanner.value.disabled <==> retryLoading) &&
        (v.offlineBanner.value.caption == "Checking..." <==> retryLoading))
  {
  }

  /** The "Back online" popup and the offline banner are placed 8 px below the
      status bar and the reserved header band: below the wrapper's own header
      when it draws one, below the estimated inner header when the children
      bring their own, and right under the status bar when nothing is reserved. */
  lemma PopupBelowHeader(isOnline: bool, retryLoading: bool, showOnlinePopup: bool, props: WrapperProps, p: Platform)
    ensures var v := Render(isOnline, retryLoading, showOnlinePopup, props, p);
      (!props.headerOffset.Num? && v.header.Some? ==> v.popupTop == StatusBarHeight(p) + v.marginTop + 8) &&
      (!props.headerOffset.Num? && AnyChrome(props.children) ==>
        v.header.None? && v.popupTop == StatusBarHeight(p) + INNER_HEADER_ESTIMATE + 8) &&
      (!props.headerOffset.Num? && v.header.None? && !AnyChrome(props.children) ==> v.popupTop == StatusBarHeight(p) + 8) &&
      (props.headerOffset.Num? ==> v.popupTop == StatusBarHeight(p) + props.headerOffset.n + 8)
  {
  }

  // ---------------------------------------------------------------------------
  // The wrapper's state machine
  // ---------------------------------------------------------------------------

  /** What the `onRetry` prop does when the button is tapped. */
  datatype RetryHandler =
    | NoHandler
    | Returns(thenable: bool)
    | Throws

  class Wrapper {
    /** The value of `useNetworkStatus()`. */
    var isOnline: bool
    var wasOffline: bool
    var showOnlinePopup: bool
    var retryLoading: bool
    /** `retryTimeoutRef.current !== null`: the 6 s fallback is pending. */
    var retryTimerArmed: bool
    /** The 2 s timer of the "Back online" popup is pending. */
    var popupTimerArmed: bool
    /** Promises returned by `onRetry` that are still being awaited. */
    var pendingRetries: nat
    var mounted: bool

    /** The relations every settled render keeps between the state cells. */
    ghost predicate Valid()
      reads this
    {
      (retryTimerArmed ==> retryLoading) &&
      !(isOnline && retryLoading) &&
      (!isOnline ==> wasOffline && !showOnlinePopup) &&
      (isOnline ==> showOnlinePopup == wasOffline) &&
      (popupTimerArmed ==> mounted && showOnlinePopup) &&
      (mounted && showOnlinePopup ==> popupTimerArmed) &&
      (!mounted ==> !retryTimerArmed)
    }

    /** The first render: online, no popup, nothing loading. */
    constructor ()
      ensures Valid()
      ensures isOnline && !wasOffline && !showOnlinePopup && !retryLoading
      ensures !retryTimerArmed && !popupTimerArmed && pendingRetries == 0 && mounted
    {
      isOnline := true;
      wasOffline := false;
      showOnlinePopup := false;
      retryLoading := false;
      retryTimerArmed := false;
      popupTimerArmed := false;
      pendingRetries := 0;
      mounted := true;
    }

    /** A connectivity report with `state.isConnected`, followed by the popup
        effect and the retry-clear effect. */
    method NetworkChanged(isConnected: JVal)
      requires mounted && Valid()
      modifies this
      ensures Valid()
      ensures isOnline == Truthy(isConnected)
      ensures pendingRetries == old(pendingRetries) && mounted
      ensures old(isOnline) == isOnline ==> unchanged(this)
      // back online: the popup shows, its timer is armed, and a pending retry stops
      ensures !old(isOnline) && isOnline ==>
        wasOffline && showOnlinePopup && popupTimerArmed && !retryLoading && !retryTimerArmed
      // gone offline: any popup and its timer go, the retry state is left alone
      ensures old(isOnline) && !isOnline ==>
        wasOffline && !showOnlinePopup && !popupTimerArmed &&
        retryLoading == old(retryLoading) && retryTimerArmed == old(retryTimerArmed)
    {
      var online := Truthy(isConnected);
      if online == isOnline {
        return;
      }
      isOnline := online;
      // popup effect: the previous run's cleanup cancels its timer
      popupTimerArmed := false;
      if isOnline && wasOffline {
        showOnlinePopup := true;
        popupTimerArmed := true;
      } else if !isOnline {
        wasOffline := true;
        showOnlinePopup := false;
      }
      // retry-clear effect
      if isOnline && retryLoading {
        retryLoading := false;
        retryTimerArmed := false;
      }
    }

    /** `handleRetry`, then the retry-clear effect. Returns whether `onRetry` was called. */
    method TapRetry(handler: RetryHandler) returns (called: bool)
      requires mounted && Valid()
      modifies this
      ensures Valid()
      ensures called <==> !old(retryLoading) && !handler.NoHandler?
      // a tap while loading is ignored
      ensures old(retryLoading) ==> unchanged(this)
      ensures isOnline == old(isOnline) && wasOffline == old(wasOffline)
      ensures showOnlinePopup == old(showOnlinePopup) && popupTimerArmed == old(popupTimerArmed)
      ensures mounted
      // no promise to wait for: keep loading behind one 6 s fallback (while offline)
      ensures !old(retryLoading) && (handler.NoHandler? || handler == Returns(false)) ==>
        retryLoading == !isOnline && retryTimerArmed == !isOnline && pendingRetries == old(pendingRetries)
      // a promise: keep loading until it settles, with no fallback
      ensures !old(retryLoading) && handler == Returns(true) ==>
        retryLoading == !isOnline && !retryTimerArmed && pendingRetries == old(pendingRetries) + 1
      // a throw: loading stops at once
      ensures !old(retryLoading) && handler.Throws? ==>
        !retryLoading && !retryTimerArmed && pendingRetries == old(pendingRetries)
    {
      called := false;
      if retryLoading {
        return;
      }
      retryLoading := true;
      match handler {
        case NoHandler =>
          retryTimerArmed := true;
        case Returns(thenable) =>
          called := true;
          if thenable {
            pendingRetries := pendingRetries + 1;
          } else {
            retryTimerArmed := true;
          }
        case Throws =>
          called := true;
          retryLoading := false;
          retryTimerArmed := false;
      }
      // retry-clear effect
      if isOnline && retryLoading {
        retryLoading := false;
        retryTimerArmed := false;
      }
    }

    /** An awaited `onRetry` promise settles. A rejection stops loading and
        cancels any fallback; a resolution changes nothing. After unmounting the
        state updates are dropped. */
    method RetryPromiseSettled(rejected: bool)
      requires Valid() && pendingRetries > 0
      modifies this
      ensures Valid()
      ensures pendingRetries == old(pendingRetries) - 1
      ensures isOnline == old(isOnline) && wasOffline == old(wasOffline) && mounted == old(mounted)
      ensures showOnlinePopup == old(showOnlinePopup) && popupTimerArmed == old(popupTimerArmed)
      ensures rejected && mounted ==> !retryLoading && !retryTimerArmed
      ensures !(rejected && mounted) ==>
        retryLoading == old(retryLoading) && retryTimerArmed == old(retryTimerArmed)
    {
      pendingRetries := pendingRetries - 1;
      if rejected && mounted {
        retryLoading := false;
        retryTimerArmed := false;
      }
    }

    /** The 6 s fallback fires: loading stops and the handle is cleared. */
    method RetryTimerFires()
      requires Valid() && retryTimerArmed
      modifies this
      ensures Valid()
      ensures !retryLoading && !retryTimerArmed
      ensures isOnline == old(isOnline) && wasOffline == old(wasOffline) && mounted == old(mounted)
      ensures showOnlinePopup == old(showOnlinePopup) && popupTimerArmed == old(popupTimerArmed)
      ensures pendingRetries == old(pendingRetries)
    {
      retryLoading := false;
      retryTimerArmed := false;
    }

    /** The 2 s popup timer fires and the slide-out finishes: the popup and the
        memory of having been offline both clear. The popup effect re-runs for the
        changed `wasOffline` and does nothing. */
    method PopupTimerFires()
      requires Valid() && popupTimerArmed
      modifies this
      ensures Valid()
      ensures !showOnlinePopup && !wasOffline && !popupTimerArmed
      ensures isOnline == old(isOnline) && mounted == old(mounted)
      ensures retryLoading == old(retryLoading) && retryTimerArmed == old(retryTimerArmed)
      ensures pendingRetries == old(pendingRetries)
    {
      showOnlinePopup := false;
      wasOffline := false;
      popupTimerArmed := false;
    }

    /** Unmounting runs the cleanups: both timers are cancelled. */
    method Unmount()
      requires Valid() && mounted
      modifies this
      ensures Valid()
      ensures !mounted && !retryTimerArmed && !popupTimerArmed
      ensures isOnline == old(isOnline) && wasOffline == old(wasOffline)
      ensures showOnlinePopup == old(showOnlinePopup) && retryLoading == old(retryLoading)
      ensures pendingRetries == old(pendingRetries)
    {
      mounted := false;
      retryTimerArmed := false;
      popupTimerArmed := false;
    }

    /** What the current state renders. */
    function View(props: WrapperProps, p: Platform): WrapperView
      reads this
    {
      Render(isOnline, retryLoading, showOnlinePopup, props, p)
    }

    /** In any settled state the "Back online" popup and the offline banner are
        never on screen together, and the retry button is never stuck on
        "Checking..." while online. */
    lemma PopupAndBannerExclusive(props: WrapperProps, p: Platform)
      requires Valid()
      ensures !(View(props, p).onlinePopup && View(props, p).offlineBanner.Some?)
      ensures View(props, p).offlineBanner.None? ==> !retryLoading
    {
    }
  }
}
