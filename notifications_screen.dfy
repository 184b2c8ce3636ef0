/** The full notifications screen: the sample notifications grouped into the
    Today, This Week and Older sections, the flat list of section headers and
    cards it renders, and the unread badge. */
module NotificationsScreen {
  import opened Optional
  import opened Seqs

  datatype Item = Item(
    id: string,
    title: string,
    text: string,
    time: string,
    iconKey: string,
    unread: bool,
    period: string)

  const SAMPLE_NOTIFICATIONS: seq<Item> := [
    Item("1", "Electricity Usage Update", "Your electricity usage has increased this month.", "2 hours ago", "electricity", true, "today"),
    Item("2", "Water Usage Update", "Your water consumption is within normal range this month.", "4 hours ago", "water", true, "today"),
    Item("3", "Gas Supply Status", "Scheduled maintenance may affect your gas supply.", "2 days ago", "gas", true, "thisWeek"),
    Item("4", "Contract Approved", "Your residential contract has been approved.", "2 days ago", "contact", false, "thisWeek"),
    Item("5", "New Document Uploaded", "A new payment receipt has been uploaded.", "3 days ago", "contract", false, "thisWeek"),
    Item("6", "Contract Expiring Soon", "Your tenancy contract expires in 45 days.", "1 week ago", "expired", false, "older"),
    Item("7", "Payment Successful", "Your recent bill payment was received.", "2 weeks ago", "credit-card", false, "older")
  ]

  /** The three buckets of `groupByPeriod`. */
  datatype Grouped = Grouped(today: seq<Item>, thisWeek: seq<Item>, older: seq<Item>)

  predicate IsToday(n: Item) { n.period == "today" }
  predicate IsThisWeek(n: Item) { n.period == "thisWeek" }
  predicate IsOlder(n: Item) { n.period == "older" }
  predicate IsUnread(n: Item) { n.unread }

  predicate KnownPeriod(n: Item) {
    IsToday(n) || IsThisWeek(n) || IsOlder(n)
  }

  /** Each bucket holds the notifications of its period, in input order. */
  function Buckets(ns: seq<Item>): Grouped {
    Grouped(Filter(ns, IsToday), Filter(ns, IsThisWeek), Filter(ns, IsOlder))
  }

  /** Pushing one more notification onto the buckets. */
  function Push(g: Grouped, n: Item): Grouped {
    if IsToday(n) then g.(today := g.today + [n])
    else if IsThisWeek(n) then g.(thisWeek := g.thisWeek + [n])
    else if IsOlder(n) then g.(older := g.older + [n])
    else g
  }

  lemma FilterOne(n: Item, p: Item -> bool)
    ensures Filter([n], p) == if p(n) then [n] else []
  {
    assert [n][1..] == [];
  }

  /** The buckets of a longer list are those of the shorter one with the next
      notification pushed onto its own period's bucket. */
  lemma BucketsSnoc(xs: seq<Item>, n: Item)
    ensures Buckets(xs + [n]) == Push(Buckets(xs), n)
  {
    FilterAppend(xs, [n], IsToday);
    FilterAppend(xs, [n], IsThisWeek);
    FilterAppend(xs, [n], IsOlder);
    FilterOne(n, IsToday);
    FilterOne(n, IsThisWeek);
    FilterOne(n, IsOlder);
  }

  /** `groupByPeriod`: the forEach that pushes each notification onto the bucket
      its `period` names. A period without a bucket makes the push throw, which
      is the `None` result. */
  method GroupByPeriod(ns: seq<Item>) returns (r: Option<Grouped>)
    ensures r.Some? <==> forall i :: 0 <= i < |ns| ==> KnownPeriod(ns[i])
    ensures r.Some? ==> r.value == Buckets(ns)
  {
    var today: seq<Item> := [];
    var thisWeek: seq<Item> := [];
    var older: seq<Item> := [];
    var i := 0;
    while i < |ns|
      invariant 0 <= i <= |ns|
      invariant forall j :: 0 <= j < i ==> KnownPeriod(ns[j])
      invariant Grouped(today, thisWeek, older) == Buckets(ns[..i])
    {
      var n := ns[i];
      assert ns[..i + 1] == ns[..i] + [n];
      BucketsSnoc(ns[..i], n);
      ghost var pushed := Push(Grouped(today, thisWeek, older), n);
      if IsToday(n) {
        today := today + [n];
      } else if IsThisWeek(n) {
        thisWeek := thisWeek + [n];
      } else if IsOlder(n) {
        older := older + [n];
      } else {
        return None;
      }
      assert Grouped(today, thisWeek, older) == pushed;
      i := i + 1;
    }
    assert ns[..i] == ns;
    r := Some(Grouped(today, thisWeek, older));
  }

  /** With every period known, the buckets together hold every notification once. */
  lemma {:induction false} BucketsPartition(ns: seq<Item>)
    requires forall i :: 0 <= i < |ns| ==> KnownPeriod(ns[i])
    ensures |Buckets(ns).today| + |Buckets(ns).thisWeek| + |Buckets(ns).older| == |ns|
  {
    if ns != [] {
      BucketsPartition(ns[1..]);
    }
  }

  /** An entry of the section list: a header, or a notification tagged `'notification'`. */
  datatype Entry =
    | Header(title: string, key: string)
    | Card(item: Item)

  /** `bucket.map(n => ({ ...n, type: "notification" }))` */
  function Cards(items: seq<Item>): (r: seq<Entry>)
    ensures |r| == |items|
    ensures forall i :: 0 <= i < |items| ==> r[i] == Card(items[i])
  {
    if items == [] then [] else [Card(items[0])] + Cards(items[1..])
  }

  /** One section: its header followed by its cards, or nothing for an empty bucket. */
  function Section(title: string, key: string, items: seq<Item>): seq<Entry> {
    if |items| > 0 then [Header(title, key)] + Cards(items) else []
  }

  function Sections(g: Grouped): seq<Entry> {
    Section("Today", "today-header", g.today)
    + Section("This Week", "week-header", g.thisWeek)
    + Section("Older", "older-header", g.older)
  }

  /** `buildSectionData` */
  method BuildSectionData(g: Grouped) returns (sections: seq<Entry>)
    ensures sections == Sections(g)
  {
    sections := [];
    sections := PushSection(sections, "Today", "today-header", g.today);
    assert sections == Section("Today", "today-header", g.today);
    sections := PushSection(sections, "This Week", "week-header", g.thisWeek);
    sections := PushSection(sections, "Older", "older-header", g.older);
  }

  /** One bucket's step of `buildSectionData`: when the bucket is not empty,
      push its header and then its cards. */
  method PushSection(sections: seq<Entry>, title: string, key: string, items: seq<Item>) returns (r: seq<Entry>)
    ensures r == sections + Section(title, key, items)
  {
    r := sections;
    if |items| > 0 {
      r := r + [Header(title, key)];
      r := r + Cards(items);
      assert r == sections + ([Header(title, key)] + Cards(items));
    } else {
      assert r == sections + [];
    }
  }

  /** The notifications carried by a section list, in list order. */
  function CardItems(es: seq<Entry>): seq<Item> {
    if es == [] then [] else (if es[0].Card? then [es[0].item] else []) + CardItems(es[1..])
  }

  function HeaderCount(es: seq<Entry>): nat {
    if es == [] then 0 else (if es[0].Header? then 1 else 0) + HeaderCount(es[1..])
  }

  lemma {:induction false} CardItemsAppend(a: seq<Entry>, b: seq<Entry>)
    ensures CardItems(a + b) == CardItems(a) + CardItems(b)
  {
    if a == [] {
      assert a + b == b;
    } else {
      assert (a + b)[0] == a[0];
      assert (a + b)[1..] == a[1..] + b;
      CardItemsAppend(a[1..], b);
    }
  }

  lemma {:induction false} HeaderCountAppend(a: seq<Entry>, b: seq<Entry>)
    ensures HeaderCount(a + b) == HeaderCount(a) + HeaderCount(b)
  {
    if a == [] {
      assert a + b == b;
    } else {
      assert (a + b)[0] == a[0];
      assert (a + b)[1..] == a[1..] + b;
      HeaderCountAppend(a[1..], b);
    }
  }

  lemma {:induction false} CardItemsOfCards(items: seq<Item>)
    ensures CardItems(Cards(items)) == items
    ensures HeaderCount(Cards(items)) == 0
  {
    if items != [] {
      assert Cards(items)[1..] == Cards(items[1..]);
      CardItemsOfCards(items[1..]);
    }
  }

  lemma SectionItems(title: string, key: string, items: seq<Item>)
    ensures CardItems(Section(title, key, items)) == items
    ensures HeaderCount(Section(title, key, items)) == (if |items| > 0 then 1 else 0)
  {
    CardItemsOfCards(items);
    if |items| > 0 {
      CardItemsAppend([Header(title, key)], Cards(items));
      HeaderCountAppend([Header(title, key)], Cards(items));
    }
  }

  /** The list shows the Today, then the This Week, then the Older notifications,
      each in input order, with one header per non-empty bucket. */
  lemma SectionsOrder(g: Grouped)
    ensures CardItems(Sections(g)) == g.today + g.thisWeek + g.older
    ensures HeaderCount(Sections(g)) ==
      (if |g.today| > 0 then 1 else 0) + (if |g.thisWeek| > 0 then 1 else 0) + (if |g.older| > 0 then 1 else 0)
    ensures Header("Today", "today-header") in Sections(g) <==> |g.today| > 0
    ensures Header("This Week", "week-header") in Sections(g) <==> |g.thisWeek| > 0
    ensures Header("Older", "older-header") in Sections(g) <==> |g.older| > 0
  {
    var a := Section("Today", "today-header", g.today);
    var b := Section("This Week", "week-header", g.thisWeek);
    var c := Section("Older", "older-header", g.older);
    SectionItems("Today", "today-header", g.today);
    SectionItems("This Week", "week-header", g.thisWeek);
    SectionItems("Older", "older-header", g.older);
    CardItemsAppend(a, b);
    CardItemsAppend(a + b, c);
    HeaderCountAppend(a, b);
    HeaderCountAppend(a + b, c);
    SectionHeader("Today", "today-header", g.today);
    SectionHeader("This Week", "week-header", g.thisWeek);
    SectionHeader("Older", "older-header", g.older);
  }

  /** A section holds its own header, when it is not empty, and no other one. */
  lemma SectionHeader(title: string, key: string, items: seq<Item>)
    ensures Header(title, key) in Section(title, key, items) <==> |items| > 0
    ensures forall t, k :: Header(t, k) in Section(title, key, items) ==> t == title && k == key
  {
    if |items| > 0 {
      assert Section(title, key, items)[0] == Header(title, key);
    }
  }

  /** Grouping and then building the sections shows every notification exactly
      as many times as it occurs in the input: as many cards as notifications. */
  lemma CardsCoverInput(ns: seq<Item>)
    requires forall i :: 0 <= i < |ns| ==> KnownPeriod(ns[i])
    ensures |CardItems(Sections(Buckets(ns)))| == |ns|
  {
    SectionsOrder(Buckets(ns));
    BucketsPartition(ns);
  }

  /** `sampleNotifications.filter(n => n.unread).length` */
  function UnreadCount(ns: seq<Item>): nat {
    Count(ns, IsUnread)
  }

  /** The badge is drawn exactly when the unread count is non-zero. */
  predicate BadgeShown(ns: seq<Item>) {
    UnreadCount(ns) != 0
  }

  /** The badge is drawn exactly when some notification is unread, and then the
      count is positive. */
  lemma BadgeIffUnread(ns: seq<Item>)
    ensures BadgeShown(ns) <==> exists i :: 0 <= i < |ns| && ns[i].unread
  {
    var r := Filter(ns, IsUnread);
    FilterMembers(ns, IsUnread);
    if BadgeShown(ns) {
      assert r[0] in r;
      var i :| 0 <= i < |ns| && ns[i] == r[0];
      assert ns[i].unread;
    }
    if exists i :: 0 <= i < |ns| && ns[i].unread {
      var i :| 0 <= i < |ns| && ns[i].unread;
      assert ns[i] in r;
    }
  }

  /** The sample list opens with unread notifications, so its badge is drawn. */
  lemma SampleBadge()
    ensures BadgeShown(SAMPLE_NOTIFICATIONS)
  {
    BadgeIffUnread(SAMPLE_NOTIFICATIONS);
    assert SAMPLE_NOTIFICATIONS[0].unread;
  }

  /** What the screen draws: five placeholder cards while loading, then the
      header with the unread badge (when the count is non-zero) and the rows. */
  datatype View =
    | Skeleton(placeholderCards: nat)
    | Content(badge: Option<nat>, rows: seq<Entry>)

  const SKELETON_CARDS := 5
  const LOADING_MS := 1000

  function Render(loading: bool, ns: seq<Item>): (v: View)
    requires forall i :: 0 <= i < |ns| ==> KnownPeriod(ns[i])
    ensures loading <==> v == Skeleton(SKELETON_CARDS)
    ensures !loading ==> v.Content? && v.rows == Sections(Buckets(ns))
    ensures !loading ==> (v.badge.Some? <==> exists i :: 0 <= i < |ns| && ns[i].unread)
    ensures !loading && v.badge.Some? ==> v.badge.value == UnreadCount(ns) && UnreadCount(ns) > 0
  {
    BadgeIffUnread(ns);
    if loading then Skeleton(SKELETON_CARDS)
    else Content(if BadgeShown(ns) then Some(UnreadCount(ns)) else None, Sections(Buckets(ns)))
  }

  /** The screen's local `loading` flag and the one-second timer that clears it. */
  class Screen {
    var loading: bool
    var timerArmed: bool

    ghost predicate Valid()
      reads this
    {
      timerArmed == loading
    }

    /** Mounting: loading, with the timer armed. */
    constructor ()
      ensures Valid() && loading && timerArmed
    {
      loading := true;
      timerArmed := true;
    }

    /** The timer fires once and the content replaces the skeleton. */
    method TimerFires()
      requires Valid() && timerArmed
      modifies this
      ensures Valid() && !loading && !timerArmed
    {
      loading := false;
      timerArmed := false;
    }

    /** Unmounting clears the timer; the flag is left as it was. */
    method Unmount()
      modifies this
      ensures !timerArmed && loading == old(loading)
    {
      timerArmed := false;
    }

    function View(): (v: View)
      reads this
      ensures v.Content? <==> !loading
    {
      Render(loading, SAMPLE_NOTIFICATIONS)
    }
  }
}
