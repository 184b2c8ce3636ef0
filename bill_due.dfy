/** The bill-dues screen: the due bills sorted by date, grouped under month
    headers, each card with the initial of its utility type. */
module BillDue {
  import opened Optional
  import opened Text
  import opened JsValues
  import opened Dates

  datatype DueBill = DueBill(
    id: string,
    billNo: string,
    billDate: string,
    billDuration: string,
    building: string,
    unitNo: string,
    customerName: string,
    amount: string,
    billType: string)

  const DUE_BILLS: seq<DueBill> := [
    DueBill("76", "76", "2025-12-08", "2025-12-01 - 2025-12-08", "Dubai", "2006", "Test", "2,500.00", "Electricity"),
    DueBill("77", "77", "2025-11-25", "2025-11-01 - 2025-11-25", "LIV Marina", "3402", "Rob Oconnor", "1,850.00", "Gas"),
    DueBill("78", "78", "2025-10-18", "2025-10-01 - 2025-10-18", "Dubai Marina", "1205", "Demo User", "3,200.00", "Water")
  ]

  const SKELETON_MS := 1200

  const MONTH_NAMES: seq<string> := [
    "January", "February", "March", "April", "May", "June",
    "July", "August", "September", "October", "November", "December"
  ]

  // ---------------------------------------------------------------------------
  // Sorting by date
  // ---------------------------------------------------------------------------

  /** A day as a number that orders days as their midnights do. */
  function DayNumber(d: DayDate): int {
    d.year * 372 + d.month * 31 + d.day
  }

  /** The numbering preserves and reflects the order of days. */
  lemma DayNumberOrder(a: DayDate, b: DayDate)
    ensures Before(a, b) <==> DayNumber(a) < DayNumber(b)
    ensures DayNumber(a) == DayNumber(b) <==> a == b
  {
    if a.year < b.year {
      assert a.year * 372 + 372 <= b.year * 372;
    } else if b.year < a.year {
      assert b.year * 372 + 372 <= a.year * 372;
    }
  }

  /** The sort key of the comparator `getTime(a) - getTime(b)`. An Invalid
      Date makes the comparator NaN, which leaves the order to the engine; here
      such a bill sorts as if dated on day 0. */
  function TimeKey(bill: DueBill, parse: DateParser): int {
    var d := parse(Str(bill.billDate));
    if d.Some? then DayNumber(d.value) else 0
  }

  predicate SortedBy<T>(s: seq<T>, key: T -> int) {
    forall i, j :: 0 <= i < j < |s| ==> key(s[i]) <= key(s[j])
  }

  /** Places `x` before the first element with a key not below its own. */
  function Insert<T>(x: T, ys: seq<T>, key: T -> int): seq<T> {
    if ys == [] || key(x) <= key(ys[0]) then [x] + ys else [ys[0]] + Insert(x, ys[1..], key)
  }

  /** Inserting adds exactly `x`. */
  lemma {:induction false} InsertAddsOne<T>(x: T, ys: seq<T>, key: T -> int)
    ensures multiset(Insert(x, ys, key)) == multiset(ys) + multiset{x}
  {
    if ys != [] && key(x) > key(ys[0]) {
      InsertAddsOne(x, ys[1..], key);
      assert ys == [ys[0]] + ys[1..];
    }
  }

  /** Inserting into a sorted list adds exactly `x` and keeps the list sorted. */
  lemma {:induction false} InsertSpec<T>(x: T, ys: seq<T>, key: T -> int)
    requires SortedBy(ys, key)
    ensures multiset(Insert(x, ys, key)) == multiset(ys) + multiset{x}
    ensures SortedBy(Insert(x, ys, key), key)
  {
    InsertAddsOne(x, ys, key);
    if ys == [] || key(x) <= key(ys[0]) {
      assert forall i :: 0 <= i < |ys| ==> key(ys[0]) <= key(ys[i]);
    } else {
      var rest := Insert(x, ys[1..], key);
      InsertSpec(x, ys[1..], key);
      forall i | 0 <= i < |rest|
        ensures key(ys[0]) <= key(rest[i])
      {
        assert rest[i] in multiset(rest);
        assert rest[i] == x || rest[i] in multiset(ys[1..]);
        if rest[i] != x {
          assert rest[i] in ys[1..];
        }
      }
    }
  }

  /** An insertion sort, standing for `Array.prototype.sort` with a key comparator. */
  function SortBy<T>(s: seq<T>, key: T -> int): seq<T> {
    if s == [] then [] else Insert(s[0], SortBy(s[1..], key), key)
  }

  /** The sort rearranges its input into key order. */
  lemma {:induction false} SortBySpec<T>(s: seq<T>, key: T -> int)
    ensures multiset(SortBy(s, key)) == multiset(s)
    ensures SortedBy(SortBy(s, key), key)
  {
    if s != [] {
      SortBySpec(s[1..], key);
      InsertSpec(s[0], SortBy(s[1..], key), key);
      assert s == [s[0]] + s[1..];
    }
  }

  /** `sortedDueBills`: the due bills in date order. */
  function SortedDueBills(bills: seq<DueBill>, parse: DateParser): seq<DueBill> {
    SortBy(bills, (b: DueBill) => TimeKey(b, parse))
  }

  /** The sorted list holds the same bills, each as often as before, and with
      readable dates no bill is listed after a later-dated one. */
  lemma SortedDueBillsSpec(bills: seq<DueBill>, parse: DateParser)
    ensures multiset(SortedDueBills(bills, parse)) == multiset(bills)
    ensures |SortedDueBills(bills, parse)| == |bills|
    ensures forall i, j ::
      (0 <= i < j < |SortedDueBills(bills, parse)| &&
       parse(Str(SortedDueBills(bills, parse)[i].billDate)).Some? &&
       parse(Str(SortedDueBills(bills, parse)[j].billDate)).Some?) ==>
        !Before(parse(Str(SortedDueBills(bills, parse)[j].billDate)).value,
                parse(Str(SortedDueBills(bills, parse)[i].billDate)).value)
  {
    var r := SortedDueBills(bills, parse);
    SortBySpec(bills, (b: DueBill) => TimeKey(b, parse));
    assert |multiset(r)| == |multiset(bills)|;
    forall i, j | 0 <= i < j < |r| && parse(Str(r[i].billDate)).Some? && parse(Str(r[j].billDate)).Some?
      ensures !Before(parse(Str(r[j].billDate)).value, parse(Str(r[i].billDate)).value)
    {
      DayNumberOrder(parse(Str(r[j].billDate)).value, parse(Str(r[i].billDate)).value);
    }
  }

  // ---------------------------------------------------------------------------
  // Month headers and type initials
  // ---------------------------------------------------------------------------

  /** `getMonthYearLabel`: "Month yyyy", or the input itself for an unreadable date. */
  function MonthYearLabel(dateStr: string, parse: DateParser): (r: string)
    ensures parse(Str(dateStr)).None? ==> r == dateStr
    ensures parse(Str(dateStr)).Some? ==>
      r == MONTH_NAMES[parse(Str(dateStr)).value.month] + " " + NatToString(parse(Str(dateStr)).value.year)
  {
    var d := parse(Str(dateStr));
    if d.None? then dateStr else MONTH_NAMES[d.value.month] + " " + NatToString(d.value.year)
  }

  predicate SpaceFree(s: string) {
    forall i :: 0 <= i < |s| ==> s[i] != ' '
  }

  lemma MonthNamesSpaceFree(m: int)
    requires 0 <= m < 12
    ensures SpaceFree(MONTH_NAMES[m])
  {
  }

  /** In "a b" with `a` free of spaces, the first space follows `a`. */
  lemma FirstSpace(a: string, b: string)
    requires SpaceFree(a)
    ensures (a + " " + b)[|a|] == ' '
    ensures forall i :: 0 <= i < |a| ==> (a + " " + b)[i] != ' '
  {
  }

  /** "a yyyy" determines a word without spaces and a number. */
  lemma SplitLabel(n1: string, y1: nat, n2: string, y2: nat)
    requires SpaceFree(n1) && SpaceFree(n2)
    requires n1 + " " + NatToString(y1) == n2 + " " + NatToString(y2)
    ensures n1 == n2 && y1 == y2
  {
    var l := n1 + " " + NatToString(y1);
    FirstSpace(n1, NatToString(y1));
    FirstSpace(n2, NatToString(y2));
    assert |n1| == |n2|;
    assert n1 == l[..|n1|] == n2;
    assert NatToString(y1) == l[|n1| + 1..] == NatToString(y2);
    NatToStringInjective(y1, y2);
  }

  /** Two readable dates get the same label exactly when they fall in the same
      month of the same year. */
  lemma LabelIdentifiesMonth(s1: string, s2: string, parse: DateParser)
    requires parse(Str(s1)).Some? && parse(Str(s2)).Some?
    ensures MonthYearLabel(s1, parse) == MonthYearLabel(s2, parse) <==>
      parse(Str(s1)).value.year == parse(Str(s2)).value.year &&
      parse(Str(s1)).value.month == parse(Str(s2)).value.month
  {
    var d1, d2 := parse(Str(s1)).value, parse(Str(s2)).value;
    if MonthYearLabel(s1, parse) == MonthYearLabel(s2, parse) {
      MonthNamesSpaceFree(d1.month);
      MonthNamesSpaceFree(d2.month);
      SplitLabel(MONTH_NAMES[d1.month], d1.year, MONTH_NAMES[d2.month], d2.year);
      assert d1.month == d2.month;
    }
  }

  /** `showMonthHeader` for the bill at `index`. */
  predicate ShowMonthHeader(bills: seq<DueBill>, index: nat, parse: DateParser)
    requires index < |bills|
  {
    index == 0 ||
    MonthYearLabel(bills[index].billDate, parse) != MonthYearLabel(bills[index - 1].billDate, parse)
  }

  /** The first bill always opens a month; with readable dates any later bill
      opens one exactly when its month differs from the bill before it. */
  lemma HeaderAtMonthChange(bills: seq<DueBill>, index: nat, parse: DateParser)
    requires index < |bills|
    ensures index == 0 ==> ShowMonthHeader(bills, index, parse)
    ensures index > 0 && parse(Str(bills[index].billDate)).Some? && parse(Str(bills[index - 1].billDate)).Some? ==>
      (ShowMonthHeader(bills, index, parse) <==>
        parse(Str(bills[index].billDate)).value.year != parse(Str(bills[index - 1].billDate)).value.year ||
        parse(Str(bills[index].billDate)).value.month != parse(Str(bills[index - 1].billDate)).value.month)
  {
    if index > 0 && parse(Str(bills[index].billDate)).Some? && parse(Str(bills[index - 1].billDate)).Some? {
      LabelIdentifiesMonth(bills[index].billDate, bills[index - 1].billDate, parse);
    }
  }

  /** `bill.type?.charAt(0)?.toUpperCase() || "?"` */
  function TypeInitial(billType: string): (r: string)
    ensures |r| == 1
    ensures billType == "" ==> r == "?"
    ensures billType != "" ==> r == [UpperChar(billType[0])]
  {
    if billType == "" then "?" else [UpperChar(billType[0])]
  }

  // ---------------------------------------------------------------------------
  // The screen
  // ---------------------------------------------------------------------------

  /** One card of the list: its month header, if any, its initial and its bill. */
  datatype Row = Row(monthHeader: Option<string>, initial: string, bill: DueBill)

  datatype View =
    | Skeleton(placeholderCards: nat)
    | Rows(rows: seq<Row>)

  function RowsOf(sorted: seq<DueBill>, parse: DateParser): (rows: seq<Row>)
    ensures |rows| == |sorted|
    ensures forall i :: 0 <= i < |sorted| ==>
      rows[i].bill == sorted[i] && rows[i].initial == TypeInitial(sorted[i].billType) &&
      (rows[i].monthHeader.Some? <==> ShowMonthHeader(sorted, i, parse)) &&
      (rows[i].monthHeader.Some? ==> rows[i].monthHeader.value == MonthYearLabel(sorted[i].billDate, parse))
  {
    seq(|sorted|, i requires 0 <= i < |sorted| =>
      Row(if ShowMonthHeader(sorted, i, parse) then Some(MonthYearLabel(sorted[i].billDate, parse)) else None,
          TypeInitial(sorted[i].billType), sorted[i]))
  }

  /** What "Pay Now" on a card does: hands that bill to `onPressPay`, if given. */
  datatype Effect = PayBill(bill: DueBill) | OpenHistory | NoEffect

  class DueScreen {
    var showSkeleton: bool
    var timerArmed: bool
    const hasOnPressPay: bool
    const hasOnPressHistory: bool

    ghost predicate Valid()
      reads this
    {
      timerArmed ==> showSkeleton
    }

    constructor (onPressPay: bool, onPressHistory: bool)
      ensures Valid() && showSkeleton && timerArmed
      ensures hasOnPressPay == onPressPay && hasOnPressHistory == onPressHistory
    {
      showSkeleton := true;
      timerArmed := true;
      hasOnPressPay := onPressPay;
      hasOnPressHistory := onPressHistory;
    }

    method TimerFires()
      requires Valid() && timerArmed
      modifies this
      ensures Valid() && !showSkeleton && !timerArmed
    {
      showSkeleton := false;
      timerArmed := false;
    }

    method Unmount()
      requires Valid()
      modifies this
      ensures Valid() && !timerArmed && showSkeleton == old(showSkeleton)
    {
      timerArmed := false;
    }

    function View(parse: DateParser): (v: View)
      reads this
      ensures showSkeleton <==> v == Skeleton(3)
      ensures !showSkeleton ==> v == Rows(RowsOf(SortedDueBills(DUE_BILLS, parse), parse)) && |v.rows| == |DUE_BILLS|
      ensures !showSkeleton ==> |v.rows| > 0 && v.rows[0].monthHeader.Some?
    {
      if showSkeleton then Skeleton(3) else Rows(RowsOf(SortedDueBills(DUE_BILLS, parse), parse))
    }

    /** The Pay Now button of a shown card. */
    method PressPay(row: Row) returns (effect: Effect)
      ensures effect == (if hasOnPressPay then PayBill(row.bill) else NoEffect)
    {
      effect := if hasOnPressPay then PayBill(row.bill) else NoEffect;
    }

    method PressHistory() returns (effect: Effect)
      ensures effect == (if hasOnPressHistory then OpenHistory else NoEffect)
    {
      effect := if hasOnPressHistory then OpenHistory else NoEffect;
    }
  }
}
