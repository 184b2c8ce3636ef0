/** The bill-history screen: the paid bills filtered by the active pill and the
    optional date range, their total, the pill handlers and the skeleton timer. */
module BillHistory {
  import opened Optional
  import opened Text
  import opened JsValues
  import opened Seqs
  import opened Dates

  /** A bill as the screen holds it; every field is a string, as in the data. */
  datatype Bill = Bill(
    id: string,
    billNo: string,
    billDate: string,
    fromDate: string,
    toDate: string,
    billType: string,
    paymentMethod: string,
    amount: string,
    currency: string)

  const BILL_DATA: seq<Bill> := [
    Bill("76", "76", "2025-10-21", "2025-08-11", "2025-10-21", "Electricity", "Credit Card", "100", "AED"),
    Bill("77", "77", "2025-09-15", "2025-07-01", "2025-09-15", "Water", "Direct Debit", "250", "AED"),
    Bill("78", "78", "2025-06-10", "2025-04-01", "2025-06-10", "Gas", "Standing Instruction", "180", "AED")
  ]

  /** The keys of the filter pills, in display order. */
  const FILTER_KEYS: seq<string> := ["all", "last6"]

  const SKELETON_MS := 1500

  /** `monthsDiff(from, to)`: whole calendar months from one date to the other,
      ignoring the day of the month. */
  function MonthsDiff(from: Date, to: Date): int {
    (to.year - from.year) * 12 + (to.month - from.month)
  }

  /** On real months the difference is zero exactly in the same month, negative
      exactly when `from` lies in a later month, and reverses with its arguments. */
  lemma MonthsDiffMeaning(from: DayDate, to: DayDate)
    ensures MonthsDiff(from, to) == 0 <==> from.year == to.year && from.month == to.month
    ensures MonthsDiff(from, to) < 0 <==>
      from.year > to.year || (from.year == to.year && from.month > to.month)
    ensures MonthsDiff(to, from) == -MonthsDiff(from, to)
  {
  }

  /** The date test inside `filteredBills`, for today's date `today`; `parse`
      stands for `new Date(...)`. An Invalid Date makes every comparison false,
      so it never falls outside the range, and its `monthsDiff` is NaN. */
  predicate Keeps(bill: Bill, activeFilter: string, startDate: string, endDate: string,
                  today: DayDate, parse: DateParser)
  {
    var billDate := parse(Str(bill.billDate));
    var outOfRange := startDate != "" && endDate != "" &&
      (DateLess(billDate, parse(Str(startDate))) || DateLess(parse(Str(endDate)), billDate));
    if outOfRange then false
    else if activeFilter == "current" then billDate.Some? && MonthsDiff(billDate.value, today) == 0
    else if activeFilter == "last6" then
      billDate.Some? && 0 <= MonthsDiff(billDate.value, today) && MonthsDiff(billDate.value, today) < 6
    else true
  }

  /** `filteredBills` */
  function FilteredBills(bills: seq<Bill>, activeFilter: string, startDate: string, endDate: string,
                         today: DayDate, parse: DateParser): seq<Bill>
  {
    Filter(bills, (b: Bill) => Keeps(b, activeFilter, startDate, endDate, today, parse))
  }

  /** The list is the bills the filter keeps, in their original order: a bill is
      listed exactly when it is one of the bills and passes the test. */
  lemma FilteredIsOrderedSelection(bills: seq<Bill>, activeFilter: string, startDate: string,
                                   endDate: string, today: DayDate, parse: DateParser)
    ensures IsSubsequence(FilteredBills(bills, activeFilter, startDate, endDate, today, parse), bills)
    ensures forall b :: b in FilteredBills(bills, activeFilter, startDate, endDate, today, parse) <==>
      b in bills && Keeps(b, activeFilter, startDate, endDate, today, parse)
  {
    FilterIsSubsequence(bills, (b: Bill) => Keeps(b, activeFilter, startDate, endDate, today, parse));
    FilterMembers(bills, (b: Bill) => Keeps(b, activeFilter, startDate, endDate, today, parse));
  }

  /** With both dates set and readable, a listed bill with a readable date lies
      between them, ends included. */
  lemma RangeBoundsListedBills(bills: seq<Bill>, activeFilter: string, startDate: string,
                               endDate: string, today: DayDate, parse: DateParser)
    requires startDate != "" && endDate != ""
    requires parse(Str(startDate)).Some? && parse(Str(endDate)).Some?
    ensures forall b ::
      (b in FilteredBills(bills, activeFilter, startDate, endDate, today, parse) && parse(Str(b.billDate)).Some?) ==>
        !Before(parse(Str(b.billDate)).value, parse(Str(startDate)).value) &&
        !Before(parse(Str(endDate)).value, parse(Str(b.billDate)).value)
  {
    FilterMembers(bills, (b: Bill) => Keeps(b, activeFilter, startDate, endDate, today, parse));
  }

  /** Without a full range and with the "all" pill (or any key other than
      "current" and "last6"), every bill is listed. */
  lemma AllKeepsEverything(bills: seq<Bill>, activeFilter: string, startDate: string,
                           endDate: string, today: DayDate, parse: DateParser)
    requires activeFilter != "current" && activeFilter != "last6"
    requires startDate == "" || endDate == ""
    ensures FilteredBills(bills, activeFilter, startDate, endDate, today, parse) == bills
  {
    FilterKeepsAll(bills, (b: Bill) => Keeps(b, activeFilter, startDate, endDate, today, parse));
  }

  /** A bill whose date cannot be read is never listed under "current" or
      "last6" (its month difference is NaN), and no range excludes it. */
  lemma UnreadableDateBill(bill: Bill, activeFilter: string, startDate: string,
                           endDate: string, today: DayDate, parse: DateParser)
    requires parse(Str(bill.billDate)).None?
    ensures activeFilter == "current" || activeFilter == "last6" ==>
      !Keeps(bill, activeFilter, startDate, endDate, today, parse)
    ensures activeFilter != "current" && activeFilter != "last6" ==>
      Keeps(bill, activeFilter, startDate, endDate, today, parse)
  {
  }

  /** The bills of the current month are among those of the last six months:
      narrowing the "last6" list to the current month gives the "current" list. */
  lemma CurrentWithinLastSix(bills: seq<Bill>, startDate: string, endDate: string,
                             today: DayDate, parse: DateParser)
    ensures Filter(FilteredBills(bills, "last6", startDate, endDate, today, parse),
                   (b: Bill) => Keeps(b, "current", startDate, endDate, today, parse))
         == FilteredBills(bills, "current", startDate, endDate, today, parse)
    ensures |FilteredBills(bills, "current", startDate, endDate, today, parse)|
         <= |FilteredBills(bills, "last6", startDate, endDate, today, parse)|
  {
    var pc := (b: Bill) => Keeps(b, "current", startDate, endDate, today, parse);
    var pl := (b: Bill) => Keeps(b, "last6", startDate, endDate, today, parse);
    FilterNarrow(bills, pc, pl);
  }

  /** `Number(bill.amount || 0)`: None stands for NaN. */
  function AmountValue(bill: Bill): Option<nat> {
    if bill.amount == "" then Some(0) else JsNumber(bill.amount)
  }

  /** NaN-aware addition. */
  function AddAmount(sum: Option<int>, x: Option<nat>): Option<int> {
    if sum.Some? && x.Some? then Some(sum.value + x.value) else None
  }

  /** The `reduce` from 0 over a list of amounts. */
  function SumAmounts(xs: seq<Option<nat>>): Option<int> {
    if xs == [] then Some(0) else AddAmount(SumAmounts(xs[..|xs| - 1]), xs[|xs| - 1])
  }

  function AmountsOf(bills: seq<Bill>): (xs: seq<Option<nat>>)
    ensures |xs| == |bills| && forall i :: 0 <= i < |bills| ==> xs[i] == AmountValue(bills[i])
  {
    Map(bills, AmountValue)
  }

  /** `totalAmount`: the sum of the listed bills' amounts. */
  function TotalAmount(bills: seq<Bill>): Option<int> {
    SumAmounts(AmountsOf(bills))
  }

  /** The sum is a number exactly when every amount is one, and then it is never
      negative; an empty list sums to 0. */
  lemma {:induction false} SumAmountsDefined(xs: seq<Option<nat>>)
    ensures SumAmounts(xs).Some? <==> forall i :: 0 <= i < |xs| ==> xs[i].Some?
    ensures SumAmounts(xs).Some? ==> SumAmounts(xs).value >= 0
    ensures xs == [] ==> SumAmounts(xs) == Some(0)
  {
    if xs != [] {
      var init := xs[..|xs| - 1];
      SumAmountsDefined(init);
      assert forall i :: 0 <= i < |init| ==> init[i] == xs[i];
    }
  }

  /** Sums add up over a split list. */
  lemma {:induction false} SumAmountsAppend(a: seq<Option<nat>>, b: seq<Option<nat>>)
    ensures SumAmounts(a + b) ==
      (if SumAmounts(a).Some? && SumAmounts(b).Some?
       then Some(SumAmounts(a).value + SumAmounts(b).value) else None)
  {
    if b == [] {
      assert a + b == a;
    } else {
      var init := b[..|b| - 1];
      assert (a + b)[..|a + b| - 1] == a + init;
      assert (a + b)[|a + b| - 1] == b[|b| - 1];
      SumAmountsAppend(a, init);
    }
  }

  /** The total is a number exactly when every listed amount is one; it is then
      never negative, and an empty list totals 0. */
  lemma TotalAmountDefined(bills: seq<Bill>)
    ensures TotalAmount(bills).Some? <==> forall i :: 0 <= i < |bills| ==> AmountValue(bills[i]).Some?
    ensures TotalAmount(bills).Some? ==> TotalAmount(bills).value >= 0
    ensures bills == [] ==> TotalAmount(bills) == Some(0)
  {
    SumAmountsDefined(AmountsOf(bills));
  }

  /** Totals add up over a list split in two. */
  lemma TotalAmountAppend(a: seq<Bill>, b: seq<Bill>)
    ensures TotalAmount(a + b) ==
      (if TotalAmount(a).Some? && TotalAmount(b).Some?
       then Some(TotalAmount(a).value + TotalAmount(b).value) else None)
  {
    MapAppend(a, b, AmountValue);
    SumAmountsAppend(AmountsOf(a), AmountsOf(b));
  }

  lemma AmountOfDigits(bill: Bill, n: nat)
    requires bill.amount == NatToString(n)
    ensures AmountValue(bill) == Some(n)
  {
    DigitsValueOfNatToString(n);
    assert AllDigits(bill.amount);
  }

  lemma AmountOfLiteral(bill: Bill, n: nat)
    requires n in {100, 250, 180}
    requires bill.amount == (if n == 100 then "100" else if n == 250 then "250" else "180")
    ensures AmountValue(bill) == Some(n)
  {
    if n == 100 {
      assert NatToString(100) == "100";
    } else if n == 250 {
      assert NatToString(250) == "250";
    } else {
      assert NatToString(180) == "180";
    }
    AmountOfDigits(bill, n);
  }

  lemma AmountsOfBillData()
    ensures AmountsOf(BILL_DATA) == [Some(100), Some(250), Some(180)]
  {
    var b0, b1, b2 := BILL_DATA[0], BILL_DATA[1], BILL_DATA[2];
    AmountOfLiteral(b0, 100);
    AmountOfLiteral(b1, 250);
    AmountOfLiteral(b2, 180);
    assert BILL_DATA == [b0, b1, b2];
    MapThree(b0, b1, b2, AmountValue);
  }

  /** Three defined amounts sum to their total. */
  lemma {:induction false} SumOfThree(a: nat, b: nat, c: nat)
    ensures SumAmounts([Some(a), Some(b), Some(c)]) == Some(a + b + c)
  {
    var xs: seq<Option<nat>> := [Some(a), Some(b), Some(c)];
    var ys := xs[..2];
    var zs := ys[..1];
    assert zs == [Some(a)] && zs[..0] == [];
    assert SumAmounts(zs) == Some(a);
    assert ys[..|ys| - 1] == zs;
    assert SumAmounts(ys) == Some(a + b);
    assert xs[..|xs| - 1] == ys;
  }

  /** The three paid bills total 530 AED. */
  lemma TotalOfAllBills()
    ensures TotalAmount(BILL_DATA) == Some(530)
  {
    AmountsOfBillData();
    SumOfThree(100, 250, 180);
  }

  /** `formatDisplayDate`: "dd-mm-yyyy" for a readable date, the input itself otherwise. */
  function FormatDisplayDate(iso: string, parse: DateParser): (r: string)
    ensures parse(Str(iso)).None? ==> r == iso
    ensures parse(Str(iso)).Some? ==>
      |r| >= 7 && r[2] == '-' && r[5] == '-' && IsDigit(r[0]) && IsDigit(r[1]) && IsDigit(r[3]) && IsDigit(r[4]) &&
      r[6..] == NatToString(parse(Str(iso)).value.year) &&
      r[..2] == Pad2(parse(Str(iso)).value.day as nat) && r[3..5] == Pad2((parse(Str(iso)).value.month + 1) as nat)
  {
    var d := parse(Str(iso));
    if d.None? then iso
    else
      var dd := Pad2(d.value.day as nat);
      var mm := Pad2((d.value.month + 1) as nat);
      assert |dd| == 2 && |mm| == 2;
      var r := dd + "-" + mm + "-" + NatToString(d.value.year);
      assert r[..2] == dd && r[3..5] == mm;
      r
  }

  /** What the screen draws. */
  datatype View =
    | Skeleton(placeholderCards: nat)
    | Listing(bills: seq<Bill>, noBillsNotice: bool, dateCard: bool, clearDatesButton: bool)

  class BillHistoryScreen {
    var showSkeleton: bool
    var skeletonTimerArmed: bool
    var activeFilter: string
    var startDate: string
    var endDate: string
    var showDateFilter: bool

    /** The date boxes only log a message, so no handler ever sets a date: both
        stay empty in every state the screen reaches. */
    ghost predicate Valid()
      reads this
    {
      (skeletonTimerArmed ==> showSkeleton) && startDate == "" && endDate == ""
    }

    constructor ()
      ensures Valid()
      ensures showSkeleton && skeletonTimerArmed
      ensures activeFilter == "all" && startDate == "" && endDate == "" && !showDateFilter
    {
      showSkeleton := true;
      skeletonTimerArmed := true;
      activeFilter := "all";
      startDate := "";
      endDate := "";
      showDateFilter := false;
    }

    method SkeletonTimerFires()
      requires Valid() && skeletonTimerArmed
      modifies this
      ensures Valid()
      ensures !showSkeleton && !skeletonTimerArmed
      ensures activeFilter == old(activeFilter) && showDateFilter == old(showDateFilter)
      ensures startDate == old(startDate) && endDate == old(endDate)
    {
      showSkeleton := false;
      skeletonTimerArmed := false;
    }

    method Unmount()
      requires Valid()
      modifies this
      ensures Valid()
      ensures !skeletonTimerArmed && showSkeleton == old(showSkeleton)
      ensures activeFilter == old(activeFilter) && showDateFilter == old(showDateFilter)
      ensures startDate == old(startDate) && endDate == old(endDate)
    {
      skeletonTimerArmed := false;
    }

    /** A filter pill: that filter becomes active, and the range and its card are cleared. */
    method SelectFilter(key: string)
      requires Valid()
      modifies this
      ensures Valid()
      ensures activeFilter == key && startDate == "" && endDate == "" && !showDateFilter
      ensures showSkeleton == old(showSkeleton) && skeletonTimerArmed == old(skeletonTimerArmed)
    {
      activeFilter := key;
      startDate := "";
      endDate := "";
      showDateFilter := false;
    }

    /** The Date Range pill: the date card flips and the filter goes back to "all". */
    method ToggleDateRange()
      requires Valid()
      modifies this
      ensures Valid()
      ensures showDateFilter == !old(showDateFilter) && activeFilter == "all"
      ensures startDate == old(startDate) && endDate == old(endDate)
      ensures showSkeleton == old(showSkeleton) && skeletonTimerArmed == old(skeletonTimerArmed)
    {
      showDateFilter := !showDateFilter;
      activeFilter := "all";
    }

    /** "Clear Dates" */
    method ClearDates()
      requires Valid()
      modifies this
      ensures Valid()
      ensures startDate == "" && endDate == ""
      ensures activeFilter == old(activeFilter) && showDateFilter == old(showDateFilter)
      ensures showSkeleton == old(showSkeleton) && skeletonTimerArmed == old(skeletonTimerArmed)
    {
      startDate := "";
      endDate := "";
    }

    /** `isActive` for a filter pill; the Date Range pill is lit by `showDateFilter`. */
    predicate PillActive(key: string)
      reads this
    {
      activeFilter == key && !showDateFilter
    }

    /** At most one pill is lit: the Date Range pill excludes the filter pills,
        and the filter pills have different keys. */
    lemma AtMostOnePillLit()
      ensures showDateFilter ==> forall k :: !PillActive(k)
      ensures forall k1, k2 :: PillActive(k1) && PillActive(k2) ==> k1 == k2
    {
    }

    function View(today: DayDate, parse: DateParser): (v: View)
      reads this
      ensures showSkeleton <==> v == Skeleton(3)
      ensures !showSkeleton ==>
        v.Listing? && v.bills == FilteredBills(BILL_DATA, activeFilter, startDate, endDate, today, parse)
        && (v.noBillsNotice <==> v.bills == [])
        && (v.dateCard <==> showDateFilter)
        && (v.clearDatesButton <==> showDateFilter && startDate != "" && endDate != "")
    {
      if showSkeleton then Skeleton(3)
      else
        var bills := FilteredBills(BILL_DATA, activeFilter, startDate, endDate, today, parse);
        Listing(bills, bills == [], showDateFilter, showDateFilter && startDate != "" && endDate != "")
    }

    /** Since no date is ever set, the list only depends on the active filter,
        and with the "all" pill it is every bill. */
    lemma RangeNeverApplies(today: DayDate, parse: DateParser)
      requires Valid()
      ensures activeFilter == "all" ==>
        FilteredBills(BILL_DATA, activeFilter, startDate, endDate, today, parse) == BILL_DATA
      ensures FilteredBills(BILL_DATA, activeFilter, startDate, endDate, today, parse)
           == FilteredBills(BILL_DATA, activeFilter, "", "", today, parse)
    {
      if activeFilter == "all" {
        AllKeepsEverything(BILL_DATA, activeFilter, startDate, endDate, today, parse);
      }
    }
  }
}
