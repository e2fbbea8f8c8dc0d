/**
 * The validation rules of the expense claim form (src/app/expense/schema.ts):
 * an expense item has a category name, an amount, a usage date within the
 * last 365 days and a receipt flag, and a form holds one to ten items.
 * Parsing collects every issue it finds, each tagged with the item and the
 * field it concerns, and succeeds only when there is none.
 */
module ExpenseSchema {
  import opened Wrappers
  import MockDataGenerators

  /** A value as the schema receives it. */
  datatype Value =
    | Undefined
    | Null
    | Bool(b: bool)
    | Number(x: real)
    | NaN
    | Text(s: string)
    | Date(ms: int)     // a valid `Date`, as milliseconds since the epoch
    | InvalidDate       // a `Date` whose time value is NaN

  datatype Field = Category | Amount | UsageDate | Items

  /** What is wrong with a value; each code has its own message in the schema. */
  datatype Code =
    | Required          // the value is undefined
    | InvalidType       // the value has the wrong type
    | BadDate           // a `Date` that is not a valid date
    | TooShort          // fewer characters or items than the minimum
    | TooLong           // more characters or items than the maximum
    | TooSmall          // a number below the minimum
    | TooBig            // a number above the maximum
    | NotInteger        // a number with a fractional part
    | OutsideLastYear   // a date before one year ago or after now

  /** An issue: which item (none for the form itself), which field, what. */
  datatype Issue = Issue(item: Option<nat>, field: Field, code: Code)

  datatype RawItem = RawItem(category: Value, amount: Value, usageDate: Value, hasReceipt: Value)

  datatype ExpenseItem = ExpenseItem(category: string, amount: int, usageDate: int, hasReceipt: bool)

  datatype Result<T> = Ok(value: T) | Err(issues: seq<Issue>)

  const CATEGORY_MIN: int := 1
  const CATEGORY_MAX: int := 20
  const AMOUNT_MIN: real := 1.0
  const AMOUNT_MAX: real := 1000000.0
  const USAGE_WINDOW_DAYS: int := 365
  const ITEMS_MIN: int := 1
  const ITEMS_MAX: int := 10

  predicate IsInteger(x: real) { x.Floor as real == x }

  /** The earliest accepted usage date: 365 days before now. */
  function OneYearBefore(now: int): (t: int)
    ensures t < now
  {
    now - USAGE_WINDOW_DAYS * MockDataGenerators.DAY
  }

  // ---------------------------------------------------------------------
  // Field rules, in the order the schema checks them
  // ---------------------------------------------------------------------

  /** `category`: a string of 1 to 20 characters. */
  function CategoryCodes(v: Value): (r: seq<Code>)
    ensures r == [] <==> v.Text? && CATEGORY_MIN <= |v.s| <= CATEGORY_MAX
    ensures v.Undefined? ==> r == [Required]
  {
    match v
    case Undefined => [Required]
    case Text(s) =>
      (if |s| < CATEGORY_MIN then [TooShort] else []) + (if |s| > CATEGORY_MAX then [TooLong] else [])
    case _ => [InvalidType]
  }

  /** `amount`: a number from 1 to 1,000,000 that is an integer; every bound
      it breaks is reported. */
  function AmountCodes(v: Value): (r: seq<Code>)
    ensures r == [] <==> v.Number? && IsInteger(v.x) && AMOUNT_MIN <= v.x <= AMOUNT_MAX
    ensures v.Number? && !IsInteger(v.x) ==> NotInteger in r
    ensures v.Number? && v.x < AMOUNT_MIN ==> TooSmall in r
    ensures v.Number? && v.x > AMOUNT_MAX ==> TooBig in r
  {
    match v
    case Undefined => [Required]
    case Number(x) =>
      (if x < AMOUNT_MIN then [TooSmall] else [])
      + (if x > AMOUNT_MAX then [TooBig] else [])
      + (if !IsInteger(x) then [NotInteger] else [])
    case _ => [InvalidType]
  }

  /** `usageDate`: a valid date no earlier than 365 days ago and no later than
      now; the range is checked only once the value is a valid date. */
  function UsageDateCodes(v: Value, now: int): (r: seq<Code>)
    ensures r == [] <==> v.Date? && OneYearBefore(now) <= v.ms <= now
    ensures |r| <= 1
  {
    match v
    case Undefined => [Required]
    case Date(ms) => if OneYearBefore(now) <= ms && ms <= now then [] else [OutsideLastYear]
    case InvalidDate => [BadDate]
    case _ => [InvalidType]
  }

  /** JavaScript's `Boolean(v)`. */
  predicate Truthy(v: Value)
  {
    match v
    case Undefined => false
    case Null => false
    case Bool(b) => b
    case Number(x) => x != 0.0
    case NaN => false
    case Text(s) => s != []
    case Date(_) => true
    case InvalidDate => true
  }

  /** `hasReceipt`: false when absent, otherwise the value's truthiness; it never fails. */
  function HasReceipt(v: Value): (r: bool)
    ensures v.Undefined? ==> !r
    ensures v.Bool? ==> r == v.b
    ensures !v.Undefined? ==> r == Truthy(v)
  {
    if v.Undefined? then false else Truthy(v)
  }

  // ---------------------------------------------------------------------
  // Items
  // ---------------------------------------------------------------------

  /** The item rules, stated on their own. */
  predicate ValidItem(raw: RawItem, now: int)
  {
    && raw.category.Text? && CATEGORY_MIN <= |raw.category.s| <= CATEGORY_MAX
    && raw.amount.Number? && IsInteger(raw.amount.x) && AMOUNT_MIN <= raw.amount.x <= AMOUNT_MAX
    && raw.usageDate.Date? && OneYearBefore(now) <= raw.usageDate.ms <= now
  }

  function Tag(codes: seq<Code>, item: Option<nat>, field: Field): (r: seq<Issue>)
    ensures |r| == |codes|
    ensures forall k :: 0 <= k < |r| ==> r[k] == Issue(item, field, codes[k])
  {
    seq(|codes|, k requires 0 <= k < |codes| => Issue(item, field, codes[k]))
  }

  /** The issues of one item, field by field, each tagged with `item`. */
  function ItemIssues(raw: RawItem, now: int, item: Option<nat>): (r: seq<Issue>)
    ensures r == [] <==> ValidItem(raw, now)
    ensures forall k :: 0 <= k < |r| ==> r[k].item == item && r[k].field != Items
  {
    Tag(CategoryCodes(raw.category), item, Category)
    + Tag(AmountCodes(raw.amount), item, Amount)
    + Tag(UsageDateCodes(raw.usageDate, now), item, UsageDate)
  }

  /** The parsed item: the integer amount, the date and the defaulted flag. */
  function ToItem(raw: RawItem): (e: ExpenseItem)
    requires raw.category.Text? && raw.amount.Number? && raw.usageDate.Date?
    ensures e.category == raw.category.s && e.amount as real == raw.amount.x.Floor as real
    ensures e.usageDate == raw.usageDate.ms && e.hasReceipt == HasReceipt(raw.hasReceipt)
  {
    ExpenseItem(raw.category.s, raw.amount.x.Floor, raw.usageDate.ms, HasReceipt(raw.hasReceipt))
  }

  /** Parsing one item: its values when every rule holds, otherwise every issue. */
  function ParseItem(raw: RawItem, now: int): (r: Result<ExpenseItem>)
    ensures r.Ok? <==> ValidItem(raw, now)
    ensures r.Ok? ==> r.value.category == raw.category.s && r.value.amount as real == raw.amount.x
                      && r.value.usageDate == raw.usageDate.ms && r.value.hasReceipt == HasReceipt(raw.hasReceipt)
    ensures r.Err? ==> r.issues != [] && forall k :: 0 <= k < |r.issues| ==> r.issues[k].item.None?
  {
    var issues := ItemIssues(raw, now, None);
    if issues == [] then Ok(ToItem(raw)) else Err(issues)
  }

  // ---------------------------------------------------------------------
  // The form
  // ---------------------------------------------------------------------

  /** The lists one after the other. */
  function Concat<T>(ss: seq<seq<T>>): (r: seq<T>)
    ensures r == [] <==> forall i :: 0 <= i < |ss| ==> ss[i] == []
  {
    if ss == [] then [] else ss[0] + Concat(ss[1..])
  }

  /** Whatever one list holds, the concatenation holds. */
  lemma {:induction false} ConcatHas<T>(ss: seq<seq<T>>, i: nat, x: T)
    requires i < |ss| && x in ss[i]
    ensures x in Concat(ss)
    decreases i
  {
    if i > 0 {
      ConcatHas(ss[1..], i - 1, x);
    }
  }

  /** Whatever the concatenation holds comes from one of the lists. */
  lemma {:induction false} ConcatFrom<T>(ss: seq<seq<T>>, x: T) returns (i: nat)
    requires x in Concat(ss)
    ensures i < |ss| && x in ss[i]
  {
    if x in ss[0] {
      i := 0;
    } else {
      var j := ConcatFrom(ss[1..], x);
      i := j + 1;
    }
  }

  lemma ConcatHasAll<T>(ss: seq<seq<T>>, i: nat)
    requires i < |ss|
    ensures forall x :: x in ss[i] ==> x in Concat(ss)
  {
    forall x | x in ss[i]
      ensures x in Concat(ss)
    {
      ConcatHas(ss, i, x);
    }
  }

  /** Each item's issues, tagged with its position in the form. */
  function PerItemIssues(items: seq<RawItem>, now: int): (r: seq<seq<Issue>>)
    ensures |r| == |items|
    ensures forall i :: 0 <= i < |r| ==> r[i] == ItemIssues(items[i], now, Some(i))
  {
    seq(|items|, i requires 0 <= i < |items| => ItemIssues(items[i], now, Some(i)))
  }

  /** The issues of the items in order: none exactly when every item is valid,
      and each one names an invalid item by its position. */
  function ItemsIssues(items: seq<RawItem>, now: int): (r: seq<Issue>)
    ensures r == [] <==> forall i :: 0 <= i < |items| ==> ValidItem(items[i], now)
    ensures forall x :: x in r ==>
              x.item.Some? && x.item.value < |items| && !ValidItem(items[x.item.value], now)
  {
    var r := Concat(PerItemIssues(items, now));
    forall x | x in r
      ensures x.item.Some? && x.item.value < |items| && !ValidItem(items[x.item.value], now)
    {
      var i := ConcatFrom(PerItemIssues(items, now), x);
    }
    r
  }

  /** The issues of the form: the item-count bounds first, then each item's. */
  function FormIssues(items: Option<seq<RawItem>>, now: int): (r: seq<Issue>)
    ensures items.None? ==> r == [Issue(None, Items, Required)]
  {
    match items
    case None => [Issue(None, Items, Required)]
    case Some(s) =>
      (if |s| < ITEMS_MIN then [Issue(None, Items, TooShort)] else [])
      + (if |s| > ITEMS_MAX then [Issue(None, Items, TooLong)] else [])
      + ItemsIssues(s, now)
  }

  /** Parsing the form: every item parsed when the form has one to ten items
      and each of them is valid, otherwise every issue found. */
  function ParseForm(items: Option<seq<RawItem>>, now: int): (r: Result<seq<ExpenseItem>>)
    ensures r.Ok? <==> items.Some? && ITEMS_MIN <= |items.value| <= ITEMS_MAX &&
                       forall i :: 0 <= i < |items.value| ==> ValidItem(items.value[i], now)
    ensures r.Ok? ==> |r.value| == |items.value| &&
                      forall i :: 0 <= i < |r.value| ==> ParseItem(items.value[i], now) == Ok(r.value[i])
    ensures r.Err? ==> r.issues == FormIssues(items, now) && r.issues != []
  {
    var issues := FormIssues(items, now);
    if issues == [] then
      Ok(seq(|items.value|, i requires 0 <= i < |items.value| => ToItem(items.value[i])))
    else
      Err(issues)
  }

  /** An invalid item's own issues all appear in the form's, tagged with its position. */
  lemma FormReportsItemIssues(items: seq<RawItem>, now: int, i: nat)
    requires i < |items|
    ensures forall x :: x in ItemIssues(items[i], now, Some(i)) ==> x in FormIssues(Some(items), now)
  {
    ConcatHasAll(PerItemIssues(items, now), i);
    var bounds := (if |items| < ITEMS_MIN then [Issue(None, Items, TooShort)] else [])
                  + (if |items| > ITEMS_MAX then [Issue(None, Items, TooLong)] else []);
    assert FormIssues(Some(items), now) == bounds + ItemsIssues(items, now);
  }

  /** The item-count issues: an empty list is too short, eleven or more too
      long, and either is reported whatever the items hold. */
  lemma ItemCountIssues(items: seq<RawItem>, now: int)
    ensures |items| < ITEMS_MIN ==> Issue(None, Items, TooShort) in FormIssues(Some(items), now)
    ensures |items| > ITEMS_MAX ==> Issue(None, Items, TooLong) in FormIssues(Some(items), now)
    ensures ITEMS_MIN <= |items| <= ITEMS_MAX ==>
              forall x :: x in FormIssues(Some(items), now) ==> x.item.Some?
  {
    var s := FormIssues(Some(items), now);
    if |items| < ITEMS_MIN {
      assert s[0] == Issue(None, Items, TooShort);
    }
    if |items| > ITEMS_MAX {
      assert s[0] == Issue(None, Items, TooLong);
    }
  }
}
