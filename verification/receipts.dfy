/** Receipts whose text has been matched (ocr/receipt_parser.py): minor units and exact quantities. */
module Receipts {
  import opened Basics
  import opened Totals
  import opened Wrappers

  datatype SummaryField = Subtotal | Tax | Discount | Total

  datatype Item = Item(name: string, quantity: real, unit: int, lineTotal: int, confidence: real)

  /** What the patterns made of one grouped line. */
  datatype Line =
    | SummaryLine(field: SummaryField, value: int, confidence: real)
    | ItemLine(item: Item)
    | TextLine(text: string, confidence: real)

  datatype FieldName = ItemField(number: int) | MerchantField | SummaryName(field: SummaryField)

  datatype FieldConfidence = FieldConfidence(name: FieldName, confidence: real)

  datatype Parsed = Parsed(
    items: seq<Item>, confidences: seq<FieldConfidence>, merchant: Option<string>, subtotal: Option<int>,
    tax: int, discount: int, total: Option<int>, review: bool)

  datatype ReceiptError = InvalidResult

  const TOLERANCE := 1
  const MINIMUM_CONFIDENCE := 0.70

  function AbsInt(x: int): int {
    if x < 0 then -x else x
  }

  // ---- what one line does ----

  /** The line total differs from quantity times unit price by more than the tolerance. */
  predicate Mismatch(item: Item) {
    Abs(item.quantity * item.unit as real - item.lineTotal as real) > TOLERANCE as real
  }

  function WithSummary(p: Parsed, field: SummaryField, value: int, confidence: real): Parsed {
    var q := p.(confidences := p.confidences + [FieldConfidence(SummaryName(field), confidence)]);
    match field
    case Subtotal => q.(subtotal := Some(value))
    case Tax => q.(tax := value)
    case Discount => q.(discount := value)
    case Total => q.(total := Some(value))
  }

  function Consumed(p: Parsed, line: Line): Parsed {
    match line
    case SummaryLine(field, value, confidence) => WithSummary(p, field, value, confidence)
    case ItemLine(item) =>
      p.(items := p.items + [item],
         confidences := p.confidences + [FieldConfidence(ItemField(|p.items| + 1), item.confidence)],
         review := p.review || Mismatch(item))
    case TextLine(text, confidence) =>
      if p.merchant.None? && p.items == [] then
        p.(merchant := Some(text), confidences := p.confidences + [FieldConfidence(MerchantField, confidence)])
      else p
  }

  function Start(noLines: bool): Parsed {
    Parsed([], [], None, None, 0, 0, None, noLines)
  }

  function ConsumedAll(lines: seq<Line>, noLines: bool): Parsed {
    if lines == [] then Start(noLines)
    else Consumed(ConsumedAll(lines[..|lines| - 1], noLines), lines[|lines| - 1])
  }

  // ---- reconciliation ----

  function SumTotals(items: seq<Item>): int {
    if items == [] then 0 else SumTotals(items[..|items| - 1]) + items[|items| - 1].lineTotal
  }

  predicate LowConfidence(confidences: seq<FieldConfidence>) {
    exists i :: 0 <= i < |confidences| && confidences[i].confidence < MINIMUM_CONFIDENCE
  }

  predicate Inconsistent(p: Parsed) {
    var itemTotal := SumTotals(p.items);
    var effective := if p.subtotal.Some? then p.subtotal.value else itemTotal;
    || (p.subtotal.Some? && AbsInt(p.subtotal.value - itemTotal) > TOLERANCE)
    || p.total.None?
    || AbsInt(p.total.value - (effective + p.tax - p.discount)) > TOLERANCE
    || p.items == []
    || LowConfidence(p.confidences)
  }

  function Parse(lines: seq<Line>): Parsed {
    var p := ConsumedAll(lines, lines == []);
    p.(review := p.review || Inconsistent(p))
  }

  /** The field limits of the result. */
  predicate ValidResult(p: Parsed) {
    && |p.items| <= 500 && |p.confidences| <= 600
    && (p.merchant.Some? ==> 1 <= |p.merchant.value| <= 200)
    && (p.subtotal.Some? ==> p.subtotal.value >= 0) && (p.total.Some? ==> p.total.value >= 0)
    && p.tax >= 0 && p.discount >= 0
  }

  // ---- the parser object ----

  class ParseState {
    var items: seq<Item>
    var confidences: seq<FieldConfidence>
    var merchant: Option<string>
    var subtotal: Option<int>
    var tax: int
    var discount: int
    var total: Option<int>
    var review: bool

    ghost function View(): Parsed
      reads this
    {
      Parsed(items, confidences, merchant, subtotal, tax, discount, total, review)
    }

    constructor (review: bool)
      ensures View() == Start(review)
    {
      items, confidences, merchant, subtotal := [], [], None, None;
      tax, discount, total := 0, 0, None;
      this.review := review;
    }

    /** `_apply_summary` */
    method ApplySummary(field: SummaryField, value: int, confidence: real)
      modifies this
      ensures View() == WithSummary(old(View()), field, value, confidence)
    {
      confidences := confidences + [FieldConfidence(SummaryName(field), confidence)];
      match field
      case Subtotal => subtotal := Some(value);
      case Tax => tax := value;
      case Discount => discount := value;
      case Total => total := Some(value);
    }

    /** `_consume_line` */
    method ConsumeLine(line: Line)
      modifies this
      ensures View() == Consumed(old(View()), line)
    {
      match line
      case SummaryLine(field, value, confidence) =>
        ApplySummary(field, value, confidence);
      case ItemLine(item) =>
        items := items + [item];
        confidences := confidences + [FieldConfidence(ItemField(|items|), item.confidence)];
        var expected := item.quantity * item.unit as real;
        if Abs(expected - item.lineTotal as real) > TOLERANCE as real {
          review := true;
        }
      case TextLine(text, confidence) =>
        if merchant.None? && items == [] {
          merchant := Some(text);
          confidences := confidences + [FieldConfidence(MerchantField, confidence)];
        }
    }

    /** `_reconcile` */
    method Reconcile()
      modifies this
      ensures View() == old(View()).(review := old(View()).review || Inconsistent(old(View())))
    {
      ghost var before := View();
      var itemTotal := 0;
      for i := 0 to |items|
        invariant View() == before
        invariant itemTotal == SumTotals(items[..i])
      {
        assert items[..i + 1][..i] == items[..i];
        itemTotal := itemTotal + items[i].lineTotal;
      }
      assert items[..|items|] == items;
      var effective := if subtotal.Some? then subtotal.value else itemTotal;
      if subtotal.Some? && AbsInt(subtotal.value - itemTotal) > TOLERANCE {
        review := true;
      }
      if total.None? || AbsInt(total.value - (effective + tax - discount)) > TOLERANCE {
        review := true;
      }
      if items == [] || LowConfidence(confidences) {
        review := true;
      }
    }
  }

  /** `ReceiptParser.parse` over the grouped lines. */
  method ParseReceipt(lines: seq<Line>) returns (r: Result<Parsed, ReceiptError>)
    ensures r == if ValidResult(Parse(lines)) then Success(Parse(lines)) else Failure(InvalidResult)
  {
    var state := new ParseState(lines == []);
    for i := 0 to |lines|
      invariant fresh(state) && state.View() == ConsumedAll(lines[..i], lines == [])
    {
      assert lines[..i + 1][..i] == lines[..i];
      state.ConsumeLine(lines[i]);
    }
    assert lines[..|lines|] == lines;
    state.Reconcile();
    var p := Parsed(state.items, state.confidences, state.merchant, state.subtotal, state.tax, state.discount,
                    state.total, state.review);
    if ValidResult(p) {
      return Success(p);
    }
    return Failure(InvalidResult);
  }

  // ---- what a receipt says, read off its lines ----

  function ItemsOf(lines: seq<Line>): seq<Item> {
    if lines == [] then []
    else
      var front, line := ItemsOf(lines[..|lines| - 1]), lines[|lines| - 1];
      if line.ItemLine? then front + [line.item] else front
  }

  /** The value of the last summary line for a field. */
  function LastOf(lines: seq<Line>, field: SummaryField): Option<int> {
    if lines == [] then None
    else if lines[|lines| - 1].SummaryLine? && lines[|lines| - 1].field == field then Some(lines[|lines| - 1].value)
    else LastOf(lines[..|lines| - 1], field)
  }

  function OrZero(v: Option<int>): int {
    if v.Some? then v.value else 0
  }

  /** Line `i` is the merchant's: plain text, with no plain text and no item before it. */
  ghost predicate IsMerchantLine(lines: seq<Line>, i: int)
    requires 0 <= i < |lines|
  {
    lines[i].TextLine? && forall j :: 0 <= j < i ==> lines[j].SummaryLine?
  }

  function ConfidenceOf(line: Line): real {
    match line
    case SummaryLine(_, _, confidence) => confidence
    case ItemLine(item) => item.confidence
    case TextLine(_, confidence) => confidence
  }

  /** Every summary line, every item and the merchant line were read with enough confidence. */
  ghost predicate Legible(lines: seq<Line>) {
    forall i :: 0 <= i < |lines| && (!lines[i].TextLine? || IsMerchantLine(lines, i)) ==>
      ConfidenceOf(lines[i]) >= 0.7
  }

  /** Quantity times unit price is the line total, give or take one minor unit. */
  ghost predicate LineAgrees(item: Item) {
    -1.0 <= item.quantity * item.unit as real - item.lineTotal as real <= 1.0
  }

  /** A receipt that needs no review, by its lines alone. */
  ghost predicate Reconciles(lines: seq<Line>) {
    var items := ItemsOf(lines);
    var sum := SumTotals(items);
    var subtotal, total := LastOf(lines, Subtotal), LastOf(lines, Total);
    && items != []
    && (forall i :: 0 <= i < |items| ==> LineAgrees(items[i]))
    && (subtotal.Some? ==> -1 <= subtotal.value - sum <= 1)
    && total.Some?
    && -1 <= total.value - ((if subtotal.Some? then subtotal.value else sum)
                            + OrZero(LastOf(lines, Tax)) - OrZero(LastOf(lines, Discount))) <= 1
    && Legible(lines)
  }

  ghost predicate SomeMismatch(items: seq<Item>) {
    exists i :: 0 <= i < |items| && Mismatch(items[i])
  }

  lemma {:induction false} MismatchStep(items: seq<Item>, item: Item)
    ensures SomeMismatch(items + [item]) <==> SomeMismatch(items) || Mismatch(item)
  {
    var all := items + [item];
    assert all[|items|] == item;
    if SomeMismatch(items) {
      var i :| 0 <= i < |items| && Mismatch(items[i]);
      assert Mismatch(all[i]);
    }
  }

  ghost predicate OnlySummaries(lines: seq<Line>) {
    forall i :: 0 <= i < |lines| ==> lines[i].SummaryLine?
  }

  lemma {:induction false} OneMoreLine(lines: seq<Line>, line: Line)
    ensures var all := lines + [line];
      && ItemsOf(all) == (if line.ItemLine? then ItemsOf(lines) + [line.item] else ItemsOf(lines))
      && (forall f :: LastOf(all, f) ==
            if line.SummaryLine? && line.field == f then Some(line.value) else LastOf(lines, f))
      && (OnlySummaries(all) <==> OnlySummaries(lines) && line.SummaryLine?)
  {
    var all := lines + [line];
    assert all[..|lines|] == lines && all[|lines|] == line;
    assert forall i :: 0 <= i < |lines| ==> all[i] == lines[i];
  }

  /** What the state holds after any lines. */
  lemma {:induction false} ConsumedMeans(lines: seq<Line>, noLines: bool)
    ensures var p := ConsumedAll(lines, noLines);
      && p.items == ItemsOf(lines)
      && p.subtotal == LastOf(lines, Subtotal) && p.total == LastOf(lines, Total)
      && p.tax == OrZero(LastOf(lines, Tax)) && p.discount == OrZero(LastOf(lines, Discount))
      && (p.review <==> noLines || SomeMismatch(ItemsOf(lines)))
      && (p.merchant.None? && p.items == [] <==> OnlySummaries(lines))
    decreases |lines|
  {
    if lines != [] {
      hide Mismatch, SomeMismatch, ItemsOf, LastOf, OnlySummaries;
      var front, line := lines[..|lines| - 1], lines[|lines| - 1];
      ConsumedMeans(front, noLines);
      assert front + [line] == lines;
      OneMoreLine(front, line);
      if line.ItemLine? {
        MismatchStep(ItemsOf(front), line.item);
      }
    } else {
      assert !SomeMismatch([]);
    }
  }

  lemma {:induction false} LowStep(confidences: seq<FieldConfidence>, c: FieldConfidence)
    ensures LowConfidence(confidences + [c]) <==> LowConfidence(confidences) || c.confidence < MINIMUM_CONFIDENCE
  {
    var all := confidences + [c];
    assert all[|confidences|] == c;
    if LowConfidence(confidences) {
      var i :| 0 <= i < |confidences| && confidences[i].confidence < MINIMUM_CONFIDENCE;
      assert all[i].confidence < MINIMUM_CONFIDENCE;
    }
  }

  lemma {:induction false} LegibleStep(lines: seq<Line>, line: Line)
    ensures Legible(lines + [line]) <==>
      Legible(lines) && (!line.TextLine? || OnlySummaries(lines) ==> ConfidenceOf(line) >= MINIMUM_CONFIDENCE)
  {
    var all := lines + [line];
    assert all[|lines|] == line && forall i :: 0 <= i < |lines| ==> all[i] == lines[i];
    forall i | 0 <= i < |lines| ensures IsMerchantLine(all, i) <==> IsMerchantLine(lines, i) {}
    assert IsMerchantLine(all, |lines|) <==> line.TextLine? && OnlySummaries(lines);
    if Legible(all) {
      forall i | 0 <= i < |lines| && (!lines[i].TextLine? || IsMerchantLine(lines, i))
        ensures ConfidenceOf(lines[i]) >= MINIMUM_CONFIDENCE
      {
        assert ConfidenceOf(all[i]) >= MINIMUM_CONFIDENCE;
      }
    }
  }

  lemma {:induction false} ConsumeConfidence(p: Parsed, line: Line)
    ensures LowConfidence(Consumed(p, line).confidences) <==>
      || LowConfidence(p.confidences)
      || ((line.TextLine? ==> p.merchant.None? && p.items == []) && ConfidenceOf(line) < MINIMUM_CONFIDENCE)
  {
    hide LowConfidence, Mismatch;
    match line
    case SummaryLine(field, _, confidence) =>
      LowStep(p.confidences, FieldConfidence(SummaryName(field), confidence));
    case ItemLine(item) =>
      LowStep(p.confidences, FieldConfidence(ItemField(|p.items| + 1), item.confidence));
    case TextLine(_, confidence) =>
      LowStep(p.confidences, FieldConfidence(MerchantField, confidence));
  }

  lemma {:induction false} ConfidencesMean(lines: seq<Line>, noLines: bool)
    ensures LowConfidence(ConsumedAll(lines, noLines).confidences) <==> !Legible(lines)
    decreases |lines|
  {
    if lines != [] {
      hide LowConfidence, Legible, Consumed;
      var front, line := lines[..|lines| - 1], lines[|lines| - 1];
      assert front + [line] == lines;
      ConfidencesMean(front, noLines);
      ConsumedMeans(front, noLines);
      LegibleStep(front, line);
      ConsumeConfidence(ConsumedAll(front, noLines), line);
    }
  }

  /** A receipt is not flagged exactly when its lines reconcile. */
  lemma {:induction false} ReviewIff(lines: seq<Line>)
    ensures !Parse(lines).review <==> Reconciles(lines)
  {
    hide Mismatch, Legible, LowConfidence, ConsumedAll, LineAgrees;
    ConsumedMeans(lines, lines == []);
    ConfidencesMean(lines, lines == []);
    forall item ensures LineAgrees(item) <==> !Mismatch(item) {
      AgreesOrMismatches(item);
    }
  }

  lemma {:induction false} AgreesOrMismatches(item: Item)
    ensures LineAgrees(item) <==> !Mismatch(item)
  {}

  // ---- the fields of the result ----

  /** Plain text is kept only as the merchant, before any item. */
  ghost predicate IsUsed(front: seq<Line>, line: Line) {
    line.TextLine? ==> OnlySummaries(front)
  }

  ghost function NameOf(front: seq<Line>, line: Line): FieldName {
    match line
    case SummaryLine(field, _, _) => SummaryName(field)
    case ItemLine(_) => ItemField(|ItemsOf(front)| + 1)
    case TextLine(_, _) => MerchantField
  }

  /** One entry for every line that is used, in their order: its field and how well it was read. */
  ghost function FieldsOf(lines: seq<Line>): seq<FieldConfidence> {
    if lines == [] then []
    else
      var front, line := lines[..|lines| - 1], lines[|lines| - 1];
      if IsUsed(front, line) then FieldsOf(front) + [FieldConfidence(NameOf(front, line), ConfidenceOf(line))]
      else FieldsOf(front)
  }

  lemma {:induction false} FieldsMean(lines: seq<Line>, noLines: bool)
    ensures ConsumedAll(lines, noLines).confidences == FieldsOf(lines)
    decreases |lines|
  {
    if lines != [] {
      hide Mismatch, ItemsOf, OnlySummaries, LastOf;
      FieldsMean(lines[..|lines| - 1], noLines);
      ConsumedMeans(lines[..|lines| - 1], noLines);
    }
  }

  /** The merchant is the first line of plain text, unless an item comes before it. */
  lemma {:induction false} MerchantMeans(lines: seq<Line>, noLines: bool)
    ensures forall i :: 0 <= i < |lines| && IsMerchantLine(lines, i) ==>
      ConsumedAll(lines, noLines).merchant == Some(lines[i].text)
    ensures (forall i :: 0 <= i < |lines| ==> !IsMerchantLine(lines, i)) ==>
      ConsumedAll(lines, noLines).merchant == None
    decreases |lines|
  {
    if lines != [] {
      var front, line := lines[..|lines| - 1], lines[|lines| - 1];
      ConsumedMerchant(lines, noLines);
      hide ConsumedAll, OnlySummaries, IsMerchantLine;
      MerchantMeans(front, noLines);
      MerchantStep(front, line);
      assert front + [line] == lines;
      if line.TextLine? && OnlySummaries(front) {
        NoMerchant(front);
      }
    }
  }

  lemma {:induction false} ConsumedMerchant(lines: seq<Line>, noLines: bool)
    requires lines != []
    ensures var front, line := lines[..|lines| - 1], lines[|lines| - 1];
      ConsumedAll(lines, noLines).merchant
        == if line.TextLine? && OnlySummaries(front) then Some(line.text) else ConsumedAll(front, noLines).merchant
  {
    hide Mismatch, ItemsOf, OnlySummaries, LastOf;
    ConsumedMeans(lines[..|lines| - 1], noLines);
  }

  lemma {:induction false} NoMerchant(lines: seq<Line>)
    requires OnlySummaries(lines)
    ensures forall i :: 0 <= i < |lines| ==> !IsMerchantLine(lines, i)
  {}

  lemma {:induction false} MerchantStep(front: seq<Line>, line: Line)
    ensures var all := front + [line];
      && (forall i :: 0 <= i < |front| ==> (IsMerchantLine(all, i) <==> IsMerchantLine(front, i)))
      && (IsMerchantLine(all, |front|) <==> line.TextLine? && OnlySummaries(front))
      && (forall i :: 0 <= i < |front| ==> all[i] == front[i]) && all[|front|] == line
  {
    var all := front + [line];
    assert forall i :: 0 <= i < |front| ==> all[i] == front[i];
  }

  /** What a parsed receipt says, read off its lines: all items in their order, the last value of every summary
      field, the first plain text before any item as the merchant, and how well every used line was read. */
  lemma {:induction false} ReceiptSays(lines: seq<Line>)
    ensures var p := Parse(lines);
      && p.items == ItemsOf(lines) && p.confidences == FieldsOf(lines)
      && p.subtotal == LastOf(lines, Subtotal) && p.total == LastOf(lines, Total)
      && p.tax == (if LastOf(lines, Tax).Some? then LastOf(lines, Tax).value else 0)
      && p.discount == (if LastOf(lines, Discount).Some? then LastOf(lines, Discount).value else 0)
      && (forall i :: 0 <= i < |lines| && IsMerchantLine(lines, i) ==> p.merchant == Some(lines[i].text))
      && ((forall i :: 0 <= i < |lines| ==> !IsMerchantLine(lines, i)) ==> p.merchant == None)
  {
    hide ConsumedAll, Inconsistent, ItemsOf, LastOf, FieldsOf, IsMerchantLine;
    ConsumedMeans(lines, lines == []);
    FieldsMean(lines, lines == []);
    MerchantMeans(lines, lines == []);
  }

  ghost predicate NotNegative(amount: Option<int>) {
    amount.Some? ==> amount.value >= 0
  }

  /** A receipt is refused exactly when it breaks a limit of the result: more than 500 items or 600 read fields, a
      merchant that is empty or longer than 200 characters, or a negative amount. */
  lemma {:induction false} AcceptedIff(lines: seq<Line>)
    ensures ValidResult(Parse(lines)) <==>
      && |ItemsOf(lines)| <= 500 && |FieldsOf(lines)| <= 600
      && (forall i :: 0 <= i < |lines| && IsMerchantLine(lines, i) ==> 1 <= |lines[i].text| <= 200)
      && NotNegative(LastOf(lines, Subtotal)) && NotNegative(LastOf(lines, Tax))
      && NotNegative(LastOf(lines, Discount)) && NotNegative(LastOf(lines, Total))
  {
    hide Parse, ItemsOf, LastOf, FieldsOf, IsMerchantLine;
    ReceiptSays(lines);
  }

  // ---- how far an unflagged total can be off ----

  function Value(item: Item): real {
    item.quantity * item.unit as real
  }

  function SumValues(items: seq<Item>): real {
    SumOver(items, Value)
  }

  lemma {:induction false} SumsAreClose(items: seq<Item>)
    requires forall i :: 0 <= i < |items| ==> !Mismatch(items[i])
    ensures Abs(SumTotals(items) as real - SumValues(items)) <= |items| as real
    decreases |items|
  {
    if items != [] {
      SumsAreClose(items[..|items| - 1]);
      assert !Mismatch(items[|items| - 1]);
    }
  }

  /** An unflagged receipt has items, each line total is within one minor unit of quantity times unit
      price, and the total is within one minor unit an item, and two more, of what the items, the tax and
      the discount come to; only one more without a subtotal line. */
  lemma {:induction false} UnflaggedReconciles(lines: seq<Line>)
    requires !Parse(lines).review
    ensures var p := Parse(lines);
      && p.items == ItemsOf(lines) && p.items != [] && p.total.Some?
      && (forall i :: 0 <= i < |p.items| ==> Abs(Value(p.items[i]) - p.items[i].lineTotal as real) <= 1.0)
      && Abs(p.total.value as real - (SumValues(p.items) + p.tax as real - p.discount as real))
           <= |p.items| as real + if p.subtotal.Some? then 2.0 else 1.0
  {
    ReviewIff(lines);
    ConsumedMeans(lines, lines == []);
    var items := ItemsOf(lines);
    SumsAreClose(items);
    forall i | 0 <= i < |items| ensures Abs(Value(items[i]) - items[i].lineTotal as real) <= 1.0 {
      assert !Mismatch(items[i]);
    }
    hide SumValues, SumTotals, ItemsOf, LastOf, ConsumedAll, Mismatch, Legible;
    var p := Parse(lines);
    CloseTotal(p.total.value, if p.subtotal.Some? then p.subtotal.value else SumTotals(items), SumTotals(items),
               SumValues(items), |items|, p.subtotal.Some?, p.tax, p.discount);
  }

  lemma {:induction false} CloseTotal(total: int, base: int, sum: int, values: real, n: nat, hasSubtotal: bool,
                                       tax: int, discount: int)
    requires -1 <= total - (base + tax - discount) <= 1 && Abs(sum as real - values) <= n as real
    requires if hasSubtotal then -1 <= base - sum <= 1 else base == sum
    ensures Abs(total as real - (values + tax as real - discount as real))
      <= n as real + if hasSubtotal then 2.0 else 1.0
  {}

  /** A free item charged one minor unit. */
  function FreeItem(): Item {
    Item("x", 1.0, 0, 1, 1.0)
  }

  function FreeLines(n: nat): seq<Line> {
    seq(n, i requires 0 <= i < n => ItemLine(FreeItem()))
  }

  /** `n` free items charged one minor unit each, a subtotal one above their sum, a total one above that. */
  function Worst(n: nat): seq<Line> {
    FreeLines(n) + [SummaryLine(Subtotal, n + 1, 1.0), SummaryLine(Total, n + 2, 1.0)]
  }

  lemma {:induction false} SumStep(items: seq<Item>, item: Item)
    ensures SumTotals(items + [item]) == SumTotals(items) + item.lineTotal
    ensures SumValues(items + [item]) == SumValues(items) + Value(item)
  {
    assert (items + [item])[..|items|] == items;
  }

  function FreeItems(n: nat): seq<Item> {
    seq(n, i requires 0 <= i < n => FreeItem())
  }

  lemma {:induction false} OneMoreFree(n: nat)
    ensures FreeLines(n + 1) == FreeLines(n) + [ItemLine(FreeItem())]
    ensures FreeItems(n + 1) == FreeItems(n) + [FreeItem()]
  {}

  lemma {:induction false} FreeLinesMean(n: nat)
    ensures ItemsOf(FreeLines(n)) == FreeItems(n) && forall f :: LastOf(FreeLines(n), f) == None
    decreases n
  {
    if n > 0 {
      hide ItemsOf, LastOf, FreeLines, FreeItems;
      FreeLinesMean(n - 1);
      OneMoreFree(n - 1);
      OneMoreLine(FreeLines(n - 1), ItemLine(FreeItem()));
    }
  }

  lemma {:induction false} FreeSums(n: nat)
    ensures SumTotals(FreeItems(n)) == n && SumValues(FreeItems(n)) == 0.0
    decreases n
  {
    if n > 0 {
      hide SumTotals, SumValues, FreeItems;
      FreeSums(n - 1);
      OneMoreFree(n - 1);
      SumStep(FreeItems(n - 1), FreeItem());
    }
  }

  lemma {:induction false} SummaryStep(lines: seq<Line>, field: SummaryField, value: int, confidence: real)
    ensures var all := lines + [SummaryLine(field, value, confidence)];
      && ItemsOf(all) == ItemsOf(lines)
      && forall f :: LastOf(all, f) == if f == field then Some(value) else LastOf(lines, f)
  {
    assert (lines + [SummaryLine(field, value, confidence)])[..|lines|] == lines;
  }

  /** The bound is reached, for every number of items: no flag, and the total is off by `n + 2`. */
  lemma {:induction false} BoundIsReached(n: nat)
    requires n > 0
    ensures !Parse(Worst(n)).review && |Parse(Worst(n)).items| == n
    ensures Parse(Worst(n)).total == Some(n + 2) && SumValues(Parse(Worst(n)).items) == 0.0
    ensures Parse(Worst(n)).tax == 0 && Parse(Worst(n)).discount == 0
  {
    hide ItemsOf, LastOf, SumTotals, SumValues, ConsumedAll;
    var lines := FreeLines(n);
    FreeLinesMean(n);
    FreeSums(n);
    assert LineAgrees(FreeItem());
    SummaryStep(lines, Subtotal, n + 1, 1.0);
    SummaryStep(lines + [SummaryLine(Subtotal, n + 1, 1.0)], Total, n + 2, 1.0);
    assert Worst(n) == lines + [SummaryLine(Subtotal, n + 1, 1.0)] + [SummaryLine(Total, n + 2, 1.0)];
    assert forall i :: 0 <= i < |Worst(n)| ==> ConfidenceOf(Worst(n)[i]) == 1.0;
    assert Reconciles(Worst(n));
    ReviewIff(Worst(n));
    ConsumedMeans(Worst(n), false);
  }
}
