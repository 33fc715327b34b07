/** Reading the provider's reply: cents out of binary doubles, the kept lines, and the check that the
    lines add up. A double is the real number it stands for; `fl` rounds a real to a double. */
module AnthropicReply {
  import opened Basics
  import opened LedgerInput
  import opened ScanTypes

  type Rounding = real -> real

  function AbsReal(x: real): real {
    if x < 0.0 then -x else x
  }

  /** 2 to the 53: a double has that many significant steps. */
  const PRECISION: real := 9007199254740992.0

  /** At x, rounding keeps the sign, and between a thousandth and 2 to the 60 its relative error is at
      most 2 to the minus 53. */
  predicate RoundsWell(fl: Rounding, x: real) {
    && (x >= 0.0 ==> fl(x) >= 0.0)
    && (x <= 0.0 ==> fl(x) <= 0.0)
    && (0.001 <= AbsReal(x) <= 1152921504606846976.0 ==> AbsReal(fl(x) - x) * PRECISION <= AbsReal(x))
  }

  /** What section 4.3.1 of IEEE 754-2019 gives for binary64, as far as amounts need it. */
  ghost predicate RoundsToNearest(fl: Rounding) {
    forall x :: RoundsWell(fl, x)
  }

  /** Main-unit amount to cents: one rounded multiplication, then llround. */
  function ToCents(fl: Rounding, amount: real): int {
    LlRound(fl(amount * 100.0))
  }

  /** The double a parser makes of the decimal text of n cents. */
  function Printed(fl: Rounding, n: int): real {
    fl(n as real / 100.0)
  }

  // ---- cents through doubles ----

  /** Two roundings move n/100 * 100 by less than half a cent. */
  lemma TwoRoundings(n: real, v: real, w: real)
    requires 1.0 <= AbsReal(n) <= 2251799813685247.0
    requires AbsReal(v - n / 100.0) * PRECISION <= AbsReal(n / 100.0)
    requires AbsReal(w - v * 100.0) * PRECISION <= AbsReal(v * 100.0)
    ensures -0.5 < w - n < 0.5
  {
    var p := PRECISION;
    assert AbsReal(v * 100.0 - n) * p <= AbsReal(n);
    assert AbsReal(v * 100.0) <= AbsReal(n) + AbsReal(v * 100.0 - n);
    assert AbsReal(w - n) <= AbsReal(w - v * 100.0) + AbsReal(v * 100.0 - n);
  }

  /** Every amount below 2 to the 51 cents, either sign, survives being printed with two decimals,
      read as a double and multiplied out. */
  lemma PrintedCentsAreExact(fl: Rounding, n: int)
    requires RoundsToNearest(fl) && Abs(n) < 0x8_0000_0000_0000
    ensures ToCents(fl, Printed(fl, n)) == n
  {
    if n == 0 {
      ZeroStays(fl);
    } else {
      PrintedNear(fl, n as real);
      LlRoundNear(fl(Printed(fl, n) * 100.0), n);
    }
  }

  lemma PrintedNear(fl: Rounding, n: real)
    requires RoundsToNearest(fl) && 1.0 <= AbsReal(n) <= 2251799813685247.0
    ensures -0.5 < fl(fl(n / 100.0) * 100.0) - n < 0.5
  {
    var x := n / 100.0;
    PrintedInRange(n, x);
    RoundedNear(fl, x);
    NearPrinted(x, fl(x));
    RoundedNear(fl, fl(x) * 100.0);
    TwoRoundings(n, fl(x), fl(fl(x) * 100.0));
  }

  lemma ZeroStays(fl: Rounding)
    requires RoundsToNearest(fl)
    ensures fl(0.0) == 0.0 && ToCents(fl, 0.0) == 0 && Printed(fl, 0) == 0.0
  {
    assert RoundsWell(fl, 0.0);
    assert 0.0 * 100.0 == 0.0 && 0 as real / 100.0 == 0.0;
  }

  lemma RoundedNear(fl: Rounding, x: real)
    requires RoundsToNearest(fl) && 0.001 <= AbsReal(x) <= 1152921504606846976.0
    ensures AbsReal(fl(x) - x) * PRECISION <= AbsReal(x)
  {
    assert RoundsWell(fl, x);
  }

  lemma PrintedInRange(n: real, x: real)
    requires 1.0 <= AbsReal(n) <= 2251799813685247.0 && x == n / 100.0
    ensures 0.01 <= AbsReal(x) <= 22517998136852.47
  {
  }

  lemma NearPrinted(x: real, v: real)
    requires 0.01 <= AbsReal(x) <= 22517998136852.47 && AbsReal(v - x) * PRECISION <= AbsReal(x)
    ensures 0.001 <= AbsReal(v * 100.0) <= 1152921504606846976.0
  {
  }

  lemma NonNegativeCents(fl: Rounding, amount: real)
    requires RoundsToNearest(fl) && amount >= 0.0
    ensures ToCents(fl, amount) >= 0
  {
    assert RoundsWell(fl, amount * 100.0);
  }

  // ---- the reply ----

  /** A line of the reply. Required keys of the wrong type are Malformed; texts are None when missing
      or not text, numbers likewise. */
  datatype Line = Line(
    name: Option<string>,
    amount: Field<real>,
    quantity: Option<real>,
    unitPrice: Option<real>,
    category: Option<string>,
    informational: Field<bool>,
    tags: Field<seq<string>>)

  datatype Output = Output(
    unreadableReason: Option<string>,
    kind: Field<string>,
    currency: Field<string>,
    total: Field<real>,
    subtotal: Option<real>,
    merchant: Option<string>,
    storeNameRaw: Option<string>,
    purchaseDate: Field<Day>,
    items: Field<seq<Line>>)

  /** A text block holds the output, or text that is none. */
  datatype Block = OtherBlock | TextBlock(output: Option<Output>)

  datatype Reply = NotAnObject | Reply(stopReason: string, content: seq<Block>)

  /** A parsed reply: the result, and the subtotal that stays in its raw output. */
  datatype Parsed = Parsed(result: ScanResult, subtotal: Option<real>)

  predicate Blank(s: string) {
    forall i :: 0 <= i < |s| ==> s[i] in {' ', '\t', '\r', '\n'}
  }

  function OptText(text: Option<string>): Option<string> {
    if text.Some? && !Blank(text.value) then text else None
  }

  /** toItem; None where a required key is missing or ill-typed. */
  function ToItem(fl: Rounding, line: Line): Option<ScannedItem> {
    if !line.amount.Given? || !line.informational.Given? || line.tags.Malformed? then None
    else
      Some(ScannedItem(
             OptText(line.name),
             if line.quantity.Some? && line.quantity.value > 0.0 then line.quantity else None,
             if line.unitPrice.Some? && line.unitPrice.value >= 0.0 then Some(ToCents(fl, line.unitPrice.value)) else None,
             ToCents(fl, line.amount.value),
             OptText(line.category),
             line.informational.value,
             SetIfPresent(line.tags, [])))
  }

  /** The items of a reply: a refund's negative lines count as their magnitudes, other negative lines
      are dropped. None if any line is malformed. */
  function Kept(fl: Rounding, lines: seq<Line>, refund: bool): Option<seq<ScannedItem>> {
    if lines == [] then Some([])
    else
      var front, item := Kept(fl, lines[..|lines| - 1], refund), ToItem(fl, lines[|lines| - 1]);
      if front.None? || item.None? then None
      else if item.value.amountCents >= 0 then Some(front.value + [item.value])
      else if refund then Some(front.value + [item.value.(amountCents := -item.value.amountCents)])
      else front
  }

  /** The result parsed from one output, or None where parseResponse throws. */
  function ReadOutput(fl: Rounding, output: Output, knownKind: Option<string>): Option<Parsed> {
    var kind := if knownKind.Some? then Given(knownKind.value) else output.kind;
    if OptText(output.unreadableReason).Some? || !kind.Given? || !output.currency.Given? || !output.total.Given?
       || !output.items.Given?
    then None
    else
      var items := Kept(fl, output.items.value, kind.value == "refund");
      if items.None? then None
      else
        Some(Parsed(ScanResult(kind.value, output.currency.value, Abs(ToCents(fl, output.total.value)),
                               OptText(output.merchant), OptText(output.storeNameRaw), output.purchaseDate, items.value),
                    output.subtotal))
  }

  function FirstText(content: seq<Block>): Option<Block> {
    if content == [] then None
    else if content[0].TextBlock? then Some(content[0])
    else FirstText(content[1..])
  }

  /** parseResponse; every failure is a ScanError. */
  function Read(fl: Rounding, reply: Reply, knownKind: Option<string>): Option<Parsed> {
    if reply.NotAnObject? || reply.stopReason in {"refusal", "max_tokens"} then None
    else
      var text := FirstText(reply.content);
      if text.None? || text.value.OtherBlock? || text.value.output.None? then None
      else ReadOutput(fl, text.value.output.value, knownKind)
  }

  method ParseResponse(fl: Rounding, reply: Reply, knownKind: Option<string>) returns (parsed: Option<Parsed>)
    ensures parsed == Read(fl, reply, knownKind)
  {
    if reply.NotAnObject? || reply.stopReason == "refusal" || reply.stopReason == "max_tokens" {
      return None;
    }
    var text: Option<Block> := None;
    var b := 0;
    while b < |reply.content|
      invariant 0 <= b <= |reply.content| && text == None
      invariant FirstText(reply.content) == FirstText(reply.content[b..])
    {
      if reply.content[b].TextBlock? {
        text := Some(reply.content[b]);
        break;
      }
      b := b + 1;
    }
    if text.None? || text.value.OtherBlock? || text.value.output.None? {
      return None;
    }
    var output := text.value.output.value;
    if OptText(output.unreadableReason).Some? || (knownKind.None? && !output.kind.Given?) || !output.currency.Given?
       || !output.total.Given? || !output.items.Given?
    {
      return None;
    }
    var kind := if knownKind.Some? then knownKind.value else output.kind.value;
    var lines, items := output.items.value, [];
    for i := 0 to |lines|
      invariant Kept(fl, lines[..i], kind == "refund") == Some(items)
    {
      assert lines[..i + 1][..i] == lines[..i];
      var line := ToItem(fl, lines[i]);
      if line.None? {
        KeptPrefix(fl, lines, kind == "refund", i + 1);
        return None;
      }
      var item := line.value;
      if item.amountCents < 0 {
        if kind != "refund" {
          continue;
        }
        item := item.(amountCents := -item.amountCents);
      }
      items := items + [item];
    }
    assert lines[..|lines|] == lines;
    var total := ToCents(fl, output.total.value);
    parsed := Some(Parsed(ScanResult(kind, output.currency.value, if total < 0 then -total else total,
                                     OptText(output.merchant), OptText(output.storeNameRaw), output.purchaseDate, items),
                          output.subtotal));
  }

  /** One malformed line fails the whole reply. */
  lemma {:induction false} KeptPrefix(fl: Rounding, lines: seq<Line>, refund: bool, i: nat)
    requires i <= |lines| && Kept(fl, lines[..i], refund) == None
    ensures Kept(fl, lines, refund) == None
  {
    if i == |lines| {
      assert lines[..i] == lines;
    } else {
      var front := lines[..|lines| - 1];
      assert front[..i] == lines[..i];
      KeptPrefix(fl, front, refund, i);
    }
  }

  // ---- the items add up ----

  function Charged(items: seq<ScannedItem>): int {
    if items == [] then 0
    else
      var last := items[|items| - 1];
      Charged(items[..|items| - 1]) + (if last.informational then 0 else last.amountCents)
  }

  predicate AddUp(fl: Rounding, p: Parsed) {
    || p.result.items == []
    || Charged(p.result.items) == p.result.totalCents
    || (p.subtotal.Some? && Charged(p.result.items) == Abs(ToCents(fl, p.subtotal.value)))
  }

  method ItemsAddUp(fl: Rounding, p: Parsed) returns (ok: bool)
    ensures ok == AddUp(fl, p)
  {
    var items, sum := p.result.items, 0;
    for i := 0 to |items|
      invariant sum == Charged(items[..i])
    {
      assert items[..i + 1][..i] == items[..i];
      if !items[i].informational {
        sum := sum + items[i].amountCents;
      }
    }
    assert items[..|items|] == items;
    var subtotal := None;
    if p.subtotal.Some? {
      var cents := ToCents(fl, p.subtotal.value);
      subtotal := Some(if cents < 0 then -cents else cents);
    }
    ok := items == [] || sum == p.result.totalCents || subtotal == Some(sum);
  }

  // ---- what it means on a printed docket ----

  /** A docket as printed: signed cents per line, and which lines are informational. */
  datatype PrintedLine = PrintedLine(cents: int, informational: bool)

  predicate Representable(n: int) {
    Abs(n) < 0x8_0000_0000_0000
  }

  /** The output reports these printed lines, total and subtotal. */
  ghost predicate Reports(fl: Rounding, output: Output, lines: seq<PrintedLine>, total: int, subtotal: Option<int>) {
    && output.items.Given? && |output.items.value| == |lines|
    && (forall i :: 0 <= i < |lines| ==> ReportsLine(fl, output.items.value[i], lines[i]))
    && Representable(total) && output.total == Given(Printed(fl, total))
    && (if subtotal.None? then output.subtotal == None
        else Representable(subtotal.value) && output.subtotal == Some(Printed(fl, subtotal.value)))
  }

  /** A line counts unless it is a discount on something other than a refund. */
  predicate Counts(line: PrintedLine, refund: bool) {
    refund || line.cents >= 0
  }

  function PrintedSum(lines: seq<PrintedLine>, refund: bool): int {
    if lines == [] then 0
    else
      var last := lines[|lines| - 1];
      PrintedSum(lines[..|lines| - 1], refund)
      + (if Counts(last, refund) && !last.informational then Abs(last.cents) else 0)
  }

  /** The line's item holds exactly the printed cents. */
  ghost predicate ReportsLine(fl: Rounding, line: Line, p: PrintedLine) {
    Representable(p.cents) && line.amount == Given(Printed(fl, p.cents)) && line.informational == Given(p.informational)
  }

  lemma LineIsExact(fl: Rounding, line: Line, p: PrintedLine)
    requires RoundsToNearest(fl) && ReportsLine(fl, line, p) && ToItem(fl, line).Some?
    ensures ToItem(fl, line).value.amountCents == p.cents && ToItem(fl, line).value.informational == p.informational
  {
    PrintedCentsAreExact(fl, p.cents);
  }

  lemma ChargedAppend(items: seq<ScannedItem>, item: ScannedItem)
    ensures Charged(items + [item]) == Charged(items) + if item.informational then 0 else item.amountCents
  {
    assert (items + [item])[..|items|] == items;
  }

  /** What the last line adds to the kept items. */
  lemma LastKept(fl: Rounding, lines: seq<Line>, p: PrintedLine, refund: bool)
    requires RoundsToNearest(fl) && lines != [] && ReportsLine(fl, lines[|lines| - 1], p) && Kept(fl, lines, refund).Some?
    ensures Kept(fl, lines[..|lines| - 1], refund).Some?
    ensures var front, all := Kept(fl, lines[..|lines| - 1], refund).value, Kept(fl, lines, refund).value;
      if Counts(p, refund)
      then all != [] && Charged(all) == Charged(front) + (if p.informational then 0 else Abs(p.cents))
      else all == front
  {
    var line, front := lines[|lines| - 1], Kept(fl, lines[..|lines| - 1], refund).value;
    LineIsExact(fl, line, p);
    var item := ToItem(fl, line).value;
    ChargedAppend(front, item.(amountCents := Abs(item.amountCents)));
  }

  lemma {:induction false} KeptOfPrinted(fl: Rounding, lines: seq<Line>, printed: seq<PrintedLine>, refund: bool)
    requires RoundsToNearest(fl) && |lines| == |printed|
    requires forall i :: 0 <= i < |lines| ==> ReportsLine(fl, lines[i], printed[i])
    requires Kept(fl, lines, refund).Some?
    ensures Charged(Kept(fl, lines, refund).value) == PrintedSum(printed, refund)
    ensures Kept(fl, lines, refund).value == [] <==> NoneCount(printed, refund)
  {
    if lines != [] {
      var n := |lines| - 1;
      LastKept(fl, lines, printed[n], refund);
      KeptOfPrinted(fl, lines[..n], printed[..n], refund);
      LastCounts(printed, refund);
    }
  }

  predicate NoneCount(lines: seq<PrintedLine>, refund: bool) {
    forall i :: 0 <= i < |lines| ==> !Counts(lines[i], refund)
  }

  lemma LastCounts(lines: seq<PrintedLine>, refund: bool)
    requires lines != []
    ensures NoneCount(lines, refund) <==> NoneCount(lines[..|lines| - 1], refund) && !Counts(lines[|lines| - 1], refund)
  {
    var front := lines[..|lines| - 1];
    if NoneCount(lines, refund) {
      forall i | 0 <= i < |front| ensures !Counts(front[i], refund) {
        assert front[i] == lines[i];
      }
    }
  }

  /** The rescan decision compares the docket's printed amounts exactly: no sum is off by a rounding,
      and none matches by one. */
  lemma AddUpIsExact(fl: Rounding, output: Output, knownKind: Option<string>, lines: seq<PrintedLine>, total: int, subtotal: Option<int>)
    requires RoundsToNearest(fl) && Reports(fl, output, lines, total, subtotal)
    requires ReadOutput(fl, output, knownKind).Some?
    ensures var p := ReadOutput(fl, output, knownKind).value;
      var refund := p.result.kind == "refund";
      && p.result.totalCents == Abs(total)
      && (AddUp(fl, p) <==>
            || NoneCount(lines, refund)
            || PrintedSum(lines, refund) == Abs(total)
            || (subtotal.Some? && PrintedSum(lines, refund) == Abs(subtotal.value)))
  {
    var p := ReadOutput(fl, output, knownKind).value;
    KeptOfPrinted(fl, output.items.value, lines, p.result.kind == "refund");
    PrintedCentsAreExact(fl, total);
    if subtotal.Some? { PrintedCentsAreExact(fl, subtotal.value); }
  }

  // ---- what validateResult can still object to ----

  lemma {:induction false} KeptAreUsable(fl: Rounding, lines: seq<Line>, refund: bool, i: nat)
    requires RoundsToNearest(fl) && Kept(fl, lines, refund).Some? && i < |Kept(fl, lines, refund).value|
    ensures UsableItem(Kept(fl, lines, refund).value[i])
  {
    var n := |lines| - 1;
    var kept := Kept(fl, lines[..n], refund).value;
    if lines[n].unitPrice.Some? && lines[n].unitPrice.value >= 0.0 {
      NonNegativeCents(fl, lines[n].unitPrice.value);
    }
    if i < |kept| { KeptAreUsable(fl, lines[..n], refund, i); }
  }

  /** Amounts never fail a parsed reply: of what validateResult checks, only the kind, the currency and
      the date can still be refused. */
  lemma ParsedAmountsAreUsable(fl: Rounding, reply: Reply, knownKind: Option<string>, verifying: bool)
    requires RoundsToNearest(fl) && Read(fl, reply, knownKind).Some?
    ensures var result := Read(fl, reply, knownKind).value.result;
      ValidateResult(result, verifying).Some? <==>
      (verifying || Extractable(result.kind)) && CurrencyCode(result.currency) && !result.purchaseDate.Malformed?
  {
    var output := FirstText(reply.content).value.output.value;
    var result := Read(fl, reply, knownKind).value.result;
    forall i | 0 <= i < |result.items| ensures UsableItem(result.items[i]) {
      KeptAreUsable(fl, output.items.value, result.kind == "refund", i);
    }
  }

  // ---- what a reply is read as, field by field ----

  /** There is text, and not only white space. */
  predicate HasText(text: Option<string>) {
    text.Some? && exists i :: 0 <= i < |text.value| && text.value[i] != ' ' && text.value[i] != '\t'
                              && text.value[i] != '\r' && text.value[i] != '\n'
  }

  predicate TextOf(text: Option<string>, read: Option<string>) {
    read == if HasText(text) then text else None
  }

  lemma OptTextMeaning(text: Option<string>)
    ensures TextOf(text, OptText(text)) && (OptText(text).Some? <==> HasText(text))
  {
  }

  predicate LineDecodes(line: Line) {
    line.amount.Given? && line.informational.Given? && !line.tags.Malformed?
  }

  /** The line as an item: texts that are there, a positive quantity, a price that is not negative, and
      the magnitude of the amount. */
  predicate ReadsLine(fl: Rounding, line: Line, item: ScannedItem) {
    && LineDecodes(line)
    && TextOf(line.name, item.name) && TextOf(line.category, item.category)
    && item.quantity == (if line.quantity.Some? && line.quantity.value > 0.0 then line.quantity else None)
    && (match line.unitPrice
        case None => item.unitPriceCents == None
        case Some(price) => item.unitPriceCents == (if price < 0.0 then None else Some(ToCents(fl, price))))
    && item.amountCents >= 0
    && (item.amountCents == ToCents(fl, line.amount.value) || item.amountCents == -ToCents(fl, line.amount.value))
    && item.informational == line.informational.value
    && item.tags == (if line.tags.Given? then line.tags.value else [])
  }

  /** A line is left out exactly if it is negative and this is no refund. */
  predicate LeftOut(fl: Rounding, line: Line, refund: bool) {
    !refund && line.amount.Given? && ToCents(fl, line.amount.value) < 0
  }

  /** Where the kept items stand among the lines. */
  function KeptAt(fl: Rounding, lines: seq<Line>, refund: bool): (at: seq<nat>)
    ensures forall i :: 0 <= i < |at| ==> at[i] < |lines|
  {
    if lines == [] then []
    else
      var n := |lines| - 1;
      var front := KeptAt(fl, lines[..n], refund);
      if LeftOut(fl, lines[n], refund) then front else front + [n]
  }

  /** The items are the lines not left out, in their order, each read as above. */
  ghost predicate KeepsLines(fl: Rounding, lines: seq<Line>, refund: bool, items: seq<ScannedItem>, at: seq<nat>) {
    && |at| == |items|
    && (forall i, j :: 0 <= i < j < |at| ==> at[i] < at[j])
    && (forall i :: 0 <= i < |at| ==> at[i] < |lines| && ReadsLine(fl, lines[at[i]], items[i]))
    && forall l :: 0 <= l < |lines| ==> LineDecodes(lines[l]) && (l in at <==> !LeftOut(fl, lines[l], refund))
  }

  lemma {:induction false} KeptMeaning(fl: Rounding, lines: seq<Line>, refund: bool)
    ensures Kept(fl, lines, refund).Some? <==> forall l :: 0 <= l < |lines| ==> LineDecodes(lines[l])
    ensures Kept(fl, lines, refund).Some? ==>
      KeepsLines(fl, lines, refund, Kept(fl, lines, refund).value, KeptAt(fl, lines, refund))
  {
    if lines != [] {
      var n := |lines| - 1;
      var front := lines[..n];
      KeptMeaning(fl, front, refund);
      forall l | 0 <= l < n ensures front[l] == lines[l] {}
      LastLineMeaning(fl, lines[n]);
      if Kept(fl, lines, refund).Some? {
        KeptOneMore(fl, lines, refund, Kept(fl, front, refund).value, KeptAt(fl, front, refund));
      }
    }
  }

  lemma LastLineMeaning(fl: Rounding, line: Line)
    ensures ToItem(fl, line).Some? <==> LineDecodes(line)
    ensures LineDecodes(line) ==>
      var item := ToItem(fl, line).value;
      item.amountCents == ToCents(fl, line.amount.value) && ReadsLine(fl, line, item.(amountCents := Abs(item.amountCents)))
  {
    OptTextMeaning(line.name);
    OptTextMeaning(line.category);
  }

  /** The kept items but for the last line, and where they stand. */
  lemma KeptShape(fl: Rounding, lines: seq<Line>, refund: bool)
    requires lines != [] && Kept(fl, lines, refund).Some?
    ensures var n := |lines| - 1;
      && Kept(fl, lines[..n], refund).Some? && LineDecodes(lines[n]) && ToItem(fl, lines[n]).Some?
      && var items, at, item := Kept(fl, lines[..n], refund).value, KeptAt(fl, lines[..n], refund), ToItem(fl, lines[n]).value;
         if LeftOut(fl, lines[n], refund) then Kept(fl, lines, refund).value == items && KeptAt(fl, lines, refund) == at
         else Kept(fl, lines, refund).value == items + [item.(amountCents := Abs(item.amountCents))]
              && KeptAt(fl, lines, refund) == at + [n]
  {
    LastLineMeaning(fl, lines[|lines| - 1]);
  }

  lemma KeptOneMore(fl: Rounding, lines: seq<Line>, refund: bool, items: seq<ScannedItem>, at: seq<nat>)
    requires lines != [] && Kept(fl, lines, refund).Some? && Kept(fl, lines[..|lines| - 1], refund) == Some(items)
    requires at == KeptAt(fl, lines[..|lines| - 1], refund)
    requires KeepsLines(fl, lines[..|lines| - 1], refund, items, at)
    ensures KeepsLines(fl, lines, refund, Kept(fl, lines, refund).value, KeptAt(fl, lines, refund))
  {
    KeptShape(fl, lines, refund);
    LastLineMeaning(fl, lines[|lines| - 1]);
    var item := ToItem(fl, lines[|lines| - 1]).value;
    KeepsOneMore(fl, lines, refund, items, at, item.(amountCents := Abs(item.amountCents)));
  }

  lemma KeepsOneMore(fl: Rounding, lines: seq<Line>, refund: bool, items: seq<ScannedItem>, at: seq<nat>, item: ScannedItem)
    requires lines != [] && ReadsLine(fl, lines[|lines| - 1], item)
    requires KeepsLines(fl, lines[..|lines| - 1], refund, items, at)
    ensures if LeftOut(fl, lines[|lines| - 1], refund) then KeepsLines(fl, lines, refund, items, at)
            else KeepsLines(fl, lines, refund, items + [item], at + [|lines| - 1])
  {
    var n := |lines| - 1;
    var front := lines[..n];
    forall l | 0 <= l < n ensures lines[l] == front[l] {}
    if !LeftOut(fl, lines[n], refund) {
      var all, allAt := items + [item], at + [n];
      forall i | 0 <= i < |allAt| ensures allAt[i] < |lines| && ReadsLine(fl, lines[allAt[i]], all[i]) {
        if i < |at| { assert allAt[i] == at[i] && all[i] == items[i] && front[at[i]] == lines[at[i]]; }
      }
      forall l | 0 <= l < |lines| ensures l in allAt <==> !LeftOut(fl, lines[l], refund) {
        if l < n { assert l in allAt <==> l in at; }
      }
    }
  }

  /** Every required key is there and of its type, and nothing says the document is unreadable. */
  predicate OutputDecodes(o: Output, knownKind: Option<string>) {
    && !HasText(o.unreadableReason) && (knownKind.Some? || o.kind.Given?) && o.currency.Given? && o.total.Given?
    && o.items.Given? && forall l :: 0 <= l < |o.items.value| ==> LineDecodes(o.items.value[l])
  }

  /** The output as a result: a known kind before the reply's own, the magnitude of the total, the texts
      that are there, the kept lines. */
  ghost predicate ReadsAs(fl: Rounding, o: Output, knownKind: Option<string>, p: Parsed) {
    && OutputDecodes(o, knownKind)
    && p.result.kind == (if knownKind.Some? then knownKind.value else o.kind.value)
    && p.result.currency == o.currency.value
    && p.result.totalCents >= 0
    && (p.result.totalCents == ToCents(fl, o.total.value) || p.result.totalCents == -ToCents(fl, o.total.value))
    && TextOf(o.merchant, p.result.merchant) && TextOf(o.storeNameRaw, p.result.storeNameRaw)
    && p.result.purchaseDate == o.purchaseDate
    && p.subtotal == o.subtotal
    && KeepsLines(fl, o.items.value, p.result.kind == "refund", p.result.items, KeptAt(fl, o.items.value, p.result.kind == "refund"))
  }

  lemma OutputMeaning(fl: Rounding, o: Output, knownKind: Option<string>)
    ensures ReadOutput(fl, o, knownKind).Some? <==> OutputDecodes(o, knownKind)
    ensures ReadOutput(fl, o, knownKind).Some? ==> ReadsAs(fl, o, knownKind, ReadOutput(fl, o, knownKind).value)
  {
    OptTextMeaning(o.unreadableReason);
    OptTextMeaning(o.merchant);
    OptTextMeaning(o.storeNameRaw);
    if o.items.Given? {
      KeptMeaning(fl, o.items.value, true);
      KeptMeaning(fl, o.items.value, false);
    }
  }

  /** The first block of text, if there is one. */
  predicate FirstTextAt(content: seq<Block>, b: nat) {
    b < |content| && content[b].TextBlock? && forall a :: 0 <= a < b ==> content[a].OtherBlock?
  }

  lemma {:induction false} FirstTextMeaning(content: seq<Block>, b: nat)
    ensures FirstTextAt(content, b) ==> FirstText(content) == Some(content[b])
    ensures FirstText(content).Some? ==> exists a: nat :: FirstTextAt(content, a) && FirstText(content) == Some(content[a])
  {
    if content != [] && content[0].OtherBlock? {
      FirstTextMeaning(content[1..], if b > 0 then b - 1 else 0);
      if FirstText(content).Some? {
        var a: nat :| FirstTextAt(content[1..], a) && FirstText(content[1..]) == Some(content[1..][a]);
        forall x | 0 <= x < a + 1 ensures content[x].OtherBlock? {
          if x > 0 { assert content[x] == content[1..][x - 1]; }
        }
        assert FirstTextAt(content, a + 1);
      }
      if FirstTextAt(content, b) {
        forall x | 0 <= x < b - 1 ensures content[1..][x].OtherBlock? { assert content[1..][x] == content[x + 1]; }
        assert FirstTextAt(content[1..], b - 1);
      }
    } else if content != [] {
      assert FirstTextAt(content, 0);
    }
  }

  /** A reply is read exactly when it is an object, was neither refused nor cut off, and its first text is
      an output that decodes; and then it is read as that output says. */
  lemma ReadMeaning(fl: Rounding, reply: Reply, knownKind: Option<string>)
    ensures Read(fl, reply, knownKind).Some? <==>
            && reply.Reply? && reply.stopReason != "refusal" && reply.stopReason != "max_tokens"
            && exists b: nat :: FirstTextAt(reply.content, b) && reply.content[b].output.Some?
                                && OutputDecodes(reply.content[b].output.value, knownKind)
    ensures Read(fl, reply, knownKind).Some? ==>
            exists b: nat :: FirstTextAt(reply.content, b) && reply.content[b].output.Some?
                             && ReadsAs(fl, reply.content[b].output.value, knownKind, Read(fl, reply, knownKind).value)
  {
    if reply.Reply? {
      FirstTextMeaning(reply.content, 0);
      if b: nat :| FirstTextAt(reply.content, b) {
        FirstTextMeaning(reply.content, b);
        if reply.content[b].output.Some? { OutputMeaning(fl, reply.content[b].output.value, knownKind); }
        forall a: nat | FirstTextAt(reply.content, a) ensures a == b {}
      }
    }
  }
}
