/** The receipt encoder: `buildReceipt` turns a sale into one contiguous ESC/POS buffer. */
module Receipt {
  import opened Bytes
  import opened Format
  import Utf8
  import opened Commands

  /** A sold line. `price` is in cents; `quantity` is a whole number. */
  datatype SaleItem = SaleItem(name: string, price: int, quantity: int)

  /** One tender of a sale; `methodName` is the payment method's label. */
  datatype Payment = Payment(methodName: string, amount: int)

  /** The fields of a sale the receipt prints; amounts in cents, `date` as stored. */
  datatype Sale = Sale(id: string, date: string, items: seq<SaleItem>, total: int,
                       payments: seq<Payment>, change: int)

  datatype BusinessInfo = BusinessInfo(name: string, location: string, phone: string, kraPin: string)
  datatype ReceiptSettings = ReceiptSettings(footer: string)
  datatype Settings = Settings(businessInfo: BusinessInfo, receipt: ReceiptSettings)

  /** An element of the encoder's `lines` array: text still to be encoded, or raw opcode bytes. */
  datatype Segment = Text(text: string) | Raw(bytes: seq<byte>)

  /** The 32-dash rule line. */
  const Rule: string := "--------------------------------\n"

  /** Width an item name is padded to. */
  const NameWidth: nat := 20

  function ItemLine(item: SaleItem): string
  {
    PadEnd(item.name, NameWidth) + " " + IntToString(item.quantity) + " x "
    + FixedCents(item.price * item.quantity) + "\n"
  }

  function PaymentLine(p: Payment): string
  {
    p.methodName + ": " + FixedCents(p.amount) + "\n"
  }

  /** Everything pushed before the items: the opcode, the business, the sale's identity. */
  function HeaderLines(sale: Sale, settings: Settings, cashierName: string,
                       localeDate: string -> string): seq<Segment>
  {
    var b := settings.businessInfo;
    [ Raw(HW_INIT),
      Text(b.name + "\n"),
      Text(b.location + "\n"),
      Text("Tel: " + b.phone + "\n"),
      Text("PIN: " + b.kraPin + "\n"),
      Text(Rule),
      Text("Date: " + localeDate(sale.date) + "\n"),
      Text("Receipt: " + sale.id + "\n"),
      Text("Cashier: " + cashierName + "\n"),
      Text(Rule) ]
  }

  function ItemLines(items: seq<SaleItem>): seq<Segment>
  {
    seq(|items|, k requires 0 <= k < |items| => Text(ItemLine(items[k])))
  }

  function TotalLines(sale: Sale): seq<Segment>
  {
    [Text(Rule), Text("TOTAL: KSH " + FixedCents(sale.total) + "\n"), Text(Rule)]
  }

  function PaymentLines(payments: seq<Payment>): seq<Segment>
  {
    seq(|payments|, k requires 0 <= k < |payments| => Text(PaymentLine(payments[k])))
  }

  function ChangeLines(sale: Sale): seq<Segment>
  {
    if sale.change > 0 then [Text("Change: " + FixedCents(sale.change) + "\n")] else []
  }

  function FooterLines(settings: Settings): seq<Segment>
  {
    [Text("\n"), Text(settings.receipt.footer + "\n\n\n")]
  }

  /** The `lines` array once every push has been made. */
  function ReceiptLines(sale: Sale, settings: Settings, cashierName: string,
                        localeDate: string -> string): seq<Segment>
  {
    HeaderLines(sale, settings, cashierName, localeDate) + ItemLines(sale.items) + TotalLines(sale)
    + PaymentLines(sale.payments) + ChangeLines(sale) + FooterLines(settings)
  }

  /** Text goes through the encoder; opcode bytes are kept verbatim. */
  function EncodeSegment(s: Segment): seq<byte>
  {
    match s
    case Text(t) => Utf8.Encode(t)
    case Raw(b) => b
  }

  function EncodeAll(lines: seq<Segment>): seq<seq<byte>>
  {
    seq(|lines|, k requires 0 <= k < |lines| => EncodeSegment(lines[k]))
  }

  /** `finalCommands`: the encoded lines followed by the full-cut opcode. */
  function FinalCommands(sale: Sale, settings: Settings, cashierName: string,
                         localeDate: string -> string): seq<seq<byte>>
  {
    EncodeAll(ReceiptLines(sale, settings, cashierName, localeDate)) + [PAPER_FULL_CUT]
  }

  /** The buffer `buildReceipt` returns. */
  function ReceiptBytes(sale: Sale, settings: Settings, cashierName: string,
                        localeDate: string -> string): seq<byte>
  {
    Flatten(FinalCommands(sale, settings, cashierName, localeDate))
  }

  /** `Uint8Array.prototype.set`: copy `source` into `target` starting at `offset`. */
  method Set(target: array<byte>, source: seq<byte>, offset: nat)
    requires offset + |source| <= target.Length
    modifies target
    ensures target[..] == old(target[..offset]) + source + old(target[offset + |source|..])
  {
    forall k | 0 <= k < |source| {
      target[offset + k] := source[k];
    }
  }

  lemma ItemLinesSnoc(items: seq<SaleItem>, i: nat)
    requires i < |items|
    ensures ItemLines(items[..i + 1]) == ItemLines(items[..i]) + [Text(ItemLine(items[i]))]
  {
    var a, b := ItemLines(items[..i + 1]), ItemLines(items[..i]) + [Text(ItemLine(items[i]))];
    forall k | 0 <= k < |a|
      ensures a[k] == b[k]
    {
      assert items[..i + 1][k] == items[k];
    }
  }

  lemma PaymentLinesSnoc(payments: seq<Payment>, i: nat)
    requires i < |payments|
    ensures PaymentLines(payments[..i + 1]) == PaymentLines(payments[..i]) + [Text(PaymentLine(payments[i]))]
  {
    var a, b := PaymentLines(payments[..i + 1]), PaymentLines(payments[..i]) + [Text(PaymentLine(payments[i]))];
    forall k | 0 <= k < |a|
      ensures a[k] == b[k]
    {
      assert payments[..i + 1][k] == payments[k];
    }
  }

  /** `sale.items.forEach(item => lines.push(...))`. */
  method PushItems(lines: seq<Segment>, items: seq<SaleItem>) returns (pushed: seq<Segment>)
    ensures pushed == lines + ItemLines(items)
  {
    pushed := lines;
    var i := 0;
    while i < |items|
      invariant 0 <= i <= |items|
      invariant pushed == lines + ItemLines(items[..i])
    {
      ItemLinesSnoc(items, i);
      pushed := pushed + [Text(ItemLine(items[i]))];
      i := i + 1;
    }
    assert items[..i] == items;
  }

  /** `sale.payments.forEach(p => lines.push(...))`. */
  method PushPayments(lines: seq<Segment>, payments: seq<Payment>) returns (pushed: seq<Segment>)
    ensures pushed == lines + PaymentLines(payments)
  {
    pushed := lines;
    var i := 0;
    while i < |payments|
      invariant 0 <= i <= |payments|
      invariant pushed == lines + PaymentLines(payments[..i])
    {
      PaymentLinesSnoc(payments, i);
      pushed := pushed + [Text(PaymentLine(payments[i]))];
      i := i + 1;
    }
    assert payments[..i] == payments;
  }

  /** The pushes of `buildReceipt`, in order. */
  method PushLines(sale: Sale, settings: Settings, cashierName: string,
                   localeDate: string -> string) returns (lines: seq<Segment>)
    ensures lines == ReceiptLines(sale, settings, cashierName, localeDate)
  {
    lines := HeaderLines(sale, settings, cashierName, localeDate);
    lines := PushItems(lines, sale.items);
    lines := lines + TotalLines(sale);
    lines := PushPayments(lines, sale.payments);
    if sale.change > 0 {
      lines := lines + [Text("Change: " + FixedCents(sale.change) + "\n")];
    }
    lines := lines + FooterLines(settings);
  }

  /** `lines.map(...)`: encode text, keep opcode bytes. */
  method EncodeLines(lines: seq<Segment>) returns (encoded: seq<seq<byte>>)
    ensures encoded == EncodeAll(lines)
  {
    encoded := [];
    var i := 0;
    while i < |lines|
      invariant 0 <= i <= |lines|
      invariant encoded == EncodeAll(lines[..i])
    {
      encoded := encoded + [EncodeSegment(lines[i])];
      i := i + 1;
    }
    assert lines[..i] == lines;
  }

  /** `parts.reduce((acc, val) => acc + val.length, 0)`. */
  method SumLengths(parts: seq<seq<byte>>) returns (total: nat)
    ensures total == |Flatten(parts)|
  {
    total := 0;
    var i := 0;
    while i < |parts|
      invariant 0 <= i <= |parts|
      invariant total == TotalLength(parts[..i])
    {
      assert parts[..i + 1][..i] == parts[..i];
      total := total + |parts[i]|;
      i := i + 1;
    }
    assert parts[..i] == parts;
    FlattenLength(parts);
  }

  /** Allocate `combined` and copy every part in at a running `offset`. */
  method Combine(parts: seq<seq<byte>>, totalLength: nat) returns (combined: array<byte>)
    requires totalLength == |Flatten(parts)|
    ensures fresh(combined)
    ensures combined[..] == Flatten(parts)
  {
    FlattenLength(parts);
    combined := new byte[totalLength];
    var offset := 0;
    var i := 0;
    while i < |parts|
      invariant 0 <= i <= |parts|
      invariant offset == TotalLength(parts[..i]) <= combined.Length
      invariant combined[..offset] == Flatten(parts[..i])
    {
      PartAt(parts, i);
      ghost var before := combined[..offset];
      Set(combined, parts[i], offset);
      assert combined[..offset + |parts[i]|] == before + parts[i];
      assert parts[..i + 1] == parts[..i] + [parts[i]];
      FlattenSnoc(parts[..i], parts[i]);
      offset := offset + |parts[i]|;
      i := i + 1;
    }
    assert parts[..i] == parts;
  }

  /** `buildReceipt`. `localeDate` stands for `new Date(d).toLocaleString()` in the
      host's locale. The contents of the returned `Uint8Array` are given as a sequence. */
  method BuildReceipt(sale: Sale, settings: Settings, cashierName: string,
                      localeDate: string -> string) returns (receipt: seq<byte>)
    ensures receipt == ReceiptBytes(sale, settings, cashierName, localeDate)
  {
    var lines := PushLines(sale, settings, cashierName, localeDate);
    var encodedLines := EncodeLines(lines);
    var finalCommands := encodedLines + [PAPER_FULL_CUT];
    var totalLength := SumLengths(finalCommands);
    var combined := Combine(finalCommands, totalLength);
    receipt := combined[..];
  }
}
