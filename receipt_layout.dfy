/** What `buildReceipt` promises about the receipt: where each line sits, which lines
    are rules, when the change line appears, and how the bytes are framed. */
module ReceiptLayout {
  import opened Bytes
  import opened Format
  import opened Commands
  import opened Receipt

  /** The `lines` array is the header (10 lines), one line per item, the totals block
      (3 lines), one line per payment, the optional change line and the footer (2 lines). */
  lemma Layout(sale: Sale, settings: Settings, cashierName: string, localeDate: string -> string)
    ensures var lines := ReceiptLines(sale, settings, cashierName, localeDate);
      var n, m := |sale.items|, |sale.payments|;
      && |lines| == 15 + n + m + |ChangeLines(sale)|
      && lines[..10] == HeaderLines(sale, settings, cashierName, localeDate)
      && lines[10..10 + n] == ItemLines(sale.items)
      && lines[10 + n..13 + n] == TotalLines(sale)
      && lines[13 + n..13 + n + m] == PaymentLines(sale.payments)
      && lines[13 + n + m..|lines| - 2] == ChangeLines(sale)
      && lines[|lines| - 2..] == FooterLines(settings)
      && lines[13 + n..] == PaymentLines(sale.payments) + ChangeLines(sale) + FooterLines(settings)
  {
    var header := HeaderLines(sale, settings, cashierName, localeDate);
    var items := ItemLines(sale.items);
    var totals := TotalLines(sale);
    var pays := PaymentLines(sale.payments);
    var change := ChangeLines(sale);
    var footer := FooterLines(settings);
    var a := header + items;
    var b := a + totals;
    var c := b + pays;
    var d := c + change;
    var lines := d + footer;
    assert lines == ReceiptLines(sale, settings, cashierName, localeDate);
    assert lines[..|d|] == d && lines[|d|..] == footer;
    assert d[..|c|] == c && d[|c|..] == change;
    assert c[..|b|] == b && c[|b|..] == pays;
    assert b[..|a|] == a && b[|a|..] == totals;
    assert a[..|header|] == header && a[|header|..] == items;
    assert lines[..10] == header;
    assert lines == b + (pays + change + footer);
    assert lines[|b|..] == pays + change + footer;
  }

  /** An item line is the name padded with spaces to 20 columns (a longer name is
      kept whole), one more space, then the quantity, " x " and the line total. */
  lemma ItemLineShape(item: SaleItem)
    ensures var line, name := ItemLine(item), item.name;
      var w := if |name| < NameWidth then NameWidth else |name|;
      && |line| > w + 1
      && line[..|name|] == name
      && (forall j :: |name| <= j <= w ==> line[j] == ' ')
      && line[w + 1..] == IntToString(item.quantity) + " x " + FixedCents(item.price * item.quantity) + "\n"
  {
    var padded := PadEnd(item.name, NameWidth);
    SplitAfterPad(padded, " ", IntToString(item.quantity), " x ", FixedCents(item.price * item.quantity), "\n");
  }

  /** Cutting a six-part concatenation behind its first two parts. */
  lemma SplitAfterPad(p: string, sp: string, q: string, x: string, m: string, nl: string)
    ensures var s := p + sp + q + x + m + nl;
      s[..|p|] == p && s[|p| + |sp|..] == q + x + m + nl
  {
    var s := p + sp + q + x + m + nl;
    assert s == p + sp + (q + x + m + nl);
  }

  /** Exactly one line per sale item, in the order of `sale.items`. */
  lemma ItemsInOrder(sale: Sale, settings: Settings, cashierName: string,
                     localeDate: string -> string, k: nat)
    requires k < |sale.items|
    ensures ReceiptLines(sale, settings, cashierName, localeDate)[10 + k] == Text(ItemLine(sale.items[k]))
  {
    Layout(sale, settings, cashierName, localeDate);
    var lines := ReceiptLines(sale, settings, cashierName, localeDate);
    assert lines[10 + k] == lines[10..10 + |sale.items|][k];
  }

  /** Exactly one line per payment, in the order of `sale.payments`: the method's
      label, ": " and the amount. */
  lemma PaymentsInOrder(sale: Sale, settings: Settings, cashierName: string,
                        localeDate: string -> string, k: nat)
    requires k < |sale.payments|
    ensures ReceiptLines(sale, settings, cashierName, localeDate)[13 + |sale.items| + k]
         == Text(PaymentLine(sale.payments[k]))
  {
    Layout(sale, settings, cashierName, localeDate);
    var lines := ReceiptLines(sale, settings, cashierName, localeDate);
    var n, m := |sale.items|, |sale.payments|;
    var pays := lines[13 + n..13 + n + m];
    assert lines[13 + n + k] == pays[k];
  }

  /** The change line follows the payments if and only if the change is positive;
      otherwise the footer follows them directly. */
  lemma ChangeLinePresence(sale: Sale, settings: Settings, cashierName: string,
                           localeDate: string -> string)
    ensures var lines := ReceiptLines(sale, settings, cashierName, localeDate);
      var after := 13 + |sale.items| + |sale.payments|;
      && |lines| == after + (if sale.change > 0 then 3 else 2)
      && (sale.change > 0 <==> lines[after] == Text("Change: " + FixedCents(sale.change) + "\n"))
      && (sale.change <= 0 ==> lines[after] == Text("\n"))
  {
    Layout(sale, settings, cashierName, localeDate);
    var lines := ReceiptLines(sale, settings, cashierName, localeDate);
    var after := 13 + |sale.items| + |sale.payments|;
    if sale.change > 0 {
      assert lines[after] == lines[after..|lines| - 2][0];
    } else {
      assert lines[after] == lines[|lines| - 2..][0];
      assert "Change: "[0] != '\n';
    }
  }

  lemma RuleCharacters()
    ensures |Rule| == 33 && Rule[0] == '-' && Rule[31] == '-'
    ensures forall j :: 0 <= j < |Rule| ==> Rule[j] == '-' || Rule[j] == '\n'
  {
  }

  /** A line that has a space somewhere is not a rule. */
  lemma SpacedIsNotRule(s: string, j: nat)
    requires j < |s| && s[j] == ' '
    ensures s != Rule
  {
    RuleCharacters();
  }

  /** Which header lines are rules. */
  lemma HeaderRules(sale: Sale, settings: Settings, cashierName: string,
                    localeDate: string -> string, i: nat)
    requires i < 10
    ensures var b := settings.businessInfo;
      HeaderLines(sale, settings, cashierName, localeDate)[i] == Text(Rule)
      <==> i == 5 || i == 9 || (i == 1 && b.name + "\n" == Rule) || (i == 2 && b.location + "\n" == Rule)
  {
    RuleCharacters();
  }

  /** Which lines of the totals block, counted from its start, are rules. */
  lemma TotalRules(sale: Sale, i: nat)
    requires i < 3
    ensures TotalLines(sale)[i] == Text(Rule) <==> i != 1
  {
    RuleCharacters();
  }

  /** The lines after the totals block are never rules. */
  lemma TailHasNoRule(sale: Sale, settings: Settings, i: nat)
    requires i < |PaymentLines(sale.payments) + ChangeLines(sale) + FooterLines(settings)|
    ensures (PaymentLines(sale.payments) + ChangeLines(sale) + FooterLines(settings))[i] != Text(Rule)
  {
    var m := |sale.payments|;
    var tail := PaymentLines(sale.payments) + ChangeLines(sale) + FooterLines(settings);
    RuleCharacters();
    if i < m {
      var p := sale.payments[i];
      var line := p.methodName + ": " + FixedCents(p.amount) + "\n";
      assert tail[i] == Text(line);
      assert line[|p.methodName| + 1] == ' ';
      SpacedIsNotRule(line, |p.methodName| + 1);
    } else if i == |tail| - 1 {
      var f := settings.receipt.footer + "\n\n\n";
      assert tail[i] == Text(f);
      assert f[|f| - 2] == '\n';
    } else if i == |tail| - 2 {
      assert tail[i] == Text("\n");
    } else {
      assert tail[i] == Text("Change: " + FixedCents(sale.change) + "\n");
    }
  }

  /** Item lines are never rules. */
  lemma ItemIsNotRule(item: SaleItem)
    ensures ItemLine(item) != Rule
  {
    ItemLineShape(item);
    var w := if |item.name| < NameWidth then NameWidth else |item.name|;
    SpacedIsNotRule(ItemLine(item), w);
  }

  lemma HeaderLineAt(sale: Sale, settings: Settings, cashierName: string,
                     localeDate: string -> string, i: nat)
    requires i < 10
    ensures ReceiptLines(sale, settings, cashierName, localeDate)[i]
         == HeaderLines(sale, settings, cashierName, localeDate)[i]
  {
    Layout(sale, settings, cashierName, localeDate);
    var lines := ReceiptLines(sale, settings, cashierName, localeDate);
    assert lines[i] == lines[..10][i];
  }

  lemma TotalLineAt(sale: Sale, settings: Settings, cashierName: string,
                    localeDate: string -> string, i: nat)
    requires i < 3
    ensures ReceiptLines(sale, settings, cashierName, localeDate)[10 + |sale.items| + i]
         == TotalLines(sale)[i]
  {
    Layout(sale, settings, cashierName, localeDate);
    var lines := ReceiptLines(sale, settings, cashierName, localeDate);
    var n := |sale.items|;
    assert lines[10 + n + i] == lines[10 + n..13 + n][i];
  }

  lemma TailLineAt(sale: Sale, settings: Settings, cashierName: string,
                   localeDate: string -> string, i: nat)
    requires 13 + |sale.items| + i < |ReceiptLines(sale, settings, cashierName, localeDate)|
    ensures i < |PaymentLines(sale.payments) + ChangeLines(sale) + FooterLines(settings)|
    ensures ReceiptLines(sale, settings, cashierName, localeDate)[13 + |sale.items| + i]
         == (PaymentLines(sale.payments) + ChangeLines(sale) + FooterLines(settings))[i]
  {
    Layout(sale, settings, cashierName, localeDate);
    var lines := ReceiptLines(sale, settings, cashierName, localeDate);
    var n := |sale.items|;
    assert lines[13 + n + i] == lines[13 + n..][i];
  }

  /** The four rules stand after the PIN line, after the Cashier line, after the items
      and after the total. No other line is a rule, unless the business name or
      location is itself 32 dashes. */
  lemma RulePositions(sale: Sale, settings: Settings, cashierName: string,
                      localeDate: string -> string, i: nat)
    requires i < |ReceiptLines(sale, settings, cashierName, localeDate)|
    ensures var n, b := |sale.items|, settings.businessInfo;
      ReceiptLines(sale, settings, cashierName, localeDate)[i] == Text(Rule)
      <==> || i == 5 || i == 9 || i == 10 + n || i == 12 + n
           || (i == 1 && b.name + "\n" == Rule)
           || (i == 2 && b.location + "\n" == Rule)
  {
    var n := |sale.items|;
    if i < 10 {
      HeaderLineAt(sale, settings, cashierName, localeDate, i);
      HeaderRules(sale, settings, cashierName, localeDate, i);
    } else if i < 10 + n {
      ItemLineIsNotRule(sale, settings, cashierName, localeDate, i - 10);
    } else if i < 13 + n {
      TotalLineIsRule(sale, settings, cashierName, localeDate, i - 10 - n);
    } else {
      TailLineIsNotRule(sale, settings, cashierName, localeDate, i - 13 - n);
    }
  }

  lemma ItemLineIsNotRule(sale: Sale, settings: Settings, cashierName: string,
                          localeDate: string -> string, k: nat)
    requires k < |sale.items|
    ensures ReceiptLines(sale, settings, cashierName, localeDate)[10 + k] != Text(Rule)
  {
    ItemsInOrder(sale, settings, cashierName, localeDate, k);
    ItemIsNotRule(sale.items[k]);
  }

  lemma TotalLineIsRule(sale: Sale, settings: Settings, cashierName: string,
                        localeDate: string -> string, k: nat)
    requires k < 3
    ensures ReceiptLines(sale, settings, cashierName, localeDate)[10 + |sale.items| + k] == Text(Rule)
        <==> k != 1
  {
    TotalLineAt(sale, settings, cashierName, localeDate, k);
    TotalRules(sale, k);
  }

  lemma TailLineIsNotRule(sale: Sale, settings: Settings, cashierName: string,
                          localeDate: string -> string, k: nat)
    requires 13 + |sale.items| + k < |ReceiptLines(sale, settings, cashierName, localeDate)|
    ensures ReceiptLines(sale, settings, cashierName, localeDate)[13 + |sale.items| + k] != Text(Rule)
  {
    TailLineAt(sale, settings, cashierName, localeDate, k);
    TailHasNoRule(sale, settings, k);
  }

  /** The buffer opens with ESC @, closes with GS V 0, and its length is the sum of
      the lengths of the encoded lines and the two opcodes. */
  lemma Framing(sale: Sale, settings: Settings, cashierName: string,
                localeDate: string -> string)
    ensures var r := ReceiptBytes(sale, settings, cashierName, localeDate);
      var parts := FinalCommands(sale, settings, cashierName, localeDate);
      && |parts| == |ReceiptLines(sale, settings, cashierName, localeDate)| + 1
      && |r| == TotalLength(parts)
      && |r| >= 5
      && r[..2] == HW_INIT
      && r[|r| - 3..] == PAPER_FULL_CUT
  {
    var parts := FinalCommands(sale, settings, cashierName, localeDate);
    Layout(sale, settings, cashierName, localeDate);
    var lines := ReceiptLines(sale, settings, cashierName, localeDate);
    assert lines[0] == lines[..10][0] == Raw(HW_INIT);
    assert parts[0] == EncodeSegment(lines[0]) == HW_INIT;
    FlattenLength(parts);
    FirstAndLast(parts);
    var init := parts[..|parts| - 1];
    assert parts == init + [PAPER_FULL_CUT];
    FlattenSnoc(init, PAPER_FULL_CUT);
    FirstAndLast(init);
  }

  /** Where line k of the `lines` array starts in the buffer: the summed lengths of
      the encoded lines before it. */
  function LineOffset(sale: Sale, settings: Settings, cashierName: string,
                      localeDate: string -> string, k: nat): nat
    requires k <= |ReceiptLines(sale, settings, cashierName, localeDate)|
  {
    TotalLength(FinalCommands(sale, settings, cashierName, localeDate)[..k])
  }

  /** Line k of the `lines` array, encoded, fills exactly the bytes from its own
      offset to the next line's: the buffer is the lines laid end to end, in order. */
  lemma LinePlacement(sale: Sale, settings: Settings, cashierName: string,
                      localeDate: string -> string, k: nat)
    requires k < |ReceiptLines(sale, settings, cashierName, localeDate)|
    ensures LineOffset(sale, settings, cashierName, localeDate, k)
         <= LineOffset(sale, settings, cashierName, localeDate, k + 1)
         <= |ReceiptBytes(sale, settings, cashierName, localeDate)|
    ensures ReceiptBytes(sale, settings, cashierName, localeDate)
              [LineOffset(sale, settings, cashierName, localeDate, k)
               ..LineOffset(sale, settings, cashierName, localeDate, k + 1)]
         == EncodeSegment(ReceiptLines(sale, settings, cashierName, localeDate)[k])
  {
    var parts := FinalCommands(sale, settings, cashierName, localeDate);
    assert parts[k] == EncodeSegment(ReceiptLines(sale, settings, cashierName, localeDate)[k]);
    assert ReceiptBytes(sale, settings, cashierName, localeDate) == Flatten(parts);
    PartAt(parts, k);
  }
}
