/** What the two renderers put on the page, as view-models: the table rows,
    the totals box, the client block's vertical cursor and the table's start,
    where the payment instructions go, and the PDF's file name. The PDF
    export fills these step by step; the HTML preview builds the rows and
    totals with `filter`, `map` and `reduce`. */
module Render {
  import opened Wrappers
  import opened Text
  import opened Money
  import opened Items
  import opened Validation

  /* ---------------------------------------------------------------- rows */

  /** One table row: description, quantity, price, discount amount and line
      total (each amount is shown through `toFixed(2)`, which is not part of
      this model). */
  datatype Row = Row(description: string, quantity: real, price: real, discountAmount: real, total: real)

  /** The row both renderers build for an item: the discount amount and the
      total are recomputed from the item's price, quantity and discount. */
  function RowOf(it: Item): (r: Row)
    ensures r.description == it.description && r.quantity == it.quantity && r.price == it.price
    ensures r.discountAmount == ItemDiscount(it)
    ensures r.total == LineTotal(it.price, it.quantity, it.discount)
  {
    var subtotal := it.price * it.quantity;
    var discountAmount := subtotal * (it.discount / 100.0);
    Row(it.description, it.quantity, it.price, discountAmount, subtotal - discountAmount)
  }

  /** A row shows the same total as the item's own "Item Total" whenever the
      stored total is up to date. */
  lemma RowTotalIsStoredTotal(it: Item)
    requires Consistent(it)
    ensures RowOf(it).total == it.total
  {
  }

  /** `.map(item => row)`: one row per item, in order. */
  function MapRows(xs: seq<Item>): (rows: seq<Row>)
    ensures |rows| == |xs|
    ensures forall k :: 0 <= k < |xs| ==> rows[k] == RowOf(xs[k])
  {
    if xs == [] then [] else [RowOf(xs[0])] + MapRows(xs[1..])
  }

  /** Mapping distributes over concatenation. */
  lemma MapRowsAppend(a: seq<Item>, b: seq<Item>)
    ensures MapRows(a + b) == MapRows(a) + MapRows(b)
  {
    var l, r := MapRows(a + b), MapRows(a) + MapRows(b);
    assert |l| == |r|;
    forall k | 0 <= k < |l| ensures l[k] == r[k] {
      if k < |a| {
        assert (a + b)[k] == a[k];
      } else {
        assert (a + b)[k] == b[k - |a|];
      }
    }
  }

  /** The preview's table body: `serviceItems.filter(item => item.description).map(...)`. */
  function PreviewRows(items: seq<Item>): (rows: seq<Row>)
    ensures |rows| <= |items|
  {
    MapRows(Described(items))
  }

  /** The rows are exactly the rows of the items whose description is
      non-empty, whatever else the items hold. */
  lemma PreviewRowsMembers(items: seq<Item>, r: Row)
    ensures r in PreviewRows(items) <==> exists it :: it in items && it.description != "" && r == RowOf(it)
  {
    var d := Described(items);
    if r in PreviewRows(items) {
      var k :| 0 <= k < |d| && PreviewRows(items)[k] == r;
      DescribedMembers(items, d[k]);
    }
    if exists it :: it in items && it.description != "" && r == RowOf(it) {
      var it :| it in items && it.description != "" && r == RowOf(it);
      DescribedMembers(items, it);
      var k :| 0 <= k < |d| && d[k] == it;
      assert PreviewRows(items)[k] == r;
    }
  }

  /** Taking one more item into the filtered rows, as a `forEach` that pushes
      does. */
  lemma PreviewRowsSnoc(items: seq<Item>, it: Item)
    ensures PreviewRows(items + [it])
         == PreviewRows(items) + (if it.description != "" then [RowOf(it)] else [])
  {
    DescribedSnoc(items, it);
    if it.description != "" {
      MapRowsAppend(Described(items), [it]);
    } else {
      assert Described(items) + [] == Described(items);
    }
  }

  /** The PDF's `tableRows`: walk the items, and for each one with a
      non-empty description push a row computed on the spot. The result is
      the preview's row list. */
  method PdfTableRows(items: seq<Item>) returns (rows: seq<Row>)
    ensures rows == PreviewRows(items)
  {
    rows := [];
    for i := 0 to |items|
      invariant rows == PreviewRows(items[..i])
    {
      var item := items[i];
      assert items[..i + 1] == items[..i] + [item];
      PreviewRowsSnoc(items[..i], item);
      if item.description != "" {
        var subtotal := item.price * item.quantity;
        var discountAmount := subtotal * (item.discount / 100.0);
        var total := subtotal - discountAmount;
        assert Row(item.description, item.quantity, item.price, discountAmount, total) == RowOf(item);
        rows := rows + [Row(item.description, item.quantity, item.price, discountAmount, total)];
      }
    }
    assert items[..|items|] == items;
  }

  /** The row totals added up. */
  function SumRowTotals(rows: seq<Row>): real {
    if rows == [] then 0.0 else rows[0].total + SumRowTotals(rows[1..])
  }

  /** The row totals are the line totals of the described items. */
  lemma {:induction false} SumRowTotalsOfMap(xs: seq<Item>)
    ensures SumRowTotals(MapRows(xs)) == SumLineTotals(xs)
  {
    if xs != [] {
      SumRowTotalsOfMap(xs[1..]);
      assert MapRows(xs)[1..] == MapRows(xs[1..]);
    }
  }

  /** The amount due is the sum of the table's row totals plus the line
      totals of the items that have no row: an item with an empty
      description is charged but not listed. */
  lemma AmountDueCoversUnlistedItems(items: seq<Item>)
    ensures InvoiceTotals(items).amountDue
         == SumRowTotals(PreviewRows(items)) + SumLineTotals(Undescribed(items))
  {
    TotalsSplitByDescription(items);
    AmountDueIsSumOfLineTotals(Described(items));
    AmountDueIsSumOfLineTotals(Undescribed(items));
    SumRowTotalsOfMap(Described(items));
  }

  /** An item that is priced but has no description: the amount due is 50
      and the table is empty. */
  lemma UnlistedItemExample()
    ensures PreviewRows([Item(1, "", 50.0, 1.0, 0.0, 50.0)]) == []
    ensures InvoiceTotals([Item(1, "", 50.0, 1.0, 0.0, 50.0)]).amountDue == 50.0
  {
    var it := Item(1, "", 50.0, 1.0, 0.0, 50.0);
    assert [it][..0] == [];
    assert Described([it]) == [];
  }

  /* ------------------------------------------------------- client block */

  /** Where the PDF's `yPos` cursor ends after the client block: 72 at the
      start, 7 more for a name, 5 each for an email, a company and a phone
      number, and for an address 5 for its "Address:" line plus 5 per line
      that is not blank once trimmed. The tests on the fields are on the
      untrimmed values. */
  function ClientBlockEnd(h: Header): (y: int)
    ensures y >= 72
  {
    72
    + (if h.clientName != "" then 7 else 0)
    + (if h.clientEmail != "" then 5 else 0)
    + (if h.clientCompany != "" then 5 else 0)
    + (if h.clientPhone != "" then 5 else 0)
    + (if h.clientAddress != "" then 5 + 5 * CountNonBlank(SplitLines(h.clientAddress)) else 0)
  }

  /** `Math.max(yPos + 15, 115)`: the table starts 15 below the client block
      but never above 115. */
  function TableStartY(h: Header): (y: int)
    ensures y >= 115 && y >= ClientBlockEnd(h) + 15
    ensures y == 115 <==> ClientBlockEnd(h) <= 100
    ensures ClientBlockEnd(h) > 100 ==> y == ClientBlockEnd(h) + 15
  {
    var yPos := ClientBlockEnd(h);
    if yPos + 15 > 115 then yPos + 15 else 115
  }

  /** The client block of the PDF: advance the cursor field by field and
      line by line through the address, then place the table. */
  method ClientBlock(h: Header) returns (yPos: int, tableStartY: int)
    ensures yPos == ClientBlockEnd(h)
    ensures tableStartY == TableStartY(h)
  {
    yPos := 72;
    if h.clientName != "" {
      yPos := yPos + 7;
    }
    if h.clientEmail != "" {
      yPos := yPos + 5;
    }
    if h.clientCompany != "" {
      yPos := yPos + 5;
    }
    if h.clientPhone != "" {
      yPos := yPos + 5;
    }
    if h.clientAddress != "" {
      yPos := yPos + 5;
      yPos := AddressLines(yPos, SplitLines(h.clientAddress));
    }
    tableStartY := if yPos + 15 > 115 then yPos + 15 else 115;
  }

  /** The address lines' `forEach`: 5 more for each line that is not blank
      once trimmed. */
  method AddressLines(yStart: int, addressLines: seq<string>) returns (yPos: int)
    ensures yPos == yStart + 5 * CountNonBlank(addressLines)
  {
    yPos := yStart;
    for k := 0 to |addressLines|
      invariant yPos == yStart + 5 * CountNonBlank(addressLines[..k])
    {
      var line := addressLines[k];
      assert addressLines[..k + 1] == addressLines[..k] + [line];
      CountNonBlankSnoc(addressLines[..k], line);
      if !IsBlank(line) {
        yPos := yPos + 5;
      }
    }
    assert addressLines[..|addressLines|] == addressLines;
  }

  /** The cursor grows by at most 5 per address line: it never passes
      72 + 7 + 15 + 5 + 5 times the number of address lines. */
  lemma ClientBlockBounded(h: Header)
    ensures ClientBlockEnd(h) <= 99 + 5 * |SplitLines(h.clientAddress)|
  {
  }

  /** Once the form is accepted the client name is present, so the cursor
      is at least 79 when the table is placed. */
  lemma AcceptedClientBlock(h: Header, items: seq<Item>)
    requires Validate(h, items) == Accepted
    ensures ClientBlockEnd(h) >= 79
  {
    AcceptedHasClientName(h, items);
  }

  /** A non-empty address whose lines are all blank costs only its
      "Address:" line: 5 more than no address at all. */
  lemma BlankAddressCostsOneLine(h: Header)
    requires h.clientAddress != ""
    requires forall k :: 0 <= k < |SplitLines(h.clientAddress)| ==> IsBlank(SplitLines(h.clientAddress)[k])
    ensures ClientBlockEnd(h) == ClientBlockEnd(h.(clientAddress := "")) + 5
  {
    AllBlankCountsZero(SplitLines(h.clientAddress));
  }

  /** The address " \n " on its own, with no other client field: two blank
      lines, so the cursor ends at 77 and the table starts at 115. */
  lemma BlankAddressLines(h: Header)
    requires h.clientName == "" && h.clientEmail == "" && h.clientCompany == "" && h.clientPhone == ""
    requires h.clientAddress == " \n "
    ensures ClientBlockEnd(h) == 77
    ensures TableStartY(h) == 115
  {
    var a := h.clientAddress;
    var space: string := " ";
    assert space[1..] == [];
    assert SplitLines([]) == [[]];
    assert space[0] == ' ' && [space[0]] + [] == space;
    assert SplitLines([])[1..] == [];
    assert SplitLines(space) == [[space[0]] + SplitLines([])[0]] + SplitLines([])[1..];
    assert SplitLines(space) == [space];
    assert a[0] == ' ' && a[1..] == "\n" + space;
    assert ("\n" + space)[1..] == space;
    assert SplitLines(a[1..]) == [[]] + [space];
    assert SplitLines(a) == [[' '] + []] + [space];
    assert SplitLines(a) == [space, space];
    assert IsBlank(space);
    var lines := SplitLines(a);
    assert lines[1..] == [space];
    assert lines[1..][1..] == [];
    assert CountNonBlank(lines) == 0;
  }

  /* ------------------------------------------------ payment instructions */

  /** Where the payment-instruction lines are drawn, if at all. */
  datatype Placement =
    | Omitted                      // no instructions were entered
    | SamePage(ys: seq<real>)      // below the totals, on the current page
    | NewPage(ys: seq<real>)       // the block starts on a fresh page
    | Continued(ys: seq<real>)     // heading on this page, lines under "(continued)" on a fresh one

  /** The `forEach` that draws line `index` at `base + index * 5`. */
  function LineYs(base: real, n: nat): (ys: seq<real>)
    ensures |ys| == n
    ensures forall i :: 0 <= i < n ==> ys[i] == base + 5.0 * (i as real)
  {
    seq(n, i => base + 5.0 * (i as real))
  }

  /** The page-break decision for `n` instruction lines: the table ends at
      `tableFinalY`, the totals box at `tableFinalY + 15`, and the block
      would start 49 below that. A start below `pageHeight - 80` moves the
      block to a new page at 40; otherwise lines that would run below
      `pageHeight - 50` move, under a "(continued)" heading, to a new page at
      40; otherwise they stay. `present` is whether the instructions field
      is non-empty. */
  function PlaceInstructions(present: bool, tableFinalY: real, pageHeight: real, n: nat): (p: Placement)
    ensures !present <==> p == Omitted
    ensures (p.NewPage? || p.Continued?) ==> p.ys == LineYs(40.0, n)
    ensures p.SamePage? ==> p.ys == LineYs(tableFinalY + 64.0, n)
  {
    if !present then Omitted
    else
      var finalY := tableFinalY + 15.0;
      var instructionsStartY := finalY + 49.0;
      if instructionsStartY > pageHeight - 80.0 then NewPage(LineYs(40.0, n))
      else if instructionsStartY + 5.0 * (n as real) > pageHeight - 50.0 then Continued(LineYs(40.0, n))
      else SamePage(LineYs(instructionsStartY, n))
  }

  /** The three outcomes for entered instructions and the conditions that
      select them. */
  lemma PlacementCases(tableFinalY: real, pageHeight: real, n: nat)
    ensures var p := PlaceInstructions(true, tableFinalY, pageHeight, n);
      var start := tableFinalY + 64.0;
      && (p.NewPage? <==> start > pageHeight - 80.0)
      && (p.Continued? <==> start <= pageHeight - 80.0 && start + 5.0 * (n as real) > pageHeight - 50.0)
      && (p.SamePage? <==> start <= pageHeight - 80.0 && start + 5.0 * (n as real) <= pageHeight - 50.0)
  {
  }

  /** Lines kept on the current page lie below the totals box (which ends
      at `tableFinalY + 47`) and each one, 5 high, ends above
      `pageHeight - 50`, clear of the footer band. */
  lemma SamePageFits(tableFinalY: real, pageHeight: real, n: nat)
    requires PlaceInstructions(true, tableFinalY, pageHeight, n).SamePage?
    ensures var ys := PlaceInstructions(true, tableFinalY, pageHeight, n).ys;
      forall i :: 0 <= i < |ys| ==> tableFinalY + 47.0 < ys[i] && ys[i] + 5.0 <= pageHeight - 50.0
  {
    var ys := PlaceInstructions(true, tableFinalY, pageHeight, n).ys;
    forall i | 0 <= i < |ys|
      ensures tableFinalY + 47.0 < ys[i] && ys[i] + 5.0 <= pageHeight - 50.0
    {
      assert ys[i] == tableFinalY + 64.0 + 5.0 * (i as real);
      assert (i as real) + 1.0 <= n as real;
    }
  }

  /** A block moved to a new page is never checked against the page: with
      enough lines, its last line is drawn at or below the footer line at
      `pageHeight - 20`. */
  lemma NewPageMayOverflow(tableFinalY: real, pageHeight: real, n: nat)
    requires tableFinalY + 64.0 > pageHeight - 80.0
    requires 5.0 * (n as real) >= pageHeight - 15.0 && n >= 1
    ensures var p := PlaceInstructions(true, tableFinalY, pageHeight, n);
      p.NewPage? && p.ys[n - 1] >= pageHeight - 20.0
  {
    var p := PlaceInstructions(true, tableFinalY, pageHeight, n);
    assert p.ys[n - 1] == 40.0 + 5.0 * ((n - 1) as real);
  }

  /* ---------------------------------------------------------- file name */

  /** The client part of the file name: the name, or "Client" when empty. */
  function ClientPart(clientName: string): (c: string)
    ensures c != ""
    ensures clientName != "" ==> c == clientName
    ensures clientName == "" ==> c == "Client"
  {
    if clientName != "" then clientName else "Client"
  }

  /** `Invoice_${invoiceNumber}_${clientName || 'Client'}.pdf`. */
  function FileName(invoiceNumber: string, clientName: string): (name: string)
    ensures |name| == 13 + |invoiceNumber| + |ClientPart(clientName)|
    ensures name[..8] == "Invoice_" && name[|name| - 4..] == ".pdf"
  {
    "Invoice_" + invoiceNumber + "_" + ClientPart(clientName) + ".pdf"
  }

  /** The first position of `c` in `s`, or -1. */
  function IndexOf(s: string, c: char): (k: int)
    ensures -1 <= k < |s|
    ensures k >= 0 ==> s[k] == c && c !in s[..k]
    ensures k == -1 ==> c !in s
  {
    if s == [] then -1
    else if s[0] == c then 0
    else
      var k := IndexOf(s[1..], c);
      if k == -1 then -1 else k + 1
  }

  /** Reads the invoice number and the client part back out of a file name:
      the text between "Invoice_" and the first following underscore, and the
      rest before ".pdf". */
  function ParseFileName(name: string): (r: Option<(string, string)>)
    ensures r.Some? ==> |r.value.0| + |r.value.1| + 13 == |name|
  {
    if |name| >= 13 && name[..8] == "Invoice_" && name[|name| - 4..] == ".pdf" then
      var middle := name[8..|name| - 4];
      var k := IndexOf(middle, '_');
      if k == -1 then None else Some((middle[..k], middle[k + 1..]))
    else None
  }

  /** An underscore after a prefix without one is found right after the
      prefix. */
  lemma {:induction false} IndexOfAfterPrefix(a: string, b: string)
    requires '_' !in a
    ensures IndexOf(a + "_" + b, '_') == |a|
  {
    if a != [] {
      assert a[0] in a;
      assert (a + "_" + b)[1..] == a[1..] + "_" + b;
      assert '_' !in a[1..] by {
        forall i | 0 <= i < |a[1..]| ensures a[1..][i] != '_' {
          assert a[1..][i] == a[i + 1];
        }
      }
      IndexOfAfterPrefix(a[1..], b);
    }
  }

  /** An invoice number without an underscore can be read back from the
      file name, together with the client part. */
  lemma FileNameRoundTrip(invoiceNumber: string, clientName: string)
    requires '_' !in invoiceNumber
    ensures ParseFileName(FileName(invoiceNumber, clientName)) == Some((invoiceNumber, ClientPart(clientName)))
  {
    var c := ClientPart(clientName);
    var name := FileName(invoiceNumber, clientName);
    var middle := invoiceNumber + "_" + c;
    assert name == "Invoice_" + middle + ".pdf";
    assert name[8..|name| - 4] == middle;
    IndexOfAfterPrefix(invoiceNumber, c);
    assert middle[..|invoiceNumber|] == invoiceNumber;
    assert middle[|invoiceNumber| + 1..] == c;
  }

  /** With underscores in the invoice number, two different forms can save
      under the same name. */
  lemma FileNameAmbiguous()
    ensures FileName("7_A", "B") == FileName("7", "A_B")
  {
  }

  /* ------------------------------------------------------------ renderers */

  /** The figures the PDF export lays out. */
  datatype PdfView = PdfView(
    fileName: string,
    clientBlockEndY: int,
    tableStartY: int,
    rows: seq<Row>,
    totals: Totals,
    instructions: Placement)

  /** The figures the preview shows. */
  datatype PreviewView = PreviewView(rows: seq<Row>, totals: Totals, showsInstructions: bool)

  /** `previewInvoice`: nothing is shown unless the form is accepted;
      otherwise the filtered rows, the `reduce` totals over every item and
      the instructions section when the field is non-empty. */
  function PreviewInvoice(h: Header, items: seq<Item>): (r: Result<PreviewView, Verdict>)
    ensures r.Err? <==> Validate(h, items) != Accepted
    ensures r.Ok? ==> r.value.rows != []
    ensures r.Ok? ==> r.value.rows == PreviewRows(items) && r.value.totals == InvoiceTotals(items)
    ensures r.Ok? ==> r.value.showsInstructions == (h.paymentInstructions != "")
    ensures r.Ok? ==> r.value.totals.amountDue == r.value.totals.subtotal - r.value.totals.totalDiscount
  {
    var v := Validate(h, items);
    if v != Accepted then Err(v)
    else
      AcceptedHasRows(h, items);
      Ok(PreviewView(PreviewRows(items), InvoiceTotals(items), h.paymentInstructions != ""))
  }

  /** `generatePDF`: refused with the same verdict as the preview; otherwise
      the client block, the rows built by the loop, the `reduce` totals, the
      instruction placement and the file name. `tableFinalY`, `pageHeight`
      and `instructionLines` come from jsPDF (where the table ended, the page
      height, how many lines `splitTextToSize` made). The rows and totals are
      those of the preview. */
  method GeneratePdf(h: Header, items: seq<Item>, tableFinalY: real, pageHeight: real, instructionLines: nat)
    returns (r: Result<PdfView, Verdict>)
    ensures r.Err? <==> Validate(h, items) != Accepted
    ensures r.Err? ==> r.error == Validate(h, items) && PreviewInvoice(h, items) == Err(r.error)
    ensures r.Ok? ==>
      && PreviewInvoice(h, items).Ok?
      && r.value.rows == PreviewInvoice(h, items).value.rows
      && r.value.totals == PreviewInvoice(h, items).value.totals
      && r.value.clientBlockEndY == ClientBlockEnd(h) >= 79
      && r.value.tableStartY == TableStartY(h)
      && r.value.instructions
         == PlaceInstructions(h.paymentInstructions != "", tableFinalY, pageHeight, instructionLines)
      && r.value.fileName == FileName(h.invoiceNumber, h.clientName)
      && r.value.fileName == "Invoice_" + h.invoiceNumber + "_" + h.clientName + ".pdf"
  {
    var verdict := Validate(h, items);
    if verdict != Accepted {
      return Err(verdict);
    }
    AcceptedClientBlock(h, items);
    AcceptedHasClientName(h, items);
    var yPos, tableStartY := ClientBlock(h);
    var rows := PdfTableRows(items);
    var totals := InvoiceTotals(items);
    var placement := PlaceInstructions(h.paymentInstructions != "", tableFinalY, pageHeight, instructionLines);
    var fileName := FileName(h.invoiceNumber, h.clientName);
    r := Ok(PdfView(fileName, yPos, tableStartY, rows, totals, placement));
  }
}
