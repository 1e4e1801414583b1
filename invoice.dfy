/**
 * The pure part of the invoice renderer (`POST /api/invoice/generate` in
 * pdf-invoice-api/server.js): defaults for omitted request fields, the item rows, the ordered
 * placeholder substitutions with the tax-row and PAID-stamp switches, the output file name,
 * the public URLs and the response.
 *
 * Amounts are integer paise, so `toFixed(2)` is exact (see Text.FormatFixed2).
 */
module Invoice {
  import opened Wrappers
  import opened Text
  import opened Substitution

  // ---------------------------------------------------------------------------------------
  // Request and defaults
  // ---------------------------------------------------------------------------------------

  /** One line item; `unit` is `None` when the item has no `unit` field. */
  datatype LineItem = LineItem(name: string, qty: int, unit: Option<string>, price: int)

  /** The JSON request body; `None` is a field the body leaves out. */
  datatype InvoiceRequest = InvoiceRequest(
    shopName: Option<string>,
    shopUpi: Option<string>,
    shopGst: Option<string>,
    shopAddress: Option<string>,
    shopPhone: Option<string>,
    customerName: Option<string>,
    customerPhone: Option<string>,
    invoiceNumber: Option<string>,
    invoiceDate: Option<string>,
    items: Option<seq<LineItem>>,
    subtotal: Option<int>,
    taxAmount: Option<int>,
    totalAmount: Option<int>,
    notes: Option<string>,
    isPaid: Option<bool>,
    paidDate: Option<string>)

  /** The request after destructuring with defaults. */
  datatype Invoice = Invoice(
    shopName: string,
    shopUpi: string,
    shopGst: string,
    shopAddress: string,
    shopPhone: string,
    customerName: string,
    customerPhone: string,
    invoiceNumber: string,
    invoiceDate: string,
    items: seq<LineItem>,
    subtotal: int,
    taxAmount: int,
    totalAmount: int,
    notes: string,
    isPaid: bool,
    paidDate: string)

  const DefaultShopName := "My Kirana Store"
  const DefaultCustomerName := "Customer"
  const DefaultInvoiceNumber := "INV-001"

  /**
   * Destructuring with defaults. `today` is `new Date().toLocaleDateString('en-IN')`, the
   * default of both `invoice_date` and `paid_date`.
   */
  function WithDefaults(req: InvoiceRequest, today: string): (inv: Invoice)
    ensures inv.shopName == (if req.shopName.Some? then req.shopName.value else DefaultShopName)
    ensures inv.customerName == (if req.customerName.Some? then req.customerName.value else DefaultCustomerName)
    ensures inv.invoiceNumber == (if req.invoiceNumber.Some? then req.invoiceNumber.value else DefaultInvoiceNumber)
    ensures inv.invoiceDate == (if req.invoiceDate.Some? then req.invoiceDate.value else today)
    ensures inv.paidDate == (if req.paidDate.Some? then req.paidDate.value else today)
    ensures inv.items == (if req.items.Some? then req.items.value else [])
    ensures inv.isPaid == (req.isPaid == Some(true))
    ensures inv.shopUpi == (if req.shopUpi.Some? then req.shopUpi.value else "")
    ensures inv.shopGst == (if req.shopGst.Some? then req.shopGst.value else "")
    ensures inv.shopAddress == (if req.shopAddress.Some? then req.shopAddress.value else "")
    ensures inv.shopPhone == (if req.shopPhone.Some? then req.shopPhone.value else "")
    ensures inv.customerPhone == (if req.customerPhone.Some? then req.customerPhone.value else "")
    ensures inv.subtotal == (if req.subtotal.Some? then req.subtotal.value else 0)
    ensures inv.taxAmount == (if req.taxAmount.Some? then req.taxAmount.value else 0)
    ensures inv.totalAmount == (if req.totalAmount.Some? then req.totalAmount.value else 0)
    ensures inv.notes == (if req.notes.Some? then req.notes.value else "")
  {
    Invoice(
      req.shopName.GetOr(DefaultShopName),
      req.shopUpi.GetOr(""),
      req.shopGst.GetOr(""),
      req.shopAddress.GetOr(""),
      req.shopPhone.GetOr(""),
      req.customerName.GetOr(DefaultCustomerName),
      req.customerPhone.GetOr(""),
      req.invoiceNumber.GetOr(DefaultInvoiceNumber),
      req.invoiceDate.GetOr(today),
      req.items.GetOr([]),
      req.subtotal.GetOr(0),
      req.taxAmount.GetOr(0),
      req.totalAmount.GetOr(0),
      req.notes.GetOr(""),
      req.isPaid.GetOr(false),
      req.paidDate.GetOr(today))
  }

  // ---------------------------------------------------------------------------------------
  // Item rows
  // ---------------------------------------------------------------------------------------

  /** `item.unit || 'pcs'`: an absent or empty unit reads "pcs". */
  function UnitOrDefault(unit: Option<string>): (r: string)
    ensures r != ""
    ensures unit.Some? && unit.value != "" ==> r == unit.value
    ensures unit.None? || unit.value == "" ==> r == "pcs"
  {
    if unit.Some? && unit.value != "" then unit.value else "pcs"
  }

  /** The cells of one table row, before they are written out. */
  datatype Row = Row(number: nat, name: string, qty: int, unit: string, price: int, amount: int)

  function MakeRow(number: nat, item: LineItem): Row {
    Row(number, item.name, item.qty, UnitOrDefault(item.unit), item.price, item.qty * item.price)
  }

  /** `items.map((item, index) => …)` with row numbers counted from `first`. */
  function Rows(items: seq<LineItem>, first: nat): (rows: seq<Row>)
    ensures |rows| == |items|
    ensures forall k :: 0 <= k < |items| ==>
      && rows[k].number == first + k
      && rows[k].name == items[k].name
      && rows[k].qty == items[k].qty
      && rows[k].unit == UnitOrDefault(items[k].unit)
      && rows[k].price == items[k].price
      && rows[k].amount == items[k].qty * items[k].price
  {
    if items == [] then [] else [MakeRow(first, items[0])] + Rows(items[1..], first + 1)
  }

  /** The rupee sign as the server source stores it: the UTF-8 bytes of "₹" read back as Windows-1252. */
  const RupeeSign := "\U{00E2}\U{201A}\U{00B9}"

  const RowOpen := "\n      <tr>\n        <td>"
  const CellBreak := "</td>\n        <td>"
  const RowClose := "</td>\n      </tr>\n    "

  /** The template literal of one row; values are inserted without HTML escaping. */
  function RowParts(r: Row): seq<string> {
    [RowOpen, NatToString(r.number), CellBreak, r.name, CellBreak, IntToString(r.qty), " ", r.unit,
     CellBreak, RupeeSign, FormatFixed2(r.price), CellBreak, RupeeSign, FormatFixed2(r.amount), RowClose]
  }

  function RenderRow(r: Row): string {
    Concat(RowParts(r))
  }

  function RenderRows(rows: seq<Row>): string {
    if rows == [] then "" else RenderRow(rows[0]) + RenderRows(rows[1..])
  }

  /** `itemsHtml`: the rows joined with `''`. */
  function ItemsHtml(items: seq<LineItem>): string {
    RenderRows(Rows(items, 1))
  }

  lemma {:induction false} RenderRowsAppend(a: seq<Row>, b: seq<Row>)
    ensures RenderRows(a + b) == RenderRows(a) + RenderRows(b)
  {
    if a == [] {
      assert a + b == b;
    } else {
      assert (a + b)[0] == a[0];
      assert (a + b)[1..] == a[1..] + b;
      RenderRowsAppend(a[1..], b);
    }
  }

  lemma RowsAppend(items: seq<LineItem>, item: LineItem, first: nat)
    ensures Rows(items + [item], first) == Rows(items, first) + [MakeRow(first + |items|, item)]
  {
    var all := items + [item];
    var lhs, rhs := Rows(all, first), Rows(items, first) + [MakeRow(first + |items|, item)];
    forall k | 0 <= k < |lhs| ensures lhs[k] == rhs[k] {
      if k < |items| {
        assert all[k] == items[k] && rhs[k] == Rows(items, first)[k];
      } else {
        assert all[k] == item;
      }
    }
  }

  /** One row per item, in input order: a further item adds exactly its own row, numbered after the others. */
  lemma ItemsHtmlAppend(items: seq<LineItem>, item: LineItem)
    ensures ItemsHtml(items + [item]) == ItemsHtml(items) + RenderRow(MakeRow(|items| + 1, item))
  {
    var row := MakeRow(|items| + 1, item);
    RowsAppend(items, item, 1);
    RenderRowsAppend(Rows(items, 1), [row]);
    assert RenderRows([row]) == RenderRow(row) + RenderRows([]);
  }

  // ---------------------------------------------------------------------------------------
  // Placeholders and the values that replace them
  // ---------------------------------------------------------------------------------------

  /** The template's placeholders, one per field of the invoice page. */
  datatype Field =
    | ShopName | ShopAddress | ShopPhone | ShopGst | ShopUpi
    | CustomerName | CustomerPhone | InvoiceNumber | InvoiceDate | Items
    | Subtotal | TaxAmount | TotalAmount | Notes
    | TaxRowDisplay | PaidDisplay | PaidDate

  /** A character that may appear in a placeholder name: anything but a brace. */
  type NameChar = c: char | c != '{' && c != '}' witness 'A'

  /** The name written between the braces in the template. */
  function Name(f: Field): seq<NameChar> {
    match f
    case ShopName => "SHOP_NAME"
    case ShopAddress => "SHOP_ADDRESS"
    case ShopPhone => "SHOP_PHONE"
    case ShopGst => "SHOP_GST"
    case ShopUpi => "SHOP_UPI"
    case CustomerName => "CUSTOMER_NAME"
    case CustomerPhone => "CUSTOMER_PHONE"
    case InvoiceNumber => "INVOICE_NUMBER"
    case InvoiceDate => "INVOICE_DATE"
    case Items => "ITEMS"
    case Subtotal => "SUBTOTAL"
    case TaxAmount => "TAX_AMOUNT"
    case TotalAmount => "TOTAL_AMOUNT"
    case Notes => "NOTES"
    case TaxRowDisplay => "TAX_ROW_DISPLAY"
    case PaidDisplay => "PAID_DISPLAY"
    case PaidDate => "PAID_DATE"
  }

  /** A placeholder name: non-empty and free of braces (the server's are capitals and underscores). */
  predicate IsPlaceholderName(name: string) {
    name != [] && forall i :: 0 <= i < |name| ==> name[i] != '{' && name[i] != '}'
  }

  /** `{{NAME}}`, matched literally by the regular expression `/{{NAME}}/g`. */
  function Placeholder(name: string): (p: string)
    ensures |p| == |name| + 4
    ensures p[..2] == "{{" && p[2..|p| - 2] == name && p[|p| - 2..] == "}}"
  {
    "{{" + name + "}}"
  }

  /** The order in which the handler replaces the placeholders. */
  const ReplaceOrder: seq<Field> := [
    ShopName, ShopAddress, ShopPhone, ShopGst, ShopUpi,
    CustomerName, CustomerPhone, InvoiceNumber, InvoiceDate, Items,
    Subtotal, TaxAmount, TotalAmount, Notes,
    TaxRowDisplay, PaidDisplay, PaidDate]

  /** `shop_gst ? \`GSTIN: ${shop_gst}\` : ''`. */
  function GstLine(gst: string): (r: string)
    ensures gst != "" ==> r == "GSTIN: " + gst
    ensures gst == "" ==> r == ""
  {
    if gst != "" then "GSTIN: " + gst else ""
  }

  /** The CSS `display` of the tax row: hidden exactly when the tax is zero. */
  function TaxRowStyle(taxAmount: int): (r: string)
    ensures r == "none" <==> taxAmount == 0
    ensures r == "none" || r == "table-row"
  {
    if taxAmount == 0 then "none" else "table-row"
  }

  /** The CSS `display` of the PAID stamp: shown exactly when the invoice is paid. */
  function PaidStampStyle(isPaid: bool): (r: string)
    ensures r == "block" <==> isPaid
    ensures r == "block" || r == "none"
  {
    if isPaid then "block" else "none"
  }

  /** The date under the PAID stamp: the paid date when paid, empty otherwise. */
  function PaidDateText(isPaid: bool, paidDate: string): (r: string)
    ensures isPaid ==> r == paidDate
    ensures !isPaid ==> r == ""
  {
    if isPaid then paidDate else ""
  }

  /**
   * What replaces each placeholder. `itemsHtml` is the rows rendered beforehand
   * (`ItemsHtml(inv.items)`); amounts are written with `toFixed(2)`.
   */
  function Value(f: Field, inv: Invoice, itemsHtml: string): string {
    match f
    case ShopName => inv.shopName
    case ShopAddress => inv.shopAddress
    case ShopPhone => inv.shopPhone
    case ShopGst => GstLine(inv.shopGst)
    case ShopUpi => inv.shopUpi
    case CustomerName => inv.customerName
    case CustomerPhone => inv.customerPhone
    case InvoiceNumber => inv.invoiceNumber
    case InvoiceDate => inv.invoiceDate
    case Items => itemsHtml
    case Subtotal => FormatFixed2(inv.subtotal)
    case TaxAmount => FormatFixed2(inv.taxAmount)
    case TotalAmount => FormatFixed2(inv.totalAmount)
    case Notes => inv.notes
    case TaxRowDisplay => TaxRowStyle(inv.taxAmount)
    case PaidDisplay => PaidStampStyle(inv.isPaid)
    case PaidDate => PaidDateText(inv.isPaid, inv.paidDate)
  }

  /** The replacement chain of the handler: step `k` replaces the `k`-th placeholder of `ReplaceOrder`. */
  function Substitutions(inv: Invoice, itemsHtml: string): seq<Sub> {
    seq(|ReplaceOrder|, k requires 0 <= k < |ReplaceOrder| =>
      Sub(Placeholder(Name(ReplaceOrder[k])), Value(ReplaceOrder[k], inv, itemsHtml)))
  }

  // The chain's steps written out, a few at a time (a solver finds small groups of these
  // instances of the sequence constructor far cheaper than all seventeen at once).

  /** Steps 0 to 2: the shop's name, address and phone. */
  lemma ShopContactSteps(inv: Invoice, itemsHtml: string)
    ensures var subs := Substitutions(inv, itemsHtml);
      && |subs| == 17
      && subs[0] == Sub(Placeholder("SHOP_NAME"), inv.shopName)
      && subs[1] == Sub(Placeholder("SHOP_ADDRESS"), inv.shopAddress)
      && subs[2] == Sub(Placeholder("SHOP_PHONE"), inv.shopPhone)
  {
  }

  /** Steps 3 to 5: the GST line, the UPI id and the customer's name. */
  lemma ShopTaxSteps(inv: Invoice, itemsHtml: string)
    ensures var subs := Substitutions(inv, itemsHtml);
      && |subs| == 17
      && subs[3] == Sub(Placeholder("SHOP_GST"), GstLine(inv.shopGst))
      && subs[4] == Sub(Placeholder("SHOP_UPI"), inv.shopUpi)
      && subs[5] == Sub(Placeholder("CUSTOMER_NAME"), inv.customerName)
  {
  }

  /** Steps 6 to 8: the customer's phone and the invoice number and date. */
  lemma InvoiceSteps(inv: Invoice, itemsHtml: string)
    ensures var subs := Substitutions(inv, itemsHtml);
      && |subs| == 17
      && subs[6] == Sub(Placeholder("CUSTOMER_PHONE"), inv.customerPhone)
      && subs[7] == Sub(Placeholder("INVOICE_NUMBER"), inv.invoiceNumber)
      && subs[8] == Sub(Placeholder("INVOICE_DATE"), inv.invoiceDate)
  {
  }

  /** Steps 9 to 11: the rows and the first two amounts. */
  lemma ItemsSteps(inv: Invoice, itemsHtml: string)
    ensures var subs := Substitutions(inv, itemsHtml);
      && |subs| == 17
      && subs[9] == Sub(Placeholder("ITEMS"), itemsHtml)
      && subs[10] == Sub(Placeholder("SUBTOTAL"), FormatFixed2(inv.subtotal))
      && subs[11] == Sub(Placeholder("TAX_AMOUNT"), FormatFixed2(inv.taxAmount))
  {
  }

  /** Steps 12 to 13: the total and the notes. */
  lemma TotalSteps(inv: Invoice, itemsHtml: string)
    ensures var subs := Substitutions(inv, itemsHtml);
      && |subs| == 17
      && subs[12] == Sub(Placeholder("TOTAL_AMOUNT"), FormatFixed2(inv.totalAmount))
      && subs[13] == Sub(Placeholder("NOTES"), inv.notes)
  {
  }

  /** Steps 14 to 16: the two display switches and the paid date. */
  lemma DisplaySteps(inv: Invoice, itemsHtml: string)
    ensures var subs := Substitutions(inv, itemsHtml);
      && |subs| == 17
      && subs[14] == Sub(Placeholder("TAX_ROW_DISPLAY"), TaxRowStyle(inv.taxAmount))
      && subs[15] == Sub(Placeholder("PAID_DISPLAY"), PaidStampStyle(inv.isPaid))
      && subs[16] == Sub(Placeholder("PAID_DATE"), PaidDateText(inv.isPaid, inv.paidDate))
  {
  }

  /**
   * The template rebuilt by successive reassignment, as the handler does it: fourteen
   * chained replacements, then the tax-row switch, then the PAID-stamp switch.
   */
  method PopulateTemplate(template: string, inv: Invoice) returns (html: string)
    ensures NonEmptyPlaceholders(Substitutions(inv, ItemsHtml(inv.items)))
    ensures html == ApplyAll(template, Substitutions(inv, ItemsHtml(inv.items)))
  {
    var itemsHtml := ItemsHtml(inv.items);
    ghost var subs := Substitutions(inv, itemsHtml);
    ShopContactSteps(inv, itemsHtml);
    ShopTaxSteps(inv, itemsHtml);
    InvoiceSteps(inv, itemsHtml);
    ItemsSteps(inv, itemsHtml);
    TotalSteps(inv, itemsHtml);
    DisplaySteps(inv, itemsHtml);
    assert NonEmptyPlaceholders(subs);
    html := ReplaceAll(template, Placeholder("SHOP_NAME"), inv.shopName);
    ApplyNext(template, subs, 0);
    assert html == ApplyFirst(template, subs, 1);
    html := ReplaceAll(html, Placeholder("SHOP_ADDRESS"), inv.shopAddress);
    ApplyNext(template, subs, 1);
    assert html == ApplyFirst(template, subs, 2);
    html := ReplaceAll(html, Placeholder("SHOP_PHONE"), inv.shopPhone);
    ApplyNext(template, subs, 2);
    assert html == ApplyFirst(template, subs, 3);
    html := ReplaceAll(html, Placeholder("SHOP_GST"), if inv.shopGst != "" then "GSTIN: " + inv.shopGst else "");
    ApplyNext(template, subs, 3);
    assert html == ApplyFirst(template, subs, 4);
    html := ReplaceAll(html, Placeholder("SHOP_UPI"), inv.shopUpi);
    ApplyNext(template, subs, 4);
    assert html == ApplyFirst(template, subs, 5);
    html := ReplaceAll(html, Placeholder("CUSTOMER_NAME"), inv.customerName);
    ApplyNext(template, subs, 5);
    assert html == ApplyFirst(template, subs, 6);
    html := ReplaceAll(html, Placeholder("CUSTOMER_PHONE"), inv.customerPhone);
    ApplyNext(template, subs, 6);
    assert html == ApplyFirst(template, subs, 7);
    html := ReplaceAll(html, Placeholder("INVOICE_NUMBER"), inv.invoiceNumber);
    ApplyNext(template, subs, 7);
    assert html == ApplyFirst(template, subs, 8);
    html := ReplaceAll(html, Placeholder("INVOICE_DATE"), inv.invoiceDate);
    ApplyNext(template, subs, 8);
    assert html == ApplyFirst(template, subs, 9);
    html := ReplaceAll(html, Placeholder("ITEMS"), itemsHtml);
    ApplyNext(template, subs, 9);
    assert html == ApplyFirst(template, subs, 10);
    html := ReplaceAll(html, Placeholder("SUBTOTAL"), FormatFixed2(inv.subtotal));
    ApplyNext(template, subs, 10);
    assert html == ApplyFirst(template, subs, 11);
    html := ReplaceAll(html, Placeholder("TAX_AMOUNT"), FormatFixed2(inv.taxAmount));
    ApplyNext(template, subs, 11);
    assert html == ApplyFirst(template, subs, 12);
    html := ReplaceAll(html, Placeholder("TOTAL_AMOUNT"), FormatFixed2(inv.totalAmount));
    ApplyNext(template, subs, 12);
    assert html == ApplyFirst(template, subs, 13);
    html := ReplaceAll(html, Placeholder("NOTES"), inv.notes);
    ApplyNext(template, subs, 13);
    assert html == ApplyFirst(template, subs, 14);

    if inv.taxAmount == 0 {
      html := ReplaceAll(html, Placeholder("TAX_ROW_DISPLAY"), "none");
    } else {
      html := ReplaceAll(html, Placeholder("TAX_ROW_DISPLAY"), "table-row");
    }
    ApplyNext(template, subs, 14);
    assert html == ApplyFirst(template, subs, 15);

    if inv.isPaid {
      html := ReplaceAll(html, Placeholder("PAID_DISPLAY"), "block");
      ApplyNext(template, subs, 15);
      assert html == ApplyFirst(template, subs, 16);
      html := ReplaceAll(html, Placeholder("PAID_DATE"), inv.paidDate);
    } else {
      html := ReplaceAll(html, Placeholder("PAID_DISPLAY"), "none");
      ApplyNext(template, subs, 15);
      assert html == ApplyFirst(template, subs, 16);
      html := ReplaceAll(html, Placeholder("PAID_DATE"), "");
    }
    ApplyNext(template, subs, 16);
    assert html == ApplyFirst(template, subs, 17);
  }

  // ---------------------------------------------------------------------------------------
  // When the chain fills the template
  // ---------------------------------------------------------------------------------------

  /** Two different placeholders never overlap: no match of one can begin inside the other. */
  lemma DistinctPlaceholdersClean(n1: string, n2: string)
    requires IsPlaceholderName(n1) && IsPlaceholderName(n2) && n1 != n2
    ensures Clean(Placeholder(n1), Placeholder(n2))
  {
    var p1, p2 := Placeholder(n1), Placeholder(n2);
    forall i | 0 <= i < |p1| ensures !Agrees(p1[i..], p2) {
      var x := p1[i..];
      var m := if |x| < |p2| then |x| else |p2|;
      if i == 0 {
        if |n1| == |n2| {
          assert !(forall d :: 0 <= d < |n1| ==> n1[d] == n2[d]);
          var d :| 0 <= d < |n1| && n1[d] != n2[d];
          assert x[..m][d + 2] == n1[d];
          assert p2[..m][d + 2] == n2[d];
        } else if |n1| < |n2| {
          assert x[..m][|n1| + 2] == '}';
          assert p2[..m][|n1| + 2] == n2[|n1|];
        } else {
          assert x[..m][|n2| + 2] == n1[|n2|];
          assert p2[..m][|n2| + 2] == '}';
        }
      } else if i == 1 {
        assert p1 == "{{" + n1 + "}}";
        assert x[..m][1] == p1[2] == n1[0];
        assert p2[..m][1] == '{';
      } else {
        assert x[0] == if i < |n1| + 2 then n1[i - 2] else '}';
        assert x[..m][0] != p2[..m][0];
      }
    }
  }

  /** Every field's name is a placeholder name. */
  lemma NamesWellFormed(f: Field)
    ensures IsPlaceholderName(Name(f))
  {
  }

  /** Different fields have different names, so different placeholders. */
  lemma NamesDistinct(f: Field, g: Field)
    requires f != g
    ensures Name(f) != Name(g)
  {
  }

  /** The handler replaces each placeholder once: no field appears twice in the order. */
  lemma ReplaceOrderDistinct()
    ensures forall k, j :: 0 <= k < j < |ReplaceOrder| ==> ReplaceOrder[k] != ReplaceOrder[j]
  {
  }

  /** A chain that replaces the placeholder of `order[k]` at step `k` by a value that cannot start a placeholder. */
  predicate ShapedChain(subs: seq<Sub>, order: seq<Field>) {
    && |subs| == |order|
    && (forall k :: 0 <= k < |subs| ==> subs[k].placeholder == Placeholder(Name(order[k])))
    && (forall k :: 0 <= k < |subs| ==> NoPlaceholderStart(subs[k].value))
  }

  lemma ShapedChainIndependent(subs: seq<Sub>, order: seq<Field>)
    requires ShapedChain(subs, order)
    requires forall k, j :: 0 <= k < j < |order| ==> order[k] != order[j]
    ensures StepsIndependent(subs)
  {
    forall k, j | 0 <= k < j < |subs| ensures Clean(subs[j].placeholder, subs[k].placeholder) {
      NamesWellFormed(order[j]);
      NamesWellFormed(order[k]);
      NamesDistinct(order[j], order[k]);
      DistinctPlaceholdersClean(Name(order[j]), Name(order[k]));
    }
    forall k, j | 0 <= k < j < |subs| ensures Clean(subs[k].value, subs[j].placeholder) {
      NoPlaceholderStartIsClean(subs[k].value, subs[j].placeholder);
    }
  }

  /** A shaped chain fills any template whose own text cannot start a placeholder. */
  lemma ShapedChainFills(segs: seq<Segment>, subs: seq<Sub>, order: seq<Field>)
    requires ShapedChain(subs, order) && HolesFit(segs, subs)
    requires forall k, j :: 0 <= k < j < |order| ==> order[k] != order[j]
    requires forall j :: 0 <= j < |segs| && segs[j].Lit? ==> NoPlaceholderStart(segs[j].text)
    ensures NonEmptyPlaceholders(subs)
    ensures ApplyAll(Render(segs, subs, 0), subs) == Render(segs, subs, |subs|)
  {
    ShapedChainIndependent(subs, order);
    forall j, k | 0 <= j < |segs| && segs[j].Lit? && 0 <= k < |subs|
      ensures Clean(segs[j].text, subs[k].placeholder)
    {
      NoPlaceholderStartIsClean(segs[j].text, subs[k].placeholder);
    }
    FillsTemplate(segs, subs);
  }

  /** The request's strings that the server inserts verbatim cannot start a placeholder. */
  predicate UserTextSafe(inv: Invoice) {
    && NoPlaceholderStart(inv.shopName)
    && NoPlaceholderStart(inv.shopUpi)
    && NoPlaceholderStart(inv.shopGst)
    && NoPlaceholderStart(inv.shopAddress)
    && NoPlaceholderStart(inv.shopPhone)
    && NoPlaceholderStart(inv.customerName)
    && NoPlaceholderStart(inv.customerPhone)
    && NoPlaceholderStart(inv.invoiceNumber)
    && NoPlaceholderStart(inv.invoiceDate)
    && NoPlaceholderStart(inv.notes)
    && NoPlaceholderStart(inv.paidDate)
  }

  lemma {:induction false} ConcatSafe(parts: seq<string>)
    requires forall k :: 0 <= k < |parts| ==> NoPlaceholderStart(parts[k])
    ensures NoPlaceholderStart(Concat(parts))
  {
    if parts != [] {
      ConcatSafe(parts[1..]);
      NoPlaceholderStartAppend(parts[0], Concat(parts[1..]));
    }
  }

  lemma DigitsSafe(s: string)
    requires AllDigits(s)
    ensures NoPlaceholderStart(s)
  {
    assert forall i :: 0 <= i < |s| ==> s[i] != '{';
  }

  lemma NumbersSafe(n: nat, i: int, p: int)
    ensures NoPlaceholderStart(NatToString(n))
    ensures NoPlaceholderStart(IntToString(i))
    ensures NoPlaceholderStart(FormatFixed2(p))
  {
    DigitsSafe(NatToString(n));
    var a := if i < 0 then -i else i;
    DigitsSafe(NatToString(a));
    if i < 0 {
      NoPlaceholderStartAppend("-", NatToString(a));
    }
    var b := if p < 0 then -p else p;
    DigitsSafe(NatToString(b / 100));
    DigitsSafe(TwoDigits(b % 100));
    NoPlaceholderStartAppend(if p < 0 then "-" else "", NatToString(b / 100));
    NoPlaceholderStartAppend((if p < 0 then "-" else "") + NatToString(b / 100), ".");
    NoPlaceholderStartAppend((if p < 0 then "-" else "") + NatToString(b / 100) + ".", TwoDigits(b % 100));
  }

  lemma RowSafe(r: Row)
    requires NoPlaceholderStart(r.name) && NoPlaceholderStart(r.unit)
    ensures NoPlaceholderStart(RenderRow(r))
  {
    NumbersSafe(r.number, r.qty, r.price);
    NumbersSafe(0, 0, r.amount);
    RowLiteralsSafe();
    var parts := RowParts(r);
    assert forall k :: 0 <= k < |parts| ==> NoPlaceholderStart(parts[k]);
    ConcatSafe(parts);
  }

  /** The fixed text of a row holds no `{`. */
  lemma RowLiteralsSafe()
    ensures NoPlaceholderStart(RowOpen) && NoPlaceholderStart(CellBreak) && NoPlaceholderStart(RowClose)
    ensures NoPlaceholderStart(RupeeSign) && NoPlaceholderStart(" ")
  {
    NoBraceNoPlaceholderStart(RowOpen);
    NoBraceNoPlaceholderStart(CellBreak);
    NoBraceNoPlaceholderStart(RowClose);
    NoBraceNoPlaceholderStart(RupeeSign);
    NoBraceNoPlaceholderStart(" ");
  }

  lemma {:induction false} RowsSafe(rows: seq<Row>)
    requires forall k :: 0 <= k < |rows| ==> NoPlaceholderStart(rows[k].name) && NoPlaceholderStart(rows[k].unit)
    ensures NoPlaceholderStart(RenderRows(rows))
  {
    if rows != [] {
      RowSafe(rows[0]);
      RowsSafe(rows[1..]);
      NoPlaceholderStartAppend(RenderRow(rows[0]), RenderRows(rows[1..]));
    }
  }

  /** Item names and units that cannot start a placeholder give rows that cannot either. */
  lemma ItemsHtmlSafe(items: seq<LineItem>)
    requires forall k :: 0 <= k < |items| ==>
      NoPlaceholderStart(items[k].name) && NoPlaceholderStart(UnitOrDefault(items[k].unit))
    ensures NoPlaceholderStart(ItemsHtml(items))
  {
    RowsSafe(Rows(items, 1));
  }

  /** With safe request strings and rows, no value of the chain can start a placeholder. */
  lemma ValuesSafe(inv: Invoice, itemsHtml: string)
    requires UserTextSafe(inv) && NoPlaceholderStart(itemsHtml)
    ensures forall f :: NoPlaceholderStart(Value(f, inv, itemsHtml))
  {
    NumbersSafe(0, 0, inv.subtotal);
    NumbersSafe(0, 0, inv.taxAmount);
    NumbersSafe(0, 0, inv.totalAmount);
    NoPlaceholderStartAppend("GSTIN: ", inv.shopGst);
    forall f ensures NoPlaceholderStart(Value(f, inv, itemsHtml)) {
      match f
      case _ =>
    }
  }

  /** With safe request strings and rows, the server's chain is shaped. */
  lemma SubstitutionsShaped(inv: Invoice, itemsHtml: string)
    requires UserTextSafe(inv) && NoPlaceholderStart(itemsHtml)
    ensures ShapedChain(Substitutions(inv, itemsHtml), ReplaceOrder)
  {
    ValuesSafe(inv, itemsHtml);
  }

  /**
   * When neither the template's own text nor any caller-supplied string can start a
   * `{{…}}` placeholder, populating the template fills it: every occurrence of every
   * placeholder becomes its value and the rest of the template is kept.
   */
  lemma PopulateFillsTemplate(segs: seq<Segment>, inv: Invoice, itemsHtml: string)
    requires HolesFit(segs, Substitutions(inv, itemsHtml))
    requires forall j :: 0 <= j < |segs| && segs[j].Lit? ==> NoPlaceholderStart(segs[j].text)
    requires UserTextSafe(inv) && NoPlaceholderStart(itemsHtml)
    ensures var subs := Substitutions(inv, itemsHtml);
      NonEmptyPlaceholders(subs) && ApplyAll(Render(segs, subs, 0), subs) == Render(segs, subs, |subs|)
  {
    SubstitutionsShaped(inv, itemsHtml);
    ReplaceOrderDistinct();
    ShapedChainFills(segs, Substitutions(inv, itemsHtml), ReplaceOrder);
  }

  // ---------------------------------------------------------------------------------------
  // File name, URLs and response
  // ---------------------------------------------------------------------------------------

  /** The characters `/[^a-zA-Z0-9-]/g` leaves alone. */
  predicate IsFilenameChar(c: char) {
    'a' <= c <= 'z' || 'A' <= c <= 'Z' || '0' <= c <= '9' || c == '-'
  }

  /** How many underscores a character outside the pattern's class becomes: one per code unit. */
  function Underscores(c: char): nat {
    if IsAstral(c) then 2 else 1
  }

  /** What one character of the invoice number becomes: itself, or one `_` per code unit. */
  function SanitizeChar(c: char): (r: string)
    ensures IsFilenameChar(c) ==> r == [c]
    ensures !IsFilenameChar(c) ==> |r| == Underscores(c) && forall j :: 0 <= j < |r| ==> r[j] == '_'
  {
    if IsFilenameChar(c) then [c] else if IsAstral(c) then "__" else "_"
  }

  /**
   * `invoice_number.replace(/[^a-zA-Z0-9-]/g, '_')`. The pattern has no `u` flag, so it
   * matches UTF-16 code units: a character outside the Basic Multilingual Plane, stored as two
   * surrogates, becomes two underscores, and the result is as long as the input in code units.
   */
  function Sanitize(s: string): (r: string)
    ensures |r| == Utf16Length(s)
    ensures forall i :: 0 <= i < |r| ==> IsFilenameChar(r[i]) || r[i] == '_'
  {
    if s == [] then []
    else SanitizeChar(s[0]) + Sanitize(s[1..])
  }

  /**
   * Inside the Basic Multilingual Plane code units and characters coincide: each allowed
   * character is kept in place and every other becomes `_`.
   */
  lemma {:induction false} SanitizeBmp(s: string)
    requires forall i :: 0 <= i < |s| ==> !IsAstral(s[i])
    ensures |Sanitize(s)| == |s|
    ensures forall i :: 0 <= i < |s| ==> Sanitize(s)[i] == if IsFilenameChar(s[i]) then s[i] else '_'
  {
    if s != [] {
      SanitizeBmp(s[1..]);
      var r, rest := Sanitize(s), Sanitize(s[1..]);
      assert r == SanitizeChar(s[0]) + rest && |SanitizeChar(s[0])| == 1;
      forall i | 1 <= i < |s| ensures r[i] == if IsFilenameChar(s[i]) then s[i] else '_' {
        assert r[i] == rest[i - 1] && s[i] == s[1..][i - 1];
      }
    }
  }

  /** Sanitising works piece by piece. */
  lemma {:induction false} SanitizeAppend(a: string, b: string)
    ensures Sanitize(a + b) == Sanitize(a) + Sanitize(b)
  {
    if a == [] {
      assert a + b == b;
    } else {
      assert (a + b)[0] == a[0] && (a + b)[1..] == a[1..] + b;
      SanitizeAppend(a[1..], b);
      assert Sanitize(a + b) == SanitizeChar(a[0]) + Sanitize(a[1..] + b);
    }
  }

  /**
   * Character `i` of the invoice number occupies the code units from `Utf16Length(s[..i])` on:
   * a kept character is copied there, and any other fills its one or two units with `_`.
   */
  lemma SanitizeAt(s: string, i: nat)
    requires i < |s|
    ensures var at, piece := Utf16Length(s[..i]), SanitizeChar(s[i]);
      at + |piece| <= |Sanitize(s)| && Sanitize(s)[at..at + |piece|] == piece
  {
    assert s == s[..i] + [s[i]] + s[i + 1..];
    SanitizeMiddle(s[..i], s[i], s[i + 1..]);
    var a, piece := Sanitize(s[..i]), SanitizeChar(s[i]);
    assert (a + piece + Sanitize(s[i + 1..]))[|a|..|a| + |piece|] == piece;
  }

  /** One character between two pieces is sanitised on its own. */
  lemma SanitizeMiddle(a: string, c: char, b: string)
    ensures Sanitize(a + [c] + b) == Sanitize(a) + SanitizeChar(c) + Sanitize(b)
  {
    SanitizeAppend(a + [c], b);
    SanitizeAppend(a, [c]);
    var one := [c];
    assert one[1..] == [] && Sanitize(one[1..]) == [];
    assert Sanitize(one) == SanitizeChar(c);
  }

  /** A name made only of allowed characters and underscores is its own sanitisation. */
  lemma {:induction false} SanitizeKeeps(s: string)
    requires forall i :: 0 <= i < |s| ==> IsFilenameChar(s[i]) || s[i] == '_'
    ensures Sanitize(s) == s
  {
    if s != [] {
      SanitizeKeeps(s[1..]);
      assert SanitizeChar(s[0]) == [s[0]];
    }
  }

  /** Sanitising is idempotent: a sanitised name is its own sanitisation. */
  lemma SanitizeIdempotent(s: string)
    ensures Sanitize(Sanitize(s)) == Sanitize(s)
  {
    SanitizeKeeps(Sanitize(s));
  }

  /** The PDF's file name: the sanitised invoice number followed by `.pdf`. */
  function Filename(invoiceNumber: string): (r: string)
    ensures |r| == Utf16Length(invoiceNumber) + 4
    ensures r[..Utf16Length(invoiceNumber)] == Sanitize(invoiceNumber)
    ensures r[Utf16Length(invoiceNumber)..] == ".pdf"
  {
    Sanitize(invoiceNumber) + ".pdf"
  }

  /** An emoji is two code units, so it becomes two underscores. */
  lemma FilenameAstral()
    ensures Filename("A\U{1F600}") == "A__.pdf"
  {
    assert IsAstral('\U{1F600}') && !IsFilenameChar('\U{1F600}');
    assert "A\U{1F600}"[1..] == "\U{1F600}";
    assert Sanitize("\U{1F600}") == "__";
    assert Sanitize("A\U{1F600}") == "A__";
  }

  /**
   * Distinct invoice numbers can share a file name, so one PDF overwrites the other: any two
   * numbers that differ in one disallowed character of the Basic Multilingual Plane, such as
   * `INV/7` and `INV 7`, both give `INV_7.pdf`.
   */
  lemma FilenameCollision(stem: string, c1: char, c2: char, tail: string)
    requires forall i :: 0 <= i < |stem| ==> IsFilenameChar(stem[i])
    requires forall i :: 0 <= i < |tail| ==> IsFilenameChar(tail[i])
    requires !IsFilenameChar(c1) && !IsAstral(c1) && !IsFilenameChar(c2) && !IsAstral(c2)
    ensures Filename(stem + [c1] + tail) == Filename(stem + [c2] + tail) == stem + "_" + tail + ".pdf"
  {
    SanitizeKeeps(stem);
    SanitizeKeeps(tail);
    forall c | c == c1 || c == c2
      ensures Sanitize(stem + [c] + tail) == stem + "_" + tail
    {
      assert Sanitize([c]) == SanitizeChar(c) + Sanitize([]);
      SanitizeAppend(stem, [c]);
      SanitizeAppend(stem + [c], tail);
    }
  }

  /** The port at which the reverse proxy publishes the invoices directory. */
  const PublicPort := "8090"

  /** `http://${HOST}:8090/invoices/${filename}`. */
  function OriginalUrl(host: string, filename: string): string {
    "http://" + host + ":" + PublicPort + "/invoices/" + filename
  }

  /**
   * What the URL shortener did: `Threw` when `fetch` rejected; otherwise the response's
   * `ok` flag and its body, `None` when reading the body threw.
   */
  datatype ShortenerReply = Threw | Replied(ok: bool, body: Option<string>)

  /** `shortUrl`: the shortener's body when its reply is ok and readable, else the direct URL. */
  function PdfUrl(originalUrl: string, reply: ShortenerReply): (r: string)
    ensures reply.Replied? && reply.ok && reply.body.Some? ==> r == reply.body.value
    ensures !(reply.Replied? && reply.ok && reply.body.Some?) ==> r == originalUrl
  {
    match reply
    case Replied(true, Some(body)) => body
    case _ => originalUrl
  }

  /** The JSON the handler answers with: 200 with the links, or 500 with the error's message. */
  datatype Response =
    | Generated(invoiceNumber: string, pdfUrl: string, originalUrl: string, filename: string, message: string)
    | GenerationFailed(error: string, message: string)
  {
    function Status(): int {
      if Generated? then 200 else 500
    }
  }

  const FailureText := "Failed to generate PDF"

  /** The success body for an invoice written under `filename`. */
  function SuccessResponse(invoiceNumber: string, host: string, reply: ShortenerReply): (r: Response)
    ensures r.Generated? && r.Status() == 200
    ensures r.invoiceNumber == invoiceNumber
    ensures r.filename == Filename(invoiceNumber)
    ensures r.originalUrl == OriginalUrl(host, r.filename)
    ensures reply.Replied? && reply.ok && reply.body.Some? ==> r.pdfUrl == reply.body.value
    ensures !(reply.Replied? && reply.ok && reply.body.Some?) ==> r.pdfUrl == r.originalUrl
    ensures r.message == "Invoice " + invoiceNumber + " generated successfully"
  {
    var filename := Filename(invoiceNumber);
    var original := OriginalUrl(host, filename);
    Generated(invoiceNumber, PdfUrl(original, reply), original, filename,
              "Invoice " + invoiceNumber + " generated successfully")
  }
}
