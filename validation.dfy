/** The form check run before a PDF is generated or the preview is opened:
    four header fields must be non-blank, checked in a fixed order, and at
    least one line item must have a non-blank description. */
module Validation {
  import opened Wrappers
  import opened Text
  import opened Items

  /** The values of the header inputs, as read from the form. */
  datatype Header = Header(
    invoiceNumber: string,
    invoiceDate: string,
    dueDate: string,
    clientName: string,
    clientEmail: string,
    clientPhone: string,
    clientCompany: string,
    clientAddress: string,
    paymentInstructions: string)

  /** The required header fields. */
  datatype Field = InvoiceNumber | InvoiceDate | DueDate | ClientName

  /** The order in which the required fields are checked. */
  const RequiredFields: seq<Field> := [InvoiceNumber, InvoiceDate, DueDate, ClientName]

  /** The value a required field holds in the header: the field at position
      k of the checking order reads the k-th of the four required inputs. */
  function ValueOf(h: Header, f: Field): (v: string)
    ensures v == [h.invoiceNumber, h.invoiceDate, h.dueDate, h.clientName][FieldIndex(f)]
  {
    match f
    case InvoiceNumber => h.invoiceNumber
    case InvoiceDate => h.invoiceDate
    case DueDate => h.dueDate
    case ClientName => h.clientName
  }

  /** The outcome of the check: accepted, or refused for the reason the
      alert names. */
  datatype Verdict = Accepted | MissingField(field: Field) | NoDescribedItem

  /** The loop over the required fields: the position of the first one, in
      the given order, whose trimmed value is empty; None when every one is
      filled in. */
  function FirstBlank(h: Header, fields: seq<Field>): (r: Option<nat>)
    ensures r.Some? ==> r.value < |fields| && IsBlank(ValueOf(h, fields[r.value]))
    ensures r.Some? ==> forall j :: 0 <= j < r.value ==> !IsBlank(ValueOf(h, fields[j]))
    ensures r.None? ==> forall j :: 0 <= j < |fields| ==> !IsBlank(ValueOf(h, fields[j]))
  {
    if fields == [] then None
    else if IsBlank(ValueOf(h, fields[0])) then Some(0)
    else
      match FirstBlank(h, fields[1..])
      case None => None
      case Some(k) => Some(k + 1)
  }

  /** All four required fields are filled in. */
  predicate HeaderComplete(h: Header): (b: bool)
    ensures b <==> forall f: Field :: !IsBlank(ValueOf(h, f))
  {
    assert ValueOf(h, InvoiceNumber) == h.invoiceNumber && ValueOf(h, InvoiceDate) == h.invoiceDate;
    assert ValueOf(h, DueDate) == h.dueDate && ValueOf(h, ClientName) == h.clientName;
    && !IsBlank(h.invoiceNumber) && !IsBlank(h.invoiceDate)
    && !IsBlank(h.dueDate) && !IsBlank(h.clientName)
  }

  /** `serviceItems.some(item => item.description && item.description.trim() !== '')`:
      true exactly when some item's description is non-blank. */
  function SomeNonBlank(items: seq<Item>): (b: bool)
    ensures b <==> exists k :: 0 <= k < |items| && !IsBlank(items[k].description)
  {
    if items == [] then false
    else !IsBlank(items[0].description) || SomeNonBlank(items[1..])
  }

  /** `validateForm`: refuse at the first blank required field; with all four
      present, refuse unless some item has a non-blank description. */
  function Validate(h: Header, items: seq<Item>): (v: Verdict)
    ensures v.MissingField? ==> IsBlank(ValueOf(h, v.field))
    ensures v == Accepted ==> HeaderComplete(h) && SomeNonBlank(items)
    ensures v == NoDescribedItem ==> HeaderComplete(h) && !SomeNonBlank(items)
  {
    match FirstBlank(h, RequiredFields)
    case Some(k) => MissingField(RequiredFields[k])
    case None =>
      FilledIsComplete(h);
      if SomeNonBlank(items) then Accepted else NoDescribedItem
  }

  /** The header is complete exactly when every field of the checking order
      is filled in. */
  lemma FilledIsComplete(h: Header)
    ensures HeaderComplete(h) <==>
      forall j :: 0 <= j < |RequiredFields| ==> !IsBlank(ValueOf(h, RequiredFields[j]))
  {
    assert RequiredFields[0] == InvoiceNumber && RequiredFields[1] == InvoiceDate;
    assert RequiredFields[2] == DueDate && RequiredFields[3] == ClientName;
  }

  /** The check accepts exactly the forms whose four required fields are
      filled in and that have an item with a non-blank description. */
  lemma ValidateAcceptsExactly(h: Header, items: seq<Item>)
    ensures Validate(h, items) == Accepted <==> HeaderComplete(h) && SomeNonBlank(items)
  {
    FilledIsComplete(h);
  }

  /** A refusal for a missing field names the first blank one in the order
      invoice number, invoice date, due date, client name: every field before
      it is filled in. */
  lemma MissingFieldIsFirstBlank(h: Header, items: seq<Item>, k: nat)
    requires k < |RequiredFields|
    requires Validate(h, items) == MissingField(RequiredFields[k])
    ensures forall j :: 0 <= j < k ==> !IsBlank(ValueOf(h, RequiredFields[j]))
  {
    var fb := FirstBlank(h, RequiredFields);
    assert fb.Some? && RequiredFields[fb.value] == RequiredFields[k];
    assert fb.value == k;
  }

  /** The position of a field in the checking order. */
  function FieldIndex(f: Field): (k: nat)
    ensures k < |RequiredFields| && RequiredFields[k] == f
  {
    match f
    case InvoiceNumber => 0
    case InvoiceDate => 1
    case DueDate => 2
    case ClientName => 3
  }

  /** An empty client name is refused even when the other fields and the
      items are fine. */
  lemma EmptyClientNameRejected(h: Header, items: seq<Item>)
    requires !IsBlank(h.invoiceNumber) && !IsBlank(h.invoiceDate) && !IsBlank(h.dueDate)
    requires h.clientName == ""
    ensures Validate(h, items) == MissingField(ClientName)
  {
    FilledIsComplete(h);
    assert IsBlank(ValueOf(h, RequiredFields[3]));
    var fb := FirstBlank(h, RequiredFields);
    assert fb.Some?;
    assert fb.value >= 3 by {
      assert !IsBlank(ValueOf(h, RequiredFields[0]));
      assert !IsBlank(ValueOf(h, RequiredFields[1]));
      assert !IsBlank(ValueOf(h, RequiredFields[2]));
    }
  }

  /** The first blank field wins: a blank invoice number is reported whatever
      the other fields hold. */
  lemma BlankInvoiceNumberReportedFirst(h: Header, items: seq<Item>)
    requires IsBlank(h.invoiceNumber)
    ensures Validate(h, items) == MissingField(InvoiceNumber)
  {
    assert FirstBlank(h, RequiredFields) == Some(0);
  }

  /** A description of spaces only is not enough, although such an item is
      shown as a table row: the form with that one item is refused. */
  lemma WhitespaceDescriptionNotValid(h: Header, it: Item)
    requires HeaderComplete(h)
    requires it.description == " "
    ensures Validate(h, [it]) == NoDescribedItem
    ensures Described([it]) == [it]
  {
    assert IsBlank(it.description[1..]);
  }

  /** An accepted form always has at least one table row: a non-blank
      description is also a non-empty one. */
  lemma AcceptedHasRows(h: Header, items: seq<Item>)
    requires Validate(h, items) == Accepted
    ensures Described(items) != []
  {
    ValidateAcceptsExactly(h, items);
    var k :| 0 <= k < |items| && !IsBlank(items[k].description);
    assert items[k].description != "";
    DescribedMembers(items, items[k]);
  }

  /** After the check accepts, the client name is non-empty, so the
      `|| 'Client'` fallback of the file name is never used. */
  lemma AcceptedHasClientName(h: Header, items: seq<Item>)
    requires Validate(h, items) == Accepted
    ensures h.clientName != ""
  {
  }
}
