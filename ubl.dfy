/**
 * The UBL 2.1 Invoice elements the invoice writes, as tokens handed to the
 * XML writer in call order, and the facts about sequences of them that the
 * emission order is stated with. Namespace prefixes, text and escaping are
 * not modelled: a token stands for one `$writer->write([...])` call.
 */
module Ubl {
  import opened Parties
  import InvoiceParts

  datatype Elem =
    | UBLExtensions(extensions: InvoiceParts.Entity)
    | ProfileID(profile: string)
    | ID(id: string)
    | UUID(uuid: string)
    | IssueDate(date: InvoiceParts.Entity)
    | IssueTime(time: InvoiceParts.Entity)
    | InvoiceTypeCode(invoiceType: InvoiceParts.Entity)
    | Note(text: string, languageID: string)
    | DocumentCurrencyCode(code: string)
    | TaxCurrencyCode(code: string)
    | OrderReference(ref: InvoiceParts.Entity)
    | BillingReference(ref: InvoiceParts.Entity)
    | ContractDocumentReference(ref: InvoiceParts.Entity)
    | AdditionalDocumentReference(ref: InvoiceParts.Entity)
    | Signature(ref: InvoiceParts.Entity)
    | AccountingSupplierParty(party: Party)
    | AccountingCustomerParty(party: Party)
    | Delivery(delivery: InvoiceParts.Delivery)
    | PaymentMeans(ref: InvoiceParts.Entity)
    | AllowanceCharge(ref: InvoiceParts.Entity)
    | TaxTotalAmount(amount: InvoiceParts.Entity)    // a cac:TaxTotal holding only cbc:TaxAmount
    | TaxTotal(total: InvoiceParts.TaxTotal)
    | LegalMonetaryTotal(ref: InvoiceParts.Entity)
    | InvoiceLine(ref: InvoiceParts.Entity)

  /** The number of element kinds, one section each. */
  const Sections: nat := 24

  /** The section an element belongs to, in the order of the Invoice element sequence. */
  function Rank(e: Elem): (k: nat)
    ensures k < Sections
  {
    match e
    case UBLExtensions(_) => 0
    case ProfileID(_) => 1
    case ID(_) => 2
    case UUID(_) => 3
    case IssueDate(_) => 4
    case IssueTime(_) => 5
    case InvoiceTypeCode(_) => 6
    case Note(_, _) => 7
    case DocumentCurrencyCode(_) => 8
    case TaxCurrencyCode(_) => 9
    case OrderReference(_) => 10
    case BillingReference(_) => 11
    case ContractDocumentReference(_) => 12
    case AdditionalDocumentReference(_) => 13
    case Signature(_) => 14
    case AccountingSupplierParty(_) => 15
    case AccountingCustomerParty(_) => 16
    case Delivery(_) => 17
    case PaymentMeans(_) => 18
    case AllowanceCharge(_) => 19
    case TaxTotalAmount(_) => 20
    case TaxTotal(_) => 21
    case LegalMonetaryTotal(_) => 22
    case InvoiceLine(_) => 23
  }

  /** The elements never go back to an earlier section. */
  predicate Ordered(es: seq<Elem>)
  {
    forall i, j :: 0 <= i < j < |es| ==> Rank(es[i]) <= Rank(es[j])
  }

  /** The elements of rank `k`, in the order written. */
  function Select(es: seq<Elem>, k: nat): seq<Elem>
  {
    if es == [] then []
    else Select(es[..|es| - 1], k) + (if Rank(es[|es| - 1]) == k then [es[|es| - 1]] else [])
  }

  lemma {:induction false} SelectAppend(a: seq<Elem>, b: seq<Elem>, k: nat)
    ensures Select(a + b, k) == Select(a, k) + Select(b, k)
    decreases |b|
  {
    if b != [] {
      var b' := b[..|b| - 1];
      assert (a + b)[..|a + b| - 1] == a + b';
      SelectAppend(a, b', k);
    } else {
      assert a + b == a;
    }
  }

  lemma {:induction false} SelectUniform(seg: seq<Elem>, r: nat, k: nat)
    requires forall j :: 0 <= j < |seg| ==> Rank(seg[j]) == r
    ensures Select(seg, k) == if r == k then seg else []
    decreases |seg|
  {
    if seg != [] {
      var init := seg[..|seg| - 1];
      SelectUniform(init, r, k);
      assert seg == init + [seg[|seg| - 1]];
    }
  }

  /**
   * One step of reading back sections written in rank order: if the
   * elements of rank `k` in `a` are `sec` when `k < r` and none otherwise,
   * then once a section `b` of rank `r` is appended they are `sec` when
   * `k <= r`, `sec` being `b` itself when `k == r`.
   */
  lemma SelectExtend(a: seq<Elem>, b: seq<Elem>, r: nat, k: nat, sec: seq<Elem>)
    requires forall j :: 0 <= j < |b| ==> Rank(b[j]) == r
    requires Select(a, k) == if k < r then sec else []
    requires k == r ==> sec == b
    ensures Select(a + b, k) == if k <= r then sec else []
  {
    SelectAppend(a, b, k);
    SelectUniform(b, r, k);
    if k < r {
      assert Select(a + b, k) == sec + [];
    } else if k == r {
      assert Select(a + b, k) == [] + b;
    } else {
      assert Select(a + b, k) == [] + [];
    }
  }
}
