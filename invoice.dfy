/**
 * The invoice aggregate: its fields, the setters that guard them, the
 * required-field check run before serialisation, and the order in which the
 * serialiser hands the elements to the XML writer.
 *
 * `InvoiceState` is the value of all the fields; `Validate` and `Emission`
 * are its specification. The class `Invoice` holds the same fields as
 * mutable state and its methods are proved against those functions.
 */
module Invoicing {
  import opened PhpValues
  import opened Parties
  import opened InvoiceParts
  import Ubl

  /** The invoice's fields; `None` is PHP's `null`, a list field is `null` or an array. */
  datatype InvoiceState = InvoiceState(
    ublExtensions: Option<Entity>,
    profileID: string,
    id: Option<string>,
    uuid: Option<string>,
    issueDate: Option<Entity>,
    issueTime: Option<Entity>,
    invoiceType: Option<Entity>,
    note: Option<string>,
    languageID: string,
    invoiceCurrencyCode: string,
    taxCurrencyCode: string,
    documentCurrencyCode: string,
    orderReference: Option<Entity>,
    billingReferences: Option<seq<Entity>>,
    contract: Option<Entity>,
    additionalDocumentReferences: Option<seq<Entity>>,
    accountingSupplierParty: Option<Party>,
    accountingCustomerParty: Option<Party>,
    delivery: Option<Delivery>,
    paymentMeans: Option<Entity>,
    allowanceCharges: Option<seq<Entity>>,
    taxTotal: Option<TaxTotal>,
    legalMonetaryTotal: Option<Entity>,
    invoiceLines: Option<seq<Entity>>,
    signature: Option<Entity>)

  /** The fields of a new invoice. */
  const Initial := InvoiceState(
    ublExtensions := None, profileID := "reporting:1.0", id := None, uuid := None,
    issueDate := None, issueTime := None, invoiceType := None, note := None,
    languageID := "en", invoiceCurrencyCode := "SAR", taxCurrencyCode := "SAR",
    documentCurrencyCode := "SAR", orderReference := None, billingReferences := None,
    contract := None, additionalDocumentReferences := None, accountingSupplierParty := None,
    accountingCustomerParty := None, delivery := None, paymentMeans := None,
    allowanceCharges := None, taxTotal := None, legalMonetaryTotal := None,
    invoiceLines := None, signature := None)

  /** The `InvalidArgumentException`s the invoice throws, by the field concerned. */
  datatype InvoiceError =
    | MissingId
    | InvalidIssueDate
    | InvalidIssueTime
    | MissingSupplier
    | MissingCustomer
    | MissingAdditionalDocumentReferences
    | MissingInvoiceLines
    | MissingLegalMonetaryTotal
    | BlankArgument(field: string)

  /** A call that returns normally, or throws. */
  datatype Status = Ok | Err(error: InvoiceError)

  /** The checks `validate` makes, in its order. */
  const RequiredChecks: seq<InvoiceError> := [
    MissingId, InvalidIssueDate, InvalidIssueTime, MissingSupplier, MissingCustomer,
    MissingAdditionalDocumentReferences, MissingInvoiceLines, MissingLegalMonetaryTotal]

  /** The state fails check `e`: the field it is about is null. */
  predicate Lacks(s: InvoiceState, e: InvoiceError)
  {
    match e
    case MissingId => s.id.None?
    case InvalidIssueDate => s.issueDate.None?
    case InvalidIssueTime => s.issueTime.None?
    case MissingSupplier => s.accountingSupplierParty.None?
    case MissingCustomer => s.accountingCustomerParty.None?
    case MissingAdditionalDocumentReferences => s.additionalDocumentReferences.None?
    case MissingInvoiceLines => s.invoiceLines.None?
    case MissingLegalMonetaryTotal => s.legalMonetaryTotal.None?
    case BlankArgument(_) => false
  }

  /**
   * `Invoice::validate`: the chain of null checks, in the source's order.
   * `ValidateFirstMissing` states what it decides.
   */
  function Validate(s: InvoiceState): (r: Status)
    ensures r.Err? ==> r.error in RequiredChecks && Lacks(s, r.error)
  {
    if s.id.None? then Err(MissingId)
    else if s.issueDate.None? then Err(InvalidIssueDate)
    else if s.issueTime.None? then Err(InvalidIssueTime)
    else if s.accountingSupplierParty.None? then Err(MissingSupplier)
    else if s.accountingCustomerParty.None? then Err(MissingCustomer)
    else if s.additionalDocumentReferences.None? then Err(MissingAdditionalDocumentReferences)
    else if s.invoiceLines.None? then Err(MissingInvoiceLines)
    else if s.legalMonetaryTotal.None? then Err(MissingLegalMonetaryTotal)
    else Ok
  }

  /** The position of the first check the state fails, or 8 when it fails none. */
  function FirstMissing(s: InvoiceState, from: nat): (i: nat)
    requires from <= |RequiredChecks|
    ensures from <= i <= |RequiredChecks|
    ensures forall j :: from <= j < i ==> !Lacks(s, RequiredChecks[j])
    ensures i < |RequiredChecks| ==> Lacks(s, RequiredChecks[i])
    decreases |RequiredChecks| - from
  {
    if from == |RequiredChecks| || Lacks(s, RequiredChecks[from]) then from
    else FirstMissing(s, from + 1)
  }

  /**
   * `validate` passes exactly when no required field is null (empty lists
   * pass, the invoice type is not looked at), and otherwise reports the
   * first null field in the order of `RequiredChecks`.
   */
  lemma ValidateFirstMissing(s: InvoiceState)
    ensures Validate(s).Ok? <==> forall i :: 0 <= i < |RequiredChecks| ==> !Lacks(s, RequiredChecks[i])
    ensures Validate(s).Err? ==> Validate(s).error == RequiredChecks[FirstMissing(s, 0)]
  {
    var i := FirstMissing(s, 0);
    if i < |RequiredChecks| {
      assert !(Validate(s).Ok?);
    }
    assert RequiredChecks[0] == MissingId;
    assert RequiredChecks[1] == InvalidIssueDate;
    assert RequiredChecks[2] == InvalidIssueTime;
    assert RequiredChecks[3] == MissingSupplier;
    assert RequiredChecks[4] == MissingCustomer;
    assert RequiredChecks[5] == MissingAdditionalDocumentReferences;
    assert RequiredChecks[6] == MissingInvoiceLines;
    assert RequiredChecks[7] == MissingLegalMonetaryTotal;
  }

  /** The only fields `validate` reads are the required ones. */
  lemma ValidateIgnoresOptional(s: InvoiceState, kind: Option<Entity>, lines: seq<Entity>, refs: seq<Entity>)
    requires Validate(s).Ok?
    ensures Validate(s.(invoiceType := kind)).Ok?
    ensures Validate(s.(invoiceLines := Some(lines), additionalDocumentReferences := Some(refs))).Ok?
    ensures Validate(s.(legalMonetaryTotal := None)) == Err(MissingLegalMonetaryTotal)
  {
    assert !Lacks(s, RequiredChecks[7]);
  }

  /** The four list fields the serialiser loops over. */
  datatype ListKind = Billing | Additional | Allowance | Lines

  /** The element written for one entry of a list. */
  function Tag(kind: ListKind, e: Entity): (t: Ubl.Elem)
    ensures Ubl.Rank(t) == match kind
      case Billing => 11 case Additional => 13 case Allowance => 19 case Lines => 23
  {
    match kind
    case Billing => Ubl.BillingReference(e)
    case Additional => Ubl.AdditionalDocumentReference(e)
    case Allowance => Ubl.AllowanceCharge(e)
    case Lines => Ubl.InvoiceLine(e)
  }

  /** One element per entry, in list order. */
  function Each(kind: ListKind, xs: seq<Entity>): seq<Ubl.Elem>
  {
    seq(|xs|, i requires 0 <= i < |xs| => Tag(kind, xs[i]))
  }

  /** What a list field writes: nothing when it is null. */
  function EachOf(kind: ListKind, xs: Option<seq<Entity>>): seq<Ubl.Elem>
  {
    if xs.Some? then Each(kind, xs.value) else []
  }

  /** PHP truthiness of a string field. */
  predicate Filled(code: string)
  {
    Truthy(Str(code))
  }

  /**
   * What `xmlSerialize` writes for the element kind of rank `k`, when the
   * state passes `validate`. The document currency code is written from
   * `invoiceCurrencyCode`; the TaxAmount-only TaxTotal is written when the
   * tax total has an amount.
   */
  function Section(s: InvoiceState, k: nat): (es: seq<Ubl.Elem>)
  {
    if k == 0 then (if s.ublExtensions.Some? then [Ubl.UBLExtensions(s.ublExtensions.value)] else [])
    else if k == 1 then [Ubl.ProfileID(s.profileID)]
    else if k == 2 then (if s.id.Some? then [Ubl.ID(s.id.value)] else [])
    else if k == 3 then (if s.uuid.Some? then [Ubl.UUID(s.uuid.value)] else [])
    else if k == 4 then (if s.issueDate.Some? then [Ubl.IssueDate(s.issueDate.value)] else [])
    else if k == 5 then (if s.issueTime.Some? then [Ubl.IssueTime(s.issueTime.value)] else [])
    else if k == 6 then (if s.invoiceType.Some? then [Ubl.InvoiceTypeCode(s.invoiceType.value)] else [])
    else if k == 7 then (if s.note.Some? then [Ubl.Note(s.note.value, s.languageID)] else [])
    else if k == 8 then (if Filled(s.invoiceCurrencyCode) then [Ubl.DocumentCurrencyCode(s.invoiceCurrencyCode)] else [])
    else if k == 9 then (if Filled(s.taxCurrencyCode) then [Ubl.TaxCurrencyCode(s.taxCurrencyCode)] else [])
    else if k == 10 then (if s.orderReference.Some? then [Ubl.OrderReference(s.orderReference.value)] else [])
    else if k == 11 then EachOf(Billing, s.billingReferences)
    else if k == 12 then (if s.contract.Some? then [Ubl.ContractDocumentReference(s.contract.value)] else [])
    else if k == 13 then EachOf(Additional, s.additionalDocumentReferences)
    else if k == 14 then (if s.signature.Some? then [Ubl.Signature(s.signature.value)] else [])
    else if k == 15 then (if s.accountingSupplierParty.Some? then [Ubl.AccountingSupplierParty(s.accountingSupplierParty.value)] else [])
    else if k == 16 then (if s.accountingCustomerParty.Some? then [Ubl.AccountingCustomerParty(s.accountingCustomerParty.value)] else [])
    else if k == 17 then (if s.delivery.Some? then [Ubl.Delivery(s.delivery.value)] else [])
    else if k == 18 then (if s.paymentMeans.Some? then [Ubl.PaymentMeans(s.paymentMeans.value)] else [])
    else if k == 19 then EachOf(Allowance, s.allowanceCharges)
    else if k == 20 then
      (if s.taxTotal.Some? && s.taxTotal.value.taxAmount.Some? then [Ubl.TaxTotalAmount(s.taxTotal.value.taxAmount.value)] else [])
    else if k == 21 then (if s.taxTotal.Some? then [Ubl.TaxTotal(s.taxTotal.value)] else [])
    else if k == 22 then (if s.legalMonetaryTotal.Some? then [Ubl.LegalMonetaryTotal(s.legalMonetaryTotal.value)] else [])
    else if k == 23 then EachOf(Lines, s.invoiceLines)
    else []
  }

  /** Every element of section `k` is of the kind of rank `k`. */
  lemma SectionRanks(s: InvoiceState, k: nat)
    ensures forall j :: 0 <= j < |Section(s, k)| ==> Ubl.Rank(Section(s, k)[j]) == k
  {
  }

  /** What the serialiser has written once it is past the first `k` sections. */
  function Written(s: InvoiceState, k: nat): seq<Ubl.Elem>
  {
    if k == 0 then [] else Written(s, k - 1) + Section(s, k - 1)
  }

  /** Everything `xmlSerialize` writes for a state that passes `validate`. */
  function Emission(s: InvoiceState): seq<Ubl.Elem>
  {
    Written(s, Ubl.Sections)
  }

  /** The first `k` sections are written in rank order, and hold ranks below `k` only. */
  lemma {:induction false} WrittenOrdered(s: InvoiceState, k: nat)
    ensures Ubl.Ordered(Written(s, k))
    ensures forall i :: 0 <= i < |Written(s, k)| ==> Ubl.Rank(Written(s, k)[i]) < k
  {
    if k > 0 {
      var r := k - 1;
      var a := Written(s, r);
      var b := Section(s, r);
      WrittenOrdered(s, r);
      SectionRanks(s, r);
      assert Written(s, k) == a + b;
      forall i, j | 0 <= i < j < |a + b| ensures Ubl.Rank((a + b)[i]) <= Ubl.Rank((a + b)[j]) {
        if j < |a| {
        } else if i < |a| {
          assert Ubl.Rank((a + b)[j]) == r;
        } else {
          assert Ubl.Rank((a + b)[i]) == r == Ubl.Rank((a + b)[j]);
        }
      }
      forall i | 0 <= i < |a + b| ensures Ubl.Rank((a + b)[i]) < k {
        if i >= |a| {
          assert (a + b)[i] == b[i - |a|];
        }
      }
    }
  }

  /** The elements of rank `j` among the first `k` sections are section `j`, when `j < k`. */
  lemma {:induction false} WrittenSelect(s: InvoiceState, k: nat, j: nat)
    ensures Ubl.Select(Written(s, k), j) == if j < k then Section(s, j) else []
  {
    if k > 0 {
      var r := k - 1;
      var w, b := Written(s, r), Section(s, r);
      assert Written(s, k) == w + b;
      assert Ubl.Select(w + b, j) == if j <= r then Section(s, j) else [] by {
        WrittenSelect(s, r, j);
        SectionRanks(s, r);
        Ubl.SelectExtend(w, b, r, j, Section(s, j));
      }
    } else {
      assert Written(s, k) == [];
    }
  }

  /** Appending section `k` to what the first `k` sections wrote gives the first `k + 1`. */
  lemma Extend(s: InvoiceState, k: nat, base: seq<Ubl.Elem>, before: seq<Ubl.Elem>, after: seq<Ubl.Elem>)
    requires before == base + Written(s, k)
    requires after == before + Section(s, k)
    ensures after == base + Written(s, k + 1)
  {
    assert base + Written(s, k) + Section(s, k) == base + (Written(s, k) + Section(s, k));
  }

  /** The elements are written in the order of the UBL Invoice element sequence. */
  lemma EmissionOrdered(s: InvoiceState)
    ensures Ubl.Ordered(Emission(s))
  {
    WrittenOrdered(s, Ubl.Sections);
  }

  /** The elements of one kind in the output are exactly that kind's section. */
  lemma EmissionSection(s: InvoiceState, k: nat)
    requires k < Ubl.Sections
    ensures Ubl.Select(Emission(s), k) == Section(s, k)
  {
    WrittenSelect(s, Ubl.Sections, k);
  }

  /**
   * A valid invoice writes exactly one ProfileID, ID, IssueDate and
   * IssueTime.
   */
  lemma ValidHeader(s: InvoiceState)
    requires Validate(s).Ok?
    ensures Ubl.Select(Emission(s), 1) == [Ubl.ProfileID(s.profileID)]
    ensures Ubl.Select(Emission(s), 2) == [Ubl.ID(s.id.value)]
    ensures Ubl.Select(Emission(s), 4) == [Ubl.IssueDate(s.issueDate.value)]
    ensures Ubl.Select(Emission(s), 5) == [Ubl.IssueTime(s.issueTime.value)]
  {
    EmissionSection(s, 1);
    EmissionSection(s, 2);
    EmissionSection(s, 4);
    EmissionSection(s, 5);
  }

  /**
   * A valid invoice writes exactly one supplier party, one customer party
   * and one LegalMonetaryTotal.
   */
  lemma ValidParties(s: InvoiceState)
    requires Validate(s).Ok?
    ensures Ubl.Select(Emission(s), 15) == [Ubl.AccountingSupplierParty(s.accountingSupplierParty.value)]
    ensures Ubl.Select(Emission(s), 16) == [Ubl.AccountingCustomerParty(s.accountingCustomerParty.value)]
    ensures Ubl.Select(Emission(s), 22) == [Ubl.LegalMonetaryTotal(s.legalMonetaryTotal.value)]
  {
    EmissionSection(s, 15);
    EmissionSection(s, 16);
    EmissionSection(s, 22);
  }

  /**
   * The DocumentCurrencyCode element carries the invoice currency code, and
   * is written exactly when that code is truthy; the TaxCurrencyCode
   * likewise for the tax currency code.
   */
  lemma CurrencyCodes(s: InvoiceState)
    ensures Ubl.Select(Emission(s), 8) ==
      (if Filled(s.invoiceCurrencyCode) then [Ubl.DocumentCurrencyCode(s.invoiceCurrencyCode)] else [])
    ensures Ubl.Select(Emission(s), 9) ==
      (if Filled(s.taxCurrencyCode) then [Ubl.TaxCurrencyCode(s.taxCurrencyCode)] else [])
  {
    EmissionSection(s, 8);
    EmissionSection(s, 9);
  }

  /**
   * The TaxAmount-only TaxTotal is written exactly when the tax total has an
   * amount, and never without the full TaxTotal.
   */
  lemma TaxTotals(s: InvoiceState)
    ensures |Ubl.Select(Emission(s), 20)| == 1 <==> s.taxTotal.Some? && s.taxTotal.value.taxAmount.Some?
    ensures |Ubl.Select(Emission(s), 20)| <= |Ubl.Select(Emission(s), 21)| <= 1
    ensures s.taxTotal.Some? ==> Ubl.Select(Emission(s), 21) == [Ubl.TaxTotal(s.taxTotal.value)]
  {
    EmissionSection(s, 20);
    EmissionSection(s, 21);
  }

  /** Every list field writes one element per entry, in list order, or nothing when null. */
  lemma ListSections(s: InvoiceState)
    ensures Ubl.Select(Emission(s), 11) == EachOf(Billing, s.billingReferences)
    ensures Ubl.Select(Emission(s), 13) == EachOf(Additional, s.additionalDocumentReferences)
    ensures Ubl.Select(Emission(s), 19) == EachOf(Allowance, s.allowanceCharges)
    ensures Ubl.Select(Emission(s), 23) == EachOf(Lines, s.invoiceLines)
  {
    EmissionSection(s, 11);
    EmissionSection(s, 13);
    EmissionSection(s, 19);
    EmissionSection(s, 23);
  }

  /** The document currency code field is never written: the output does not depend on it. */
  lemma {:induction false} DocumentCurrencyCodeUnused(s: InvoiceState, code: string, k: nat)
    ensures Written(s.(documentCurrencyCode := code), k) == Written(s, k)
  {
    if k > 0 {
      DocumentCurrencyCodeUnused(s, code, k - 1);
      assert Section(s.(documentCurrencyCode := code), k - 1) == Section(s, k - 1);
    }
  }

  /** A new invoice fails validation on its id, so serialising it writes nothing. */
  lemma InitialInvalid()
    ensures Validate(Initial) == Err(MissingId)
    ensures forall s :: Validate(s).Ok? ==> s.id.Some?
  {
  }

  /** The XML writer, as the sequence of elements written so far. */
  class Writer {
    var out: seq<Ubl.Elem>

    constructor ()
      ensures out == []
    {
      out := [];
    }

    /** `$writer->write([...])`: one more element at the end. */
    method Write(e: Ubl.Elem)
      modifies this
      ensures out == old(out) + [e]
    {
      out := out + [e];
    }
  }

  /** `Saleh7\Zatca\Invoice`, its fields updated in place by the setters. */
  class Invoice {
    var ublExtensions: Option<Entity>
    const profileID: string := "reporting:1.0"
    var id: Option<string>
    var uuid: Option<string>
    var issueDate: Option<Entity>
    var issueTime: Option<Entity>
    var invoiceType: Option<Entity>
    var note: Option<string>
    var languageID: string
    var invoiceCurrencyCode: string
    var taxCurrencyCode: string
    var documentCurrencyCode: string
    var orderReference: Option<Entity>
    var billingReferences: Option<seq<Entity>>
    var contract: Option<Entity>
    var additionalDocumentReferences: Option<seq<Entity>>
    var accountingSupplierParty: Option<Party>
    var accountingCustomerParty: Option<Party>
    var delivery: Option<Delivery>
    var paymentMeans: Option<Entity>
    var allowanceCharges: Option<seq<Entity>>
    var taxTotal: Option<TaxTotal>
    var legalMonetaryTotal: Option<Entity>
    var invoiceLines: Option<seq<Entity>>
    var signature: Option<Entity>

    /** The fields, as a value; the profile id is fixed. */
    function State(): (st: InvoiceState)
      reads this
      ensures st.profileID == "reporting:1.0"
    {
      InvoiceState(
        ublExtensions, profileID, id, uuid, issueDate, issueTime, invoiceType, note,
        languageID, invoiceCurrencyCode, taxCurrencyCode, documentCurrencyCode,
        orderReference, billingReferences, contract, additionalDocumentReferences,
        accountingSupplierParty, accountingCustomerParty, delivery, paymentMeans,
        allowanceCharges, taxTotal, legalMonetaryTotal, invoiceLines, signature)
    }

    /** A new invoice has the field defaults. */
    constructor ()
      ensures State() == Initial
    {
      ublExtensions := None;
      id := None;
      uuid := None;
      issueDate := None;
      issueTime := None;
      invoiceType := None;
      note := None;
      languageID := "en";
      invoiceCurrencyCode := "SAR";
      taxCurrencyCode := "SAR";
      documentCurrencyCode := "SAR";
      orderReference := None;
      billingReferences := None;
      contract := None;
      additionalDocumentReferences := None;
      accountingSupplierParty := None;
      accountingCustomerParty := None;
      delivery := None;
      paymentMeans := None;
      allowanceCharges := None;
      taxTotal := None;
      legalMonetaryTotal := None;
      invoiceLines := None;
      signature := None;
    }

    method SetUBLExtensions(x: Entity)
      modifies this
      ensures State() == old(State()).(ublExtensions := Some(x))
    {
      ublExtensions := Some(x);
    }

    /** Throws on a string that is blank after trimming; null is stored. */
    method SetId(x: Option<string>) returns (r: Status)
      modifies this
      ensures r.Err? <==> x.Some? && Blank(x.value)
      ensures r.Err? ==> r.error == BlankArgument("id") && State() == old(State())
      ensures r.Ok? ==> State() == old(State()).(id := x)
    {
      if x.Some? {
        TrimEmptyIffBlank(x.value);
        if Trim(x.value) == "" {
          return Err(BlankArgument("id"));
        }
      }
      id := x;
      r := Ok;
    }

    /** Throws on a string that is blank after trimming; null is stored. */
    method SetUUID(x: Option<string>) returns (r: Status)
      modifies this
      ensures r.Err? <==> x.Some? && Blank(x.value)
      ensures r.Err? ==> r.error == BlankArgument("UUID") && State() == old(State())
      ensures r.Ok? ==> State() == old(State()).(uuid := x)
    {
      if x.Some? {
        TrimEmptyIffBlank(x.value);
        if Trim(x.value) == "" {
          return Err(BlankArgument("UUID"));
        }
      }
      uuid := x;
      r := Ok;
    }

    method SetIssueDate(x: Entity)
      modifies this
      ensures State() == old(State()).(issueDate := Some(x))
    {
      issueDate := Some(x);
    }

    method SetIssueTime(x: Entity)
      modifies this
      ensures State() == old(State()).(issueTime := Some(x))
    {
      issueTime := Some(x);
    }

    method SetInvoiceType(x: Entity)
      modifies this
      ensures State() == old(State()).(invoiceType := Some(x))
    {
      invoiceType := Some(x);
    }

    /** Null leaves the stored note as it was. */
    method SetNote(x: Option<string>)
      modifies this
      ensures x.None? ==> State() == old(State())
      ensures x.Some? ==> State() == old(State()).(note := x)
    {
      if x.Some? {
        note := x;
      }
    }

    /** Throws on a string that is blank after trimming. */
    method SetLanguageID(x: string) returns (r: Status)
      modifies this
      ensures r.Err? <==> Blank(x)
      ensures r.Err? ==> r.error == BlankArgument("languageID") && State() == old(State())
      ensures r.Ok? ==> State() == old(State()).(languageID := x)
    {
      TrimEmptyIffBlank(x);
      if Trim(x) == "" {
        return Err(BlankArgument("languageID"));
      }
      languageID := x;
      r := Ok;
    }

    /** Throws on a string that is blank after trimming. */
    method SetInvoiceCurrencyCode(x: string) returns (r: Status)
      modifies this
      ensures r.Err? <==> Blank(x)
      ensures r.Err? ==> r.error == BlankArgument("invoiceCurrencyCode") && State() == old(State())
      ensures r.Ok? ==> State() == old(State()).(invoiceCurrencyCode := x)
    {
      TrimEmptyIffBlank(x);
      if Trim(x) == "" {
        return Err(BlankArgument("invoiceCurrencyCode"));
      }
      invoiceCurrencyCode := x;
      r := Ok;
    }

    /** Throws on a string that is blank after trimming. */
    method SetTaxCurrencyCode(x: string) returns (r: Status)
      modifies this
      ensures r.Err? <==> Blank(x)
      ensures r.Err? ==> r.error == BlankArgument("taxCurrencyCode") && State() == old(State())
      ensures r.Ok? ==> State() == old(State()).(taxCurrencyCode := x)
    {
      TrimEmptyIffBlank(x);
      if Trim(x) == "" {
        return Err(BlankArgument("taxCurrencyCode"));
      }
      taxCurrencyCode := x;
      r := Ok;
    }

    /** Throws on a string that is blank after trimming. */
    method SetDocumentCurrencyCode(x: string) returns (r: Status)
      modifies this
      ensures r.Err? <==> Blank(x)
      ensures r.Err? ==> r.error == BlankArgument("documentCurrencyCode") && State() == old(State())
      ensures r.Ok? ==> State() == old(State()).(documentCurrencyCode := x)
    {
      TrimEmptyIffBlank(x);
      if Trim(x) == "" {
        return Err(BlankArgument("documentCurrencyCode"));
      }
      documentCurrencyCode := x;
      r := Ok;
    }

    method SetOrderReference(x: Entity)
      modifies this
      ensures State() == old(State()).(orderReference := Some(x))
    {
      orderReference := Some(x);
    }

    method SetBillingReferences(xs: seq<Entity>)
      modifies this
      ensures State() == old(State()).(billingReferences := Some(xs))
    {
      billingReferences := Some(xs);
    }

    method SetContract(x: Entity)
      modifies this
      ensures State() == old(State()).(contract := Some(x))
    {
      contract := Some(x);
    }

    method SetAdditionalDocumentReferences(xs: seq<Entity>)
      modifies this
      ensures State() == old(State()).(additionalDocumentReferences := Some(xs))
    {
      additionalDocumentReferences := Some(xs);
    }

    method SetAccountingSupplierParty(x: Party)
      modifies this
      ensures State() == old(State()).(accountingSupplierParty := Some(x))
    {
      accountingSupplierParty := Some(x);
    }

    method SetAccountingCustomerParty(x: Party)
      modifies this
      ensures State() == old(State()).(accountingCustomerParty := Some(x))
    {
      accountingCustomerParty := Some(x);
    }

    /**
     * Stores the delivery only when one of its three parts is set; otherwise
     * the previous delivery is kept, not cleared.
     */
    method SetDelivery(x: Delivery)
      modifies this
      ensures x.actualDeliveryDate.Some? || x.latestDeliveryDate.Some? || x.deliveryLocation.Some? ==>
        State() == old(State()).(delivery := Some(x))
      ensures x.actualDeliveryDate.None? && x.latestDeliveryDate.None? && x.deliveryLocation.None? ==>
        State() == old(State())
    {
      if x.actualDeliveryDate.Some? || x.latestDeliveryDate.Some? || x.deliveryLocation.Some? {
        delivery := Some(x);
      }
    }

    method SetPaymentMeans(x: Entity)
      modifies this
      ensures State() == old(State()).(paymentMeans := Some(x))
    {
      paymentMeans := Some(x);
    }

    method SetAllowanceCharges(xs: seq<Entity>)
      modifies this
      ensures State() == old(State()).(allowanceCharges := Some(xs))
    {
      allowanceCharges := Some(xs);
    }

    method SetSignature(x: Entity)
      modifies this
      ensures State() == old(State()).(signature := Some(x))
    {
      signature := Some(x);
    }

    method SetTaxTotal(x: TaxTotal)
      modifies this
      ensures State() == old(State()).(taxTotal := Some(x))
    {
      taxTotal := Some(x);
    }

    method SetLegalMonetaryTotal(x: Entity)
      modifies this
      ensures State() == old(State()).(legalMonetaryTotal := Some(x))
    {
      legalMonetaryTotal := Some(x);
    }

    method SetInvoiceLines(xs: seq<Entity>)
      modifies this
      ensures State() == old(State()).(invoiceLines := Some(xs))
    {
      invoiceLines := Some(xs);
    }

    /**
     * `Invoice::xmlSerialize`: validates first, so an invalid invoice writes
     * nothing; a valid one writes exactly `Emission` of its fields. The
     * writer cannot reach the invoice, so the fields are read once, and the
     * source's blocks are written out in order, a few per helper.
     */
    method XmlSerialize(w: Writer) returns (r: Status)
      modifies w
      ensures r == Validate(State())
      ensures r.Err? ==> w.out == old(w.out)
      ensures r.Ok? ==> w.out == old(w.out) + Emission(State())
    {
      var s := State();
      r := Validate(s);
      if r.Err? {
        return;
      }
      ghost var base := w.out;
      WriteHeader(w, s, base);
      WriteIssue(w, s, base);
      WriteTypeAndNote(w, s, base);
      WriteCurrencyCodes(w, s, base);
      WriteOrderAndBilling(w, s, base);
      WriteDocumentReferences(w, s, base);
      WriteParties(w, s, base);
      WritePaymentsAndCharges(w, s, base);
      WriteTaxTotal(w, s, base);
      WriteTotalAndLines(w, s, base);
    }

    /** UBLExtensions, ProfileID and ID. */
    static method WriteHeader(w: Writer, s: InvoiceState, ghost base: seq<Ubl.Elem>)
      modifies w
      requires w.out == base + Written(s, 0)
      ensures w.out == base + Written(s, 3)
    {
      ghost var before := w.out;
      if s.ublExtensions.Some? {
        w.Write(Ubl.UBLExtensions(s.ublExtensions.value));
      }
      Extend(s, 0, base, before, w.out);
      before := w.out;
      w.Write(Ubl.ProfileID(s.profileID));
      Extend(s, 1, base, before, w.out);
      before := w.out;
      if s.id.Some? {
        w.Write(Ubl.ID(s.id.value));
      }
      Extend(s, 2, base, before, w.out);
    }

    /** UUID, IssueDate and IssueTime. */
    static method WriteIssue(w: Writer, s: InvoiceState, ghost base: seq<Ubl.Elem>)
      modifies w
      requires w.out == base + Written(s, 3)
      ensures w.out == base + Written(s, 6)
    {
      ghost var before := w.out;
      if s.uuid.Some? {
        w.Write(Ubl.UUID(s.uuid.value));
      }
      Extend(s, 3, base, before, w.out);
      before := w.out;
      if s.issueDate.Some? {
        w.Write(Ubl.IssueDate(s.issueDate.value));
      }
      Extend(s, 4, base, before, w.out);
      before := w.out;
      if s.issueTime.Some? {
        w.Write(Ubl.IssueTime(s.issueTime.value));
      }
      Extend(s, 5, base, before, w.out);
    }

    /** InvoiceTypeCode and Note, with its languageID. */
    static method WriteTypeAndNote(w: Writer, s: InvoiceState, ghost base: seq<Ubl.Elem>)
      modifies w
      requires w.out == base + Written(s, 6)
      ensures w.out == base + Written(s, 8)
    {
      ghost var before := w.out;
      if s.invoiceType.Some? {
        w.Write(Ubl.InvoiceTypeCode(s.invoiceType.value));
      }
      Extend(s, 6, base, before, w.out);
      before := w.out;
      if s.note.Some? {
        w.Write(Ubl.Note(s.note.value, s.languageID));
      }
      Extend(s, 7, base, before, w.out);
    }

    /** DocumentCurrencyCode, from the invoice currency code, and TaxCurrencyCode, each only when truthy. */
    static method WriteCurrencyCodes(w: Writer, s: InvoiceState, ghost base: seq<Ubl.Elem>)
      modifies w
      requires w.out == base + Written(s, 8)
      ensures w.out == base + Written(s, 10)
    {
      ghost var before := w.out;
      if Filled(s.invoiceCurrencyCode) {
        w.Write(Ubl.DocumentCurrencyCode(s.invoiceCurrencyCode));
      }
      Extend(s, 8, base, before, w.out);
      before := w.out;
      if Filled(s.taxCurrencyCode) {
        w.Write(Ubl.TaxCurrencyCode(s.taxCurrencyCode));
      }
      Extend(s, 9, base, before, w.out);
    }

    /** OrderReference, then one BillingReference per billing reference. */
    static method WriteOrderAndBilling(w: Writer, s: InvoiceState, ghost base: seq<Ubl.Elem>)
      modifies w
      requires w.out == base + Written(s, 10)
      ensures w.out == base + Written(s, 12)
    {
      ghost var before := w.out;
      if s.orderReference.Some? {
        w.Write(Ubl.OrderReference(s.orderReference.value));
      }
      Extend(s, 10, base, before, w.out);
      before := w.out;
      WriteEach(w, Billing, s.billingReferences);
      Extend(s, 11, base, before, w.out);
    }

    /** ContractDocumentReference, one AdditionalDocumentReference per reference, and Signature. */
    static method WriteDocumentReferences(w: Writer, s: InvoiceState, ghost base: seq<Ubl.Elem>)
      modifies w
      requires w.out == base + Written(s, 12)
      ensures w.out == base + Written(s, 15)
    {
      ghost var before := w.out;
      if s.contract.Some? {
        w.Write(Ubl.ContractDocumentReference(s.contract.value));
      }
      Extend(s, 12, base, before, w.out);
      before := w.out;
      WriteEach(w, Additional, s.additionalDocumentReferences);
      Extend(s, 13, base, before, w.out);
      before := w.out;
      if s.signature.Some? {
        w.Write(Ubl.Signature(s.signature.value));
      }
      Extend(s, 14, base, before, w.out);
    }

    /** The supplier and customer parties, then Delivery. */
    static method WriteParties(w: Writer, s: InvoiceState, ghost base: seq<Ubl.Elem>)
      modifies w
      requires w.out == base + Written(s, 15)
      ensures w.out == base + Written(s, 18)
    {
      ghost var before := w.out;
      if s.accountingSupplierParty.Some? {
        w.Write(Ubl.AccountingSupplierParty(s.accountingSupplierParty.value));
      }
      Extend(s, 15, base, before, w.out);
      before := w.out;
      if s.accountingCustomerParty.Some? {
        w.Write(Ubl.AccountingCustomerParty(s.accountingCustomerParty.value));
      }
      Extend(s, 16, base, before, w.out);
      before := w.out;
      if s.delivery.Some? {
        w.Write(Ubl.Delivery(s.delivery.value));
      }
      Extend(s, 17, base, before, w.out);
    }

    /** PaymentMeans, then one AllowanceCharge per allowance/charge. */
    static method WritePaymentsAndCharges(w: Writer, s: InvoiceState, ghost base: seq<Ubl.Elem>)
      modifies w
      requires w.out == base + Written(s, 18)
      ensures w.out == base + Written(s, 20)
    {
      ghost var before := w.out;
      if s.paymentMeans.Some? {
        w.Write(Ubl.PaymentMeans(s.paymentMeans.value));
      }
      Extend(s, 18, base, before, w.out);
      before := w.out;
      WriteEach(w, Allowance, s.allowanceCharges);
      Extend(s, 19, base, before, w.out);
    }

    /** The TaxAmount-only TaxTotal when the tax total has an amount, then the TaxTotal. */
    static method WriteTaxTotal(w: Writer, s: InvoiceState, ghost base: seq<Ubl.Elem>)
      modifies w
      requires w.out == base + Written(s, 20)
      ensures w.out == base + Written(s, 22)
    {
      ghost var before := w.out;
      if s.taxTotal.Some? {
        if s.taxTotal.value.taxAmount.Some? {
          w.Write(Ubl.TaxTotalAmount(s.taxTotal.value.taxAmount.value));
        }
        Extend(s, 20, base, before, w.out);
        before := w.out;
        w.Write(Ubl.TaxTotal(s.taxTotal.value));
        Extend(s, 21, base, before, w.out);
      } else {
        Extend(s, 20, base, before, w.out);
        Extend(s, 21, base, w.out, w.out);
      }
    }

    /** LegalMonetaryTotal, then one InvoiceLine per line. */
    static method WriteTotalAndLines(w: Writer, s: InvoiceState, ghost base: seq<Ubl.Elem>)
      modifies w
      requires w.out == base + Written(s, 22)
      ensures w.out == base + Written(s, 24)
    {
      ghost var before := w.out;
      if s.legalMonetaryTotal.Some? {
        w.Write(Ubl.LegalMonetaryTotal(s.legalMonetaryTotal.value));
      }
      Extend(s, 22, base, before, w.out);
      before := w.out;
      WriteEach(w, Lines, s.invoiceLines);
      Extend(s, 23, base, before, w.out);
    }

    /**
     * One of the serialiser's list blocks: nothing when the list is null,
     * otherwise a `foreach` writing one element per entry, in order.
     */
    static method WriteEach(w: Writer, kind: ListKind, xs: Option<seq<Entity>>)
      modifies w
      ensures w.out == old(w.out) + EachOf(kind, xs)
    {
      if xs.Some? {
        var items := xs.value;
        ghost var base := w.out;
        for i := 0 to |items|
          invariant w.out == base + Each(kind, items)[..i]
        {
          assert Each(kind, items)[..i + 1] == Each(kind, items)[..i] + [Tag(kind, items[i])];
          w.Write(Tag(kind, items[i]));
        }
        assert Each(kind, items)[..|items|] == Each(kind, items);
      }
    }
  }
}
