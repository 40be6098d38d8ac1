# ZATCA invoice core: party rules and the UBL invoice aggregate

This project models three parts of a ZATCA (Saudi e-invoicing) invoice library in Dafny and proves properties about them:

- **Party validators** (`PartyValidator`, `SupplierValidator`, `CustomerValidator`). Each is a fail-fast check over a raw associative party record. The first failing check decides the error.
- **Party mappers** (`SupplierMapper`, `CustomerMapper`). Each turns a record into a `Party` value. They apply `??` defaults and a rule for attaching a `PartyTaxScheme`.
- **The `Invoice` aggregate**. Its setters guard the fields, `setDelivery` stores a delivery only under a gate, and `validate` checks eight required fields. `xmlSerialize` hands UBL 2.1 Invoice elements to an XML writer in a fixed order.

The model is organised in these modules:

- `PhpValues` models the PHP values the code reads: `null`, strings and nested arrays (integers, floats and booleans are left out, see below). It also models `empty()`, `isset()`, `??`, `?:`, `strtoupper` and `trim`. An absent key reads as `null`, which is how the code's `empty`, `isset`, `??` and `?:` treat it.
- `Parties` holds the party sub-entities. It also provides `Unmap`, the inverse the mapper round-trip lemmas are stated against.
- Each validator is a total function returning `Pass` or `Fail(error)`. It is proved equivalent to a declarative `Acceptable` predicate, which does not depend on the order of the checks. Every unit test of the two validators is restated as a lemma.
- The mappers are functions. Their lemmas cover:
  - the defaults each mapper applies;
  - the round trip through `Unmap`;
  - what validation guarantees about the party that is built.
- `Invoicing.Invoice` is a class whose fields are updated in place. `State()` reads the fields as an `InvoiceState` value, and every setter states the new `State()`.
- The XML writer is a `Writer` object holding the sequence of elements written so far. `XmlSerialize` is proved to write exactly `Emission(State())` when `Validate(State())` passes, and nothing otherwise.
- `Emission` is built section by section, one section per element kind, in the order of the UBL Invoice element sequence (`Ubl.Rank`). The lemmas about `Emission` prove:
  - the elements are written in rank order;
  - for each element kind, which elements appear and how many.

The customer validator's class comment states the rule "If buyer has no taxId: MUST NOT have tax scheme" (src/Mappers/Validators/CustomerValidator.php:22-23). The validator enforces it by rejecting a non-empty scheme id when there is no `taxId` (src/Mappers/Validators/CustomerValidator.php:113-118). The customer mapper does not repeat that check: it attaches a `PartyTaxScheme` whenever the settled scheme id is truthy and is not exactly `'VAT'`, even without a `taxId` (src/Mappers/CustomerMapper.php:65-80). So the two disagree only on records the validator rejects. The model follows the code: `CustomerMapper.SchemeWithoutTaxIdAttached` states what the mapper does, and `CustomerMapper.ValidatedCustomerParty` states that after validation a scheme is attached only with a `taxId`.

## Model

| member | source | states |
|---|---|---|
| PhpValues.TrimEmptyIffBlank | src/Invoice.php:244 | `trim($s) === ''` holds exactly when every character of `$s` is one of `" \t\n\r\0\x0B"` |
| Parties.AddressRoundTrip | src/Mappers/SupplierMapper.php:59-65 | each of the six address keys reads back from the mapped address as given, or as its default: `''`, or `'SA'` for the country |
| Parties.ConformantAddressRoundTrip | src/Mappers/CustomerMapper.php:51-57 | an address holding exactly the six keys, all set, is recovered unchanged from the mapped address |
| PartyValidator.FirstEmpty | src/Mappers/Validators/PartyValidator.php:37-43 | the early-exit loop returns the first key whose entry is empty; every key before it is non-empty |
| PartyValidator.ValidateAddress | src/Mappers/Validators/PartyValidator.php:23-44 | passes iff street, buildingNumber, city, postalZone and country are all non-empty (the subdivision is not required); an empty address fails with `AddressRequired`; otherwise the first empty field, in that order, is named |
| PartyValidator.ValidateIdentification | src/Mappers/Validators/PartyValidator.php:56-65 | fails iff identificationId is non-empty and identificationType is empty, and then with `IdentificationTypeRequired` |
| PartyValidator.UpperIsVat | src/Mappers/Validators/SupplierValidator.php:54 | `strtoupper($s) === 'VAT'` iff `$s` is "vat" in any letter case |
| PartyValidator.CheckVatScheme | src/Mappers/Validators/SupplierValidator.php:53-57 | an absent or empty scheme id passes; a non-empty one passes iff it upper-cases to 'VAT'; a rejected string is reported as found |
| PartyValidator.AddressOnly | src/Mappers/Validators/PartyValidator.php:23-44 | the address check reads the address entry of the record only |
| SupplierValidator.Validate | src/Mappers/Validators/SupplierValidator.php:32-64 | passes iff `Acceptable`: non-empty record, name, taxId, no scheme other than VAT, complete address, and no identification id without a type; an empty record fails with `DataRequired` |
| SupplierValidator.RegistrationNameFirst | src/Mappers/Validators/SupplierValidator.php:39-48 | an empty registrationName is reported before anything else |
| SupplierValidator.TaxIdSecond | src/Mappers/Validators/SupplierValidator.php:39-48 | with a name present, an empty taxId is reported whatever else is wrong |
| SupplierValidator.SchemeBeforeAddress | src/Mappers/Validators/SupplierValidator.php:53-60 | a non-VAT scheme id fails before the address is looked at; an empty or absent one never fails |
| SupplierValidator.AddressBeforeIdentification | src/Mappers/Validators/SupplierValidator.php:59-63 | the address is always validated, and before the identification |
| SupplierValidator.ValidSupplierWithVatScheme | tests/Mappers/SupplierValidatorTest.php:18-35 | the test's complete record passes |
| SupplierValidator.SupplierWithoutTaxIdFails | tests/Mappers/SupplierValidatorTest.php:37-55 | a record without taxId fails naming taxId |
| SupplierValidator.SupplierWithoutTaxSchemeIsAllowed | tests/Mappers/SupplierValidatorTest.php:57-74 | a record without taxScheme passes |
| SupplierValidator.SupplierWithNonVatTaxSchemeFails | tests/Mappers/SupplierValidatorTest.php:76-95 | scheme id 'OTHER' fails with `SchemeNotVat` |
| SupplierValidator.SupplierWithoutRegistrationNameFails | tests/Mappers/SupplierValidatorTest.php:97-115 | a record without registrationName fails naming it |
| SupplierValidator.SupplierWithIncompleteAddressFails | tests/Mappers/SupplierValidatorTest.php:117-136 | an address without buildingNumber fails naming buildingNumber |
| SupplierValidator.EmptySupplierDataFails | tests/Mappers/SupplierValidatorTest.php:138-144 | the empty record fails with `DataRequired(Supplier)` |
| SupplierValidator.LowerCaseVatAccepted | src/Mappers/Validators/SupplierValidator.php:54 | scheme id 'vat' passes, because the comparison upper-cases first |
| CustomerValidator.ValidateVatRegistered | src/Mappers/Validators/CustomerValidator.php:76-96 | passes iff name, taxId and VAT scheme check all pass; an empty name is reported first |
| CustomerValidator.ValidateNonVat | src/Mappers/Validators/CustomerValidator.php:111-129 | passes iff no scheme id, a name on standard invoices, and the identification check passes; any scheme id fails with `SchemeForbidden` |
| CustomerValidator.Validate | src/Mappers/Validators/CustomerValidator.php:35-62 | passes iff the decision table `Acceptable`; an empty record passes iff the invoice is simplified, and otherwise fails with `DataRequired` |
| CustomerValidator.BranchByTaxId | src/Mappers/Validators/CustomerValidator.php:48-61 | for a non-empty record, the branch is chosen by a non-empty taxId alone, and the address check follows the branch |
| CustomerValidator.VatBranchNeedsName | src/Mappers/Validators/CustomerValidator.php:79-81 | a VAT-registered buyer without a name fails, on simplified invoices too |
| CustomerValidator.VatBranchScheme | src/Mappers/Validators/CustomerValidator.php:89-95 | in the VAT branch a non-VAT scheme id fails; an empty or absent one goes on to the address rule |
| CustomerValidator.NonVatBranchRejectsScheme | src/Mappers/Validators/CustomerValidator.php:114-118 | without a taxId any non-empty scheme id fails, 'VAT' included |
| CustomerValidator.NonVatBranchName | src/Mappers/Validators/CustomerValidator.php:121-125 | without a taxId the name is required exactly on standard invoices |
| CustomerValidator.VatBranchIgnoresIdentification | src/Mappers/Validators/CustomerValidator.php:50-56 | for a VAT-registered buyer the identification entries do not change the outcome |
| CustomerValidator.AddressRule | src/Mappers/Validators/CustomerValidator.php:59-61 | the address is validated iff the invoice is standard, or simplified with a non-empty address |
| CustomerValidator.VatRegisteredCustomerForStandardInvoice | tests/Mappers/CustomerValidatorTest.php:20-37 | the test's VAT-registered record passes on a standard invoice |
| CustomerValidator.VatRegisteredCustomerWithoutTaxSchemeIsAllowed | tests/Mappers/CustomerValidatorTest.php:39-56 | a VAT-registered record without taxScheme passes |
| CustomerValidator.NonVatCustomerWithSchemeIdForStandardInvoice | tests/Mappers/CustomerValidatorTest.php:58-75 | a named non-VAT record with an identification and its type passes |
| CustomerValidator.NonVatCustomerWithTaxSchemeFails | tests/Mappers/CustomerValidatorTest.php:77-95 | a non-VAT record with scheme 'VAT' fails with `SchemeForbidden` |
| CustomerValidator.StandardInvoiceWithoutCustomerDataFails | tests/Mappers/CustomerValidatorTest.php:97-103 | the empty record fails on a standard invoice |
| CustomerValidator.NonVatCustomerWithoutRegistrationNameForStandardFails | tests/Mappers/CustomerValidatorTest.php:105-123 | a non-VAT record without a name fails on a standard invoice |
| CustomerValidator.SimplifiedInvoiceWithNoCustomerData | tests/Mappers/CustomerValidatorTest.php:127-131 | the empty record passes on a simplified invoice |
| CustomerValidator.VatRegisteredCustomerForSimplifiedInvoice | tests/Mappers/CustomerValidatorTest.php:133-150 | a VAT-registered record passes on a simplified invoice |
| CustomerValidator.NonVatCustomerForSimplifiedInvoice | tests/Mappers/CustomerValidatorTest.php:152-168 | an unnamed non-VAT record passes on a simplified invoice |
| CustomerValidator.NonVatCustomerWithIdentificationButNoTypeFails | tests/Mappers/CustomerValidatorTest.php:170-188 | an identification id without a type fails with `IdentificationTypeRequired` |
| CustomerValidator.CustomerWithIncompleteAddressFails | tests/Mappers/CustomerValidatorTest.php:190-209 | an address without buildingNumber fails naming buildingNumber |
| SupplierMapper.Map | src/Mappers/SupplierMapper.php:41-74 | total on every record; identification, identification type, legal entity, tax scheme, company id and address are always set |
| SupplierMapper.MapRoundTrip | src/Mappers/SupplierMapper.php:45-72 | reading the party back gives each field of the record, or its default when unset: `''`, 'CRN' for the identification type, 'VAT' for the scheme id, 'SA' for the country |
| SupplierMapper.Build | src/Mappers/SupplierMapper.php:45-73 | definition, no contract of its own: the party built from the record and its settled scheme id; `SupplierMapper.Map` states its fields |
| Parties.MapAddress | src/Mappers/SupplierMapper.php:59-65 | every address field is set (never null), and the country is 'SA' when the record gives none; the customer mapper builds its address the same way (src/Mappers/CustomerMapper.php:51-57) |
| SupplierMapper.ConformantRoundTrip | src/Mappers/SupplierMapper.php:41-74 | a record holding exactly the documented fields, all set, is recovered exactly from its party |
| SupplierMapper.ValidatedSupplierParty | src/Mappers/SupplierMapper.php:45-72 | after validation, the party has a non-empty name, the record's taxId as company id, a complete address and a type for any identification; the scheme id is the VAT code unless the record gave an empty one |
| SupplierMapper.EmptySchemeIdKept | src/Mappers/SupplierMapper.php:46 | a validated supplier with scheme id `''` is mapped with scheme id `''` |
| SupplierMapper.MapIntended | src/Mappers/SupplierMapper.php:46 | with `?:` instead of `??`, the scheme id is always truthy |
| SupplierMapper.IntendedValidatedSupplierIsVat | src/Mappers/SupplierMapper.php:46 | with `?:`, every validated supplier carries the VAT code and its taxId |
| CustomerMapper.Map | src/Mappers/CustomerMapper.php:41-92 | the empty record, and only it, gives the empty party; identification iff identificationId is set; its type iff both are set; a tax scheme iff `Attaches`, holding the settled scheme id, and with a company id iff the taxId is truthy; the identification holds the identificationId and its type the identificationType |
| CustomerMapper.TaxIdDefaultsToVat | src/Mappers/CustomerMapper.php:65-76 | a truthy taxId with no scheme id gives scheme 'VAT' with the taxId as company id |
| CustomerMapper.SchemeWithoutTaxIdAttached | src/Mappers/CustomerMapper.php:65-80 | a truthy scheme id other than 'VAT' is attached without a company id when there is no taxId |
| CustomerMapper.EmptySchemeIdSuppresses | src/Mappers/CustomerMapper.php:65 | an explicit empty scheme id attaches nothing, even with a taxId |
| CustomerMapper.MapRoundTrip | src/Mappers/CustomerMapper.php:48-76 | reading back gives the name (or `''`), the taxId whenever it and the settled scheme id are truthy, the identificationId, the identificationType when the identificationId is set, and each address key or its default |
| CustomerMapper.Attaches | src/Mappers/CustomerMapper.php:65-69 | definition, no contract of its own: a scheme is attached when the settled scheme id is truthy and either is not exactly 'VAT' or the taxId is truthy; `CustomerMapper.Map` states that a tax scheme is set iff it holds |
| CustomerMapper.SettledSchemeId | src/Mappers/CustomerMapper.php:65 | the settled scheme id is never null, and is 'VAT' when the record's scheme id is unset |
| CustomerMapper.Build | src/Mappers/CustomerMapper.php:47-89 | definition, no contract of its own: the party built from a non-empty record; `CustomerMapper.Map` states its fields |
| CustomerMapper.ConformantRoundTrip | src/Mappers/CustomerMapper.php:41-92 | a conformant record with truthy taxId and scheme id is recovered exactly from its party |
| CustomerMapper.ValidatedCustomerParty | src/Mappers/CustomerMapper.php:65-80 | after validation, a scheme is attached only with a taxId; with a taxId and a scheme id that is unset or non-empty, it is attached with the taxId and a VAT code |
| CustomerMapper.ValidatedVatCustomerLosesScheme | src/Mappers/CustomerMapper.php:65 | a VAT-registered buyer with scheme id `''` passes validation yet gets no tax scheme |
| CustomerMapper.MapIntended | src/Mappers/CustomerMapper.php:65 | with `?:` instead of `??`, an attached scheme id is always truthy; only the empty record gives the empty party |
| CustomerMapper.IntendedSchemeIffTaxId | src/Mappers/CustomerMapper.php:65-80 | with `?:`, a validated buyer carries a tax scheme iff it has a taxId, with that taxId and the VAT code |
| Invoicing.Validate | src/Invoice.php:516-542 | an error is one of the eight required-field checks, and the state does fail it |
| Invoicing.FirstMissing | src/Invoice.php:516-542 | the position of the first failed check: every earlier check passes, and the one at that position fails |
| Invoicing.ValidateFirstMissing | src/Invoice.php:516-542 | `validate` passes iff none of the eight required fields is null, and otherwise reports the first null one in source order |
| Invoicing.ValidateIgnoresOptional | src/Invoice.php:516-542 | the invoice type is not checked, empty lists pass, and a null LegalMonetaryTotal alone fails |
| Invoicing.Tag | src/Invoice.php:617-623 | a list entry's element has the rank of its list's kind |
| Invoicing.SectionRanks | src/Invoice.php:553-713 | each block writes elements of its own kind only |
| Invoicing.Section | src/Invoice.php:553-713 | definition, no contract of its own: the elements block `k` of `xmlSerialize` writes, empty when its field is unset; `Invoicing.SectionRanks` states that they all have rank `k` |
| Invoicing.Written | src/Invoice.php:553-713 | definition, no contract of its own: the first `k` blocks in order; `Invoicing.WrittenOrdered` and `Invoicing.WrittenSelect` state its order and contents |
| Invoicing.Emission | src/Invoice.php:549-714 | definition, no contract of its own: all 24 blocks; `Invoicing.EmissionOrdered` and `Invoicing.EmissionSection` state its order and contents, and `Invoicing.Invoice.XmlSerialize` states that it is what is written |
| Invoicing.WrittenOrdered | src/Invoice.php:553-713 | the first k blocks are written in rank order and hold ranks below k only |
| Invoicing.WrittenSelect | src/Invoice.php:553-713 | the elements of one kind among the first k blocks are exactly that kind's block |
| Invoicing.EmissionOrdered | src/Invoice.php:553-713 | the emitted elements follow the UBL Invoice element order |
| Invoicing.EmissionSection | src/Invoice.php:553-713 | the emitted elements of each kind are exactly that kind's block |
| Invoicing.ValidHeader | src/Invoice.php:560-581 | a valid invoice emits exactly one ProfileID, ID, IssueDate and IssueTime |
| Invoicing.ValidParties | src/Invoice.php:646-704 | a valid invoice emits exactly one supplier party, one customer party and one LegalMonetaryTotal |
| Invoicing.CurrencyCodes | src/Invoice.php:601-609 | DocumentCurrencyCode carries invoiceCurrencyCode and is emitted iff that code is truthy; TaxCurrencyCode likewise |
| Invoicing.TaxTotals | src/Invoice.php:683-699 | the TaxAmount-only TaxTotal is emitted iff the tax total has an amount, never without the full TaxTotal |
| Invoicing.ListSections | src/Invoice.php:616-713 | each list field emits one element per entry in list order, or nothing when null |
| Invoicing.DocumentCurrencyCodeUnused | src/Invoice.php:601-604 | the emitted elements do not depend on the documentCurrencyCode field |
| Invoicing.InitialInvalid | src/Invoice.php:17-89 | a new invoice fails `validate` on its id |
| Invoicing.Invoice.State | src/Invoice.php:21 | the profile id is always 'reporting:1.0' |
| Invoicing.Invoice.constructor | src/Invoice.php:17-89 | a new invoice has the field defaults: 'reporting:1.0', 'en', 'SAR' ×3, everything else null |
| Invoicing.Invoice.SetUBLExtensions | src/Invoice.php:230-235 | stores the argument and changes nothing else |
| Invoicing.Invoice.SetId | src/Invoice.php:242-250 | fails iff a non-null string is blank after trimming, then leaving the state unchanged; otherwise stores the argument, null included |
| Invoicing.Invoice.SetUUID | src/Invoice.php:257-265 | the same guard as `SetId`, for the UUID |
| Invoicing.Invoice.SetIssueDate | src/Invoice.php:270-275 | stores the argument and changes nothing else |
| Invoicing.Invoice.SetIssueTime | src/Invoice.php:280-285 | stores the argument and changes nothing else |
| Invoicing.Invoice.SetInvoiceType | src/Invoice.php:290-295 | stores the argument and changes nothing else |
| Invoicing.Invoice.SetNote | src/Invoice.php:300-307 | null leaves the stored note as it was; a string is stored |
| Invoicing.Invoice.SetLanguageID | src/Invoice.php:309-318 | fails iff the string is blank after trimming, leaving the state unchanged; otherwise stores it verbatim |
| Invoicing.Invoice.SetInvoiceCurrencyCode | src/Invoice.php:325-333 | the same guard, for the invoice currency code |
| Invoicing.Invoice.SetTaxCurrencyCode | src/Invoice.php:340-348 | the same guard, for the tax currency code |
| Invoicing.Invoice.SetDocumentCurrencyCode | src/Invoice.php:355-364 | the same guard, for the document currency code |
| Invoicing.Invoice.SetOrderReference | src/Invoice.php:369-374 | stores the argument and changes nothing else |
| Invoicing.Invoice.SetBillingReferences | src/Invoice.php:381-386 | stores the list and changes nothing else |
| Invoicing.Invoice.SetContract | src/Invoice.php:391-396 | stores the argument and changes nothing else |
| Invoicing.Invoice.SetAdditionalDocumentReferences | src/Invoice.php:403-408 | stores the list and changes nothing else |
| Invoicing.Invoice.SetAccountingSupplierParty | src/Invoice.php:413-418 | stores the argument and changes nothing else |
| Invoicing.Invoice.SetAccountingCustomerParty | src/Invoice.php:423-428 | stores the argument and changes nothing else |
| Invoicing.Invoice.SetDelivery | src/Invoice.php:433-445 | stores the delivery iff one of its three parts is set; otherwise the previous delivery is kept |
| Invoicing.Invoice.SetPaymentMeans | src/Invoice.php:450-455 | stores the argument and changes nothing else |
| Invoicing.Invoice.SetAllowanceCharges | src/Invoice.php:462-467 | stores the list and changes nothing else |
| Invoicing.Invoice.SetSignature | src/Invoice.php:472-477 | stores the argument and changes nothing else |
| Invoicing.Invoice.SetTaxTotal | src/Invoice.php:482-487 | stores the argument and changes nothing else |
| Invoicing.Invoice.SetLegalMonetaryTotal | src/Invoice.php:492-497 | stores the argument and changes nothing else |
| Invoicing.Invoice.SetInvoiceLines | src/Invoice.php:504-509 | stores the list and changes nothing else |
| Invoicing.Invoice.XmlSerialize | src/Invoice.php:549-714 | the result is `validate`'s; an invalid invoice writes nothing; a valid one appends exactly `Emission` of its fields |
| Invoicing.Invoice.WriteEach | src/Invoice.php:707-713 | a null list writes nothing; otherwise the `foreach` appends one element per entry, in order |

## Left out

- The Sabre XML `Writer`, real XML text, namespace prefixes and escaping. Each `$writer->write([...])` call is one `Ubl.Elem` token appended to `Writer.out`.
- Serialisation of the sub-entities (party, address, tax total, invoice lines, delivery and the rest). Their classes are not part of this model. They are opaque `InvoiceParts.Entity` values, except the delivery's three parts and the tax total's amount, which the invoice reads.
- `DateTime::format` for the issue date and time. Dates and times are opaque entities.
- `number_format` on the float tax amount, and the global `GeneratorInvoice::$currencyID`. These are floating-point formatting and global state outside the invoice. The model records only that the TaxAmount-only TaxTotal is emitted.
- The exact wording of exception messages. Errors carry the party and the field they name.
- The getters of `Invoice` (src/Invoice.php:93-223). They are plain reads of the fields that `State()` exposes.
- PHP parameter type checks and default argument values of the setters. A call with a value of the wrong type is not modelled.
- Reading the fields: the serialiser's model reads them once into a value before writing. The writer cannot reach the invoice, so this equals reading them block by block.
- The documentCurrencyCode field is stored but never emitted. The DocumentCurrencyCode element is written from invoiceCurrencyCode, as the code does (`DocumentCurrencyCodeUnused`).
- Integer, float and boolean entries in the input records. The validators and mappers take caller-built arrays, which PHP lets hold such values (`'taxId' => 300000000000003`, `'taxScheme' => ['id' => true]`); the model assumes every entry is `null`, a string or an array. On the other scalars `empty`, `isset`, `??`, `?:` and `strtoupper` behave in ways `PVal` cannot represent (`0` and `false` are empty, `strtoupper(true)` is `'1'`).
- PHP warnings, such as the notice `$data['taxId'] ?: null` raises for an absent key, are not modelled. The value read is `null`, as in PHP.

## Findings

| source | as written | input that shows it | evidently intended | confidence | as-written member | corrected member |
|---|---|---|---|---|---|---|
| src/Mappers/SupplierMapper.php:46 | the scheme id is `$data['taxScheme']['id'] ?? 'VAT'`, so an empty id is kept | a supplier with name, taxId, complete address and `taxScheme.id = ''` passes validation (SupplierValidator.php:53 treats an empty id as "defaults to VAT"), and is mapped with scheme id `''` | `?:`, so an empty id also falls back to 'VAT' | medium, not executed | SupplierMapper.EmptySchemeIdKept | SupplierMapper.IntendedValidatedSupplierIsVat |
| src/Mappers/CustomerMapper.php:65 | the scheme id is `$data['taxScheme']['id'] ?? 'VAT'`, and an empty id makes the `if` false | a buyer with name, taxId '333333333333333', complete address and `taxScheme.id = ''` passes validation on a standard invoice, yet its party gets no `PartyTaxScheme` and no company id | `?:`, so a validated buyer with a taxId always carries the VAT scheme and its taxId | medium, not executed | CustomerMapper.ValidatedVatCustomerLosesScheme | CustomerMapper.IntendedSchemeIffTaxId |
