/**
 * The seller is always a taxable person: its record must name the company,
 * give a VAT number, carry no scheme other than VAT, and hold a complete
 * address; an identification id needs its type.
 */
module SupplierValidator {
  import opened PhpValues
  import opened Parties
  import opened TestRecords
  import opened PartyValidator

  /** The required top-level fields, in the order they are checked. */
  const RequiredFields: seq<string> := ["registrationName", "taxId"]

  /**
   * The supplier rule as a declarative condition, independent of the order
   * in which `Validate` runs its checks.
   */
  predicate Acceptable(data: Record)
  {
    && |data| > 0
    && Truthy(Lookup(data, "registrationName"))
    && Truthy(Lookup(data, "taxId"))
    && (Empty(SchemeId(data)) || (SchemeId(data).Str? && IsVatCode(SchemeId(data).s)))
    && AddressComplete(data)
    && !(Truthy(Lookup(data, "identificationId")) && Empty(Lookup(data, "identificationType")))
  }

  /**
   * `SupplierValidator::validate`: empty record, registrationName, taxId,
   * scheme, address, identification; the first failing check decides.
   */
  function Validate(data: Record): (r: Outcome)
    ensures r.Pass? <==> Acceptable(data)
    ensures |data| == 0 ==> r == Fail(DataRequired(Supplier))
    ensures r.Fail? ==> !r.error.SchemeForbidden? && r.error.role == Supplier
  {
    if |data| == 0 then Fail(DataRequired(Supplier))
    else
      var k := FirstEmpty(Arr(data), RequiredFields);
      if k < |RequiredFields| then Fail(FieldRequired(Supplier, RequiredFields[k]))
      else
        assert Lookup(data, "registrationName") == Get(Arr(data), RequiredFields[0]);
        assert Lookup(data, "taxId") == Get(Arr(data), RequiredFields[1]);
        var scheme := CheckVatScheme(SchemeId(data), Supplier);
        if scheme.Fail? then scheme
        else
          var address := ValidateAddress(data, Supplier);
          if address.Fail? then address
          else ValidateIdentification(data, Supplier)
  }

  /** An empty registration name is reported before anything else is looked at. */
  lemma RegistrationNameFirst(data: Record)
    requires |data| > 0 && Empty(Lookup(data, "registrationName"))
    ensures Validate(data) == Fail(FieldRequired(Supplier, "registrationName"))
  {
  }

  /** With a name present, an empty taxId is reported, whatever else is wrong. */
  lemma TaxIdSecond(data: Record)
    requires |data| > 0 && Truthy(Lookup(data, "registrationName")) && Empty(Lookup(data, "taxId"))
    ensures Validate(data) == Fail(FieldRequired(Supplier, "taxId"))
  {
    assert Lookup(data, "registrationName") == Get(Arr(data), RequiredFields[0]);
    assert Lookup(data, "taxId") == Get(Arr(data), RequiredFields[1]);
  }

  /**
   * A given scheme id other than VAT in any letter case fails before the
   * address is checked; an absent or empty one never fails.
   */
  lemma SchemeBeforeAddress(data: Record)
    requires |data| > 0 && Truthy(Lookup(data, "registrationName")) && Truthy(Lookup(data, "taxId"))
    ensures Truthy(SchemeId(data)) && SchemeId(data).Str? && !IsVatCode(SchemeId(data).s) ==>
      Validate(data) == Fail(SchemeNotVat(Supplier, SchemeId(data).s))
    ensures Empty(SchemeId(data)) ==>
      Validate(data) == (if ValidateAddress(data, Supplier).Fail? then ValidateAddress(data, Supplier)
                         else ValidateIdentification(data, Supplier))
  {
    TaxIdSecondPassed(data);
  }

  lemma TaxIdSecondPassed(data: Record)
    requires Truthy(Lookup(data, "registrationName")) && Truthy(Lookup(data, "taxId"))
    ensures FirstEmpty(Arr(data), RequiredFields) == |RequiredFields|
  {
    assert Lookup(data, "registrationName") == Get(Arr(data), RequiredFields[0]);
    assert Lookup(data, "taxId") == Get(Arr(data), RequiredFields[1]);
  }

  /**
   * Once name, taxId and scheme pass, the address decides before the
   * identification: an incomplete address is reported even when the
   * identification is wrong too.
   */
  lemma AddressBeforeIdentification(data: Record)
    requires |data| > 0 && Truthy(Lookup(data, "registrationName")) && Truthy(Lookup(data, "taxId"))
    requires CheckVatScheme(SchemeId(data), Supplier).Pass?
    ensures !AddressComplete(data) ==> Validate(data) == ValidateAddress(data, Supplier)
    ensures AddressComplete(data) ==> Validate(data) == ValidateIdentification(data, Supplier)
  {
    TaxIdSecondPassed(data);
  }

  /** A record whose checks each pass, with no identification id, is accepted. */
  lemma Accepted(data: Record)
    requires |data| > 0 && Truthy(Lookup(data, "registrationName")) && Truthy(Lookup(data, "taxId"))
    requires CheckVatScheme(SchemeId(data), Supplier).Pass?
    requires ValidateAddress(data, Supplier).Pass?
    requires Lookup(data, "identificationId") == Null
    ensures Validate(data).Pass?
  {
  }

  // The records of the supplier validator's unit tests.

  const TestAddress := Arr(map[
    "street" := Str("Main St"), "buildingNumber" := Str("123"), "city" := Str("Riyadh"),
    "postalZone" := Str("12345"), "country" := Str("SA")])

  const TestAddressNoBuilding := Arr(map[
    "street" := Str("Main St"), "city" := Str("Riyadh"),
    "postalZone" := Str("12345"), "country" := Str("SA")])

  /** The test address is complete, and dropping its building number is caught there. */
  lemma TestAddresses(role: Role)
    ensures ValidateAddress(map["address" := TestAddress], role).Pass?
    ensures ValidateAddress(map["address" := TestAddressNoBuilding], role)
      == Fail(AddressFieldRequired(role, "buildingNumber"))
  {
    var a := TestAddress;
    assert Get(a, "street") == Str("Main St");
    assert Get(a, "buildingNumber") == Str("123");
    assert Get(a, "city") == Str("Riyadh");
    assert Get(a, "postalZone") == Str("12345");
    assert Get(a, "country") == Str("SA");
    var b := TestAddressNoBuilding;
    assert Get(b, "street") == Str("Main St");
    assert Get(b, "buildingNumber") == Null;
    assert FirstEmpty(b, AddressFields) == 1;
  }

  lemma ValidSupplierWithVatScheme()
    ensures Validate(TaxRecord("My Company", "311111111111113", "VAT", TestAddress)).Pass?
  {
    var d := TaxRecord("My Company", "311111111111113", "VAT", TestAddress);
    RecordLookups("My Company", "311111111111113", "VAT", TestAddress);
    TestAddresses(Supplier);
    AddressOnly(d, Supplier);
    Accepted(d);
  }

  lemma SupplierWithoutTaxIdFails()
    ensures Validate(map[
      "registrationName" := Str("My Company"),
      "taxScheme" := Arr(map["id" := Str("VAT")]), "address" := TestAddress])
      == Fail(FieldRequired(Supplier, "taxId"))
  {
    var d := map[
      "registrationName" := Str("My Company"),
      "taxScheme" := Arr(map["id" := Str("VAT")]), "address" := TestAddress];
    assert Lookup(d, "registrationName") == Str("My Company");
    assert Lookup(d, "taxId") == Null;
    TaxIdSecond(d);
  }

  lemma SupplierWithoutTaxSchemeIsAllowed()
    ensures Validate(PartyRecord("My Company", "311111111111113", TestAddress)).Pass?
  {
    var d := PartyRecord("My Company", "311111111111113", TestAddress);
    RecordLookups("My Company", "311111111111113", "", TestAddress);
    TestAddresses(Supplier);
    AddressOnly(d, Supplier);
    Accepted(d);
  }

  lemma SupplierWithNonVatTaxSchemeFails()
    ensures Validate(TaxRecord("My Company", "311111111111113", "OTHER", TestAddress))
      == Fail(SchemeNotVat(Supplier, "OTHER"))
  {
    var d := TaxRecord("My Company", "311111111111113", "OTHER", TestAddress);
    RecordLookups("My Company", "311111111111113", "OTHER", TestAddress);
    assert !IsVatCode("OTHER");
    SchemeBeforeAddress(d);
  }

  lemma SupplierWithoutRegistrationNameFails()
    ensures Validate(map[
      "taxId" := Str("311111111111113"),
      "taxScheme" := Arr(map["id" := Str("VAT")]), "address" := TestAddress])
      == Fail(FieldRequired(Supplier, "registrationName"))
  {
    var d := map[
      "taxId" := Str("311111111111113"),
      "taxScheme" := Arr(map["id" := Str("VAT")]), "address" := TestAddress];
    assert Lookup(d, "registrationName") == Null;
    RegistrationNameFirst(d);
  }

  lemma SupplierWithIncompleteAddressFails()
    ensures Validate(TaxRecord("My Company", "311111111111113", "VAT", TestAddressNoBuilding))
      == Fail(AddressFieldRequired(Supplier, "buildingNumber"))
  {
    var d := TaxRecord("My Company", "311111111111113", "VAT", TestAddressNoBuilding);
    RecordLookups("My Company", "311111111111113", "VAT", TestAddressNoBuilding);
    TestAddresses(Supplier);
    AddressOnly(d, Supplier);
    UpperIsVat("VAT");
    AddressBeforeIdentification(d);
  }

  lemma EmptySupplierDataFails()
    ensures Validate(map[]) == Fail(DataRequired(Supplier))
  {
  }

  /** The lower-case spelling is accepted: the comparison upper-cases first. */
  lemma LowerCaseVatAccepted()
    ensures Validate(TaxRecord("My Company", "311111111111113", "vat", TestAddress)).Pass?
  {
    var d := TaxRecord("My Company", "311111111111113", "vat", TestAddress);
    RecordLookups("My Company", "311111111111113", "vat", TestAddress);
    TestAddresses(Supplier);
    AddressOnly(d, Supplier);
    Accepted(d);
  }
}
