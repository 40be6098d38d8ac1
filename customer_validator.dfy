/**
 * The buyer rule: a decision over (simplified or standard invoice) and
 * (VAT-registered or not, by a non-empty taxId), plus the empty record.
 */
module CustomerValidator {
  import opened PhpValues
  import opened Parties
  import opened TestRecords
  import opened PartyValidator

  /** The non-VAT branch's scheme test: a `taxScheme` entry with a non-empty id. */
  predicate CarriesScheme(data: Record)
  {
    Isset(Lookup(data, "taxScheme")) && Truthy(SchemeId(data))
  }

  /** The address is checked on standard invoices, and on simplified ones that supply one. */
  predicate AddressChecked(data: Record, isSimplified: bool)
  {
    !isSimplified || (Isset(Lookup(data, "address")) && Truthy(Lookup(data, "address")))
  }

  /**
   * The customer rule as a decision table, independent of the order in which
   * `Validate` runs its checks.
   */
  predicate Acceptable(data: Record, isSimplified: bool)
  {
    if |data| == 0 then
      isSimplified
    else
      var addressOk := AddressComplete(data) || (isSimplified && Empty(Lookup(data, "address")));
      if Truthy(Lookup(data, "taxId")) then
        && Truthy(Lookup(data, "registrationName"))
        && (Empty(SchemeId(data)) || (SchemeId(data).Str? && IsVatCode(SchemeId(data).s)))
        && addressOk
      else
        && Empty(SchemeId(data))
        && (isSimplified || Truthy(Lookup(data, "registrationName")))
        && !(Truthy(Lookup(data, "identificationId")) && Empty(Lookup(data, "identificationType")))
        && addressOk
  }

  /** `validateVatRegisteredCustomer`: registrationName, taxId, then the VAT scheme. */
  function ValidateVatRegistered(data: Record): (r: Outcome)
    ensures r.Pass? <==>
      && Truthy(Lookup(data, "registrationName"))
      && Truthy(Lookup(data, "taxId"))
      && CheckVatScheme(SchemeId(data), Customer).Pass?
    ensures Empty(Lookup(data, "registrationName")) ==> r == Fail(FieldRequired(Customer, "registrationName"))
    ensures r.Fail? ==> !r.error.SchemeForbidden? && r.error.role == Customer && !r.error.IdentificationTypeRequired?
  {
    if Empty(Lookup(data, "registrationName")) then Fail(FieldRequired(Customer, "registrationName"))
    else if Empty(Lookup(data, "taxId")) then Fail(FieldRequired(Customer, "taxId"))
    else CheckVatScheme(SchemeId(data), Customer)
  }

  /**
   * `validateNonVatCustomer`: no scheme id at all, a name on standard
   * invoices, then the identification check.
   */
  function ValidateNonVat(data: Record, isSimplified: bool): (r: Outcome)
    ensures r.Pass? <==>
      && !CarriesScheme(data)
      && (isSimplified || Truthy(Lookup(data, "registrationName")))
      && ValidateIdentification(data, Customer).Pass?
    ensures CarriesScheme(data) ==> r == Fail(SchemeForbidden)
  {
    if CarriesScheme(data) then Fail(SchemeForbidden)
    else if !isSimplified && Empty(Lookup(data, "registrationName")) then
      Fail(FieldRequired(Customer, "registrationName"))
    else ValidateIdentification(data, Customer)
  }

  /**
   * `CustomerValidator::validate`: the empty record is decided by the
   * invoice kind alone; otherwise the branch is chosen by a non-empty taxId,
   * and the address is checked after the branch when `AddressChecked`.
   */
  function Validate(data: Record, isSimplified: bool): (r: Outcome)
    ensures r.Pass? <==> Acceptable(data, isSimplified)
    ensures |data| == 0 ==> (r.Pass? <==> isSimplified)
    ensures |data| == 0 && !isSimplified ==> r == Fail(DataRequired(Customer))
  {
    if |data| == 0 then
      if !isSimplified then Fail(DataRequired(Customer)) else Pass
    else
      var branch :=
        if Truthy(Lookup(data, "taxId")) then ValidateVatRegistered(data)
        else ValidateNonVat(data, isSimplified);
      if branch.Fail? then branch
      else if AddressChecked(data, isSimplified) then ValidateAddress(data, Customer)
      else Pass
  }

  /** For a non-empty record the branch is chosen by a non-empty taxId and by nothing else. */
  lemma BranchByTaxId(data: Record, isSimplified: bool)
    requires |data| > 0
    ensures Truthy(Lookup(data, "taxId")) && ValidateVatRegistered(data).Fail? ==>
      Validate(data, isSimplified) == ValidateVatRegistered(data)
    ensures Empty(Lookup(data, "taxId")) && ValidateNonVat(data, isSimplified).Fail? ==>
      Validate(data, isSimplified) == ValidateNonVat(data, isSimplified)
    ensures (if Truthy(Lookup(data, "taxId")) then ValidateVatRegistered(data)
             else ValidateNonVat(data, isSimplified)).Pass? ==>
      Validate(data, isSimplified) ==
        (if AddressChecked(data, isSimplified) then ValidateAddress(data, Customer) else Pass)
  {
  }

  /** A VAT-registered buyer must be named, on simplified invoices too. */
  lemma VatBranchNeedsName(data: Record, isSimplified: bool)
    requires Truthy(Lookup(data, "taxId")) && Empty(Lookup(data, "registrationName"))
    ensures Validate(data, isSimplified) == Fail(FieldRequired(Customer, "registrationName"))
  {
  }

  /**
   * In the VAT branch a given scheme id must be VAT in some letter case;
   * an absent or empty one is accepted.
   */
  lemma VatBranchScheme(data: Record, isSimplified: bool)
    requires Truthy(Lookup(data, "taxId")) && Truthy(Lookup(data, "registrationName"))
    ensures SchemeId(data).Str? && Truthy(SchemeId(data)) && !IsVatCode(SchemeId(data).s) ==>
      Validate(data, isSimplified) == Fail(SchemeNotVat(Customer, SchemeId(data).s))
    ensures Empty(SchemeId(data)) ==>
      Validate(data, isSimplified) ==
        (if AddressChecked(data, isSimplified) then ValidateAddress(data, Customer) else Pass)
  {
  }

  /** Without a taxId any non-empty scheme id is refused, 'VAT' included. */
  lemma NonVatBranchRejectsScheme(data: Record, isSimplified: bool)
    requires |data| > 0 && Empty(Lookup(data, "taxId")) && Truthy(SchemeId(data))
    ensures Validate(data, isSimplified) == Fail(SchemeForbidden)
  {
    assert Isset(Lookup(data, "taxScheme"));
  }

  /** Without a taxId the name is required exactly on standard invoices. */
  lemma NonVatBranchName(data: Record, isSimplified: bool)
    requires |data| > 0 && Empty(Lookup(data, "taxId")) && Empty(SchemeId(data))
    requires Empty(Lookup(data, "registrationName"))
    ensures !isSimplified ==> Validate(data, isSimplified) == Fail(FieldRequired(Customer, "registrationName"))
    ensures isSimplified ==> Validate(data, isSimplified) != Fail(FieldRequired(Customer, "registrationName"))
  {
    if isSimplified {
      var r := Validate(data, isSimplified);
      if r.Fail? && r != Fail(IdentificationTypeRequired(Customer)) {
        assert AddressChecked(data, isSimplified);
      }
    }
  }

  /**
   * The identification check belongs to the non-VAT branch only: for a
   * VAT-registered buyer, the identification entries do not change the outcome.
   */
  lemma VatBranchIgnoresIdentification(data: Record, isSimplified: bool, id: PVal, kind: PVal)
    requires Truthy(Lookup(data, "taxId"))
    ensures Validate(data["identificationId" := id]["identificationType" := kind], isSimplified)
         == Validate(data, isSimplified)
  {
    var d := data["identificationId" := id]["identificationType" := kind];
    assert Lookup(d, "taxId") == Lookup(data, "taxId");
    assert Lookup(d, "registrationName") == Lookup(data, "registrationName");
    assert Lookup(d, "taxScheme") == Lookup(data, "taxScheme");
    assert Lookup(d, "address") == Lookup(data, "address");
    assert |d| > 0;
  }

  /**
   * The address is validated exactly on standard invoices and on simplified
   * invoices that supply a non-empty address: a simplified invoice without
   * one passes with an empty address.
   */
  lemma AddressRule(data: Record, isSimplified: bool)
    requires |data| > 0
    requires (if Truthy(Lookup(data, "taxId")) then ValidateVatRegistered(data)
              else ValidateNonVat(data, isSimplified)).Pass?
    ensures AddressChecked(data, isSimplified) ==> Validate(data, isSimplified) == ValidateAddress(data, Customer)
    ensures !AddressChecked(data, isSimplified) ==> Validate(data, isSimplified) == Pass
  {
  }

  // The records of the customer validator's unit tests.

  const TestAddress := Arr(map[
    "street" := Str("Customer St"), "buildingNumber" := Str("456"), "city" := Str("Riyadh"),
    "postalZone" := Str("12345"), "country" := Str("SA")])

  const TestAddressNoBuilding := Arr(map[
    "street" := Str("Customer St"), "city" := Str("Riyadh"),
    "postalZone" := Str("12345"), "country" := Str("SA")])

  lemma TestAddresses(data: Record)
    requires "address" in data
    ensures data["address"] == TestAddress ==> AddressComplete(data) && Truthy(Lookup(data, "address"))
    ensures data["address"] == TestAddressNoBuilding ==>
      ValidateAddress(data, Customer) == Fail(AddressFieldRequired(Customer, "buildingNumber"))
  {
    var a := TestAddress;
    assert Get(a, "street") == Str("Customer St");
    assert Get(a, "buildingNumber") == Str("456");
    assert Get(a, "city") == Str("Riyadh");
    assert Get(a, "postalZone") == Str("12345");
    assert Get(a, "country") == Str("SA");
    var b := TestAddressNoBuilding;
    assert Get(b, "street") == Str("Customer St");
    assert Get(b, "buildingNumber") == Null;
    assert FirstEmpty(b, AddressFields) == 1;
    assert Lookup(data, "address") == data["address"];
  }

  lemma VatRegisteredCustomerForStandardInvoice()
    ensures Validate(TaxRecord("Customer Ltd", "333333333333333", "VAT", TestAddress), false).Pass?
  {
    var d := TaxRecord("Customer Ltd", "333333333333333", "VAT", TestAddress);
    RecordLookups("Customer Ltd", "333333333333333", "VAT", TestAddress);
    TestAddresses(d);
    assert Acceptable(d, false);
  }

  lemma VatRegisteredCustomerWithoutTaxSchemeIsAllowed()
    ensures Validate(PartyRecord("Customer Ltd", "333333333333333", TestAddress), false).Pass?
  {
    var d := PartyRecord("Customer Ltd", "333333333333333", TestAddress);
    RecordLookups("Customer Ltd", "333333333333333", "", TestAddress);
    TestAddresses(d);
    assert Acceptable(d, false);
  }

  lemma NonVatCustomerWithSchemeIdForStandardInvoice()
    ensures Validate(map[
      "registrationName" := Str("Non-VAT Customer"), "identificationId" := Str("1010010000"),
      "identificationType" := Str("CRN"), "address" := TestAddress], false).Pass?
  {
    var d := map[
      "registrationName" := Str("Non-VAT Customer"), "identificationId" := Str("1010010000"),
      "identificationType" := Str("CRN"), "address" := TestAddress];
    TestAddresses(d);
    assert Lookup(d, "registrationName") == Str("Non-VAT Customer");
    assert Lookup(d, "taxId") == Null;
    assert SchemeId(d) == Null;
    assert Lookup(d, "identificationType") == Str("CRN");
    assert Acceptable(d, false);
  }

  lemma NonVatCustomerWithTaxSchemeFails()
    ensures Validate(map[
      "registrationName" := Str("Non-VAT Customer"),
      "taxScheme" := Arr(map["id" := Str("VAT")]), "address" := TestAddress], false)
      == Fail(SchemeForbidden)
  {
    var d := map[
      "registrationName" := Str("Non-VAT Customer"),
      "taxScheme" := Arr(map["id" := Str("VAT")]), "address" := TestAddress];
    assert Lookup(d, "taxId") == Null;
    assert SchemeId(d) == Str("VAT");
    NonVatBranchRejectsScheme(d, false);
  }

  lemma StandardInvoiceWithoutCustomerDataFails()
    ensures Validate(map[], false) == Fail(DataRequired(Customer))
  {
  }

  lemma NonVatCustomerWithoutRegistrationNameForStandardFails()
    ensures Validate(map[
      "identificationId" := Str("1010010000"), "identificationType" := Str("CRN"),
      "address" := TestAddress], false)
      == Fail(FieldRequired(Customer, "registrationName"))
  {
    var d := map[
      "identificationId" := Str("1010010000"), "identificationType" := Str("CRN"),
      "address" := TestAddress];
    assert Lookup(d, "taxId") == Null;
    assert SchemeId(d) == Null;
    assert Lookup(d, "registrationName") == Null;
    NonVatBranchName(d, false);
  }

  lemma SimplifiedInvoiceWithNoCustomerData()
    ensures Validate(map[], true).Pass?
  {
  }

  lemma VatRegisteredCustomerForSimplifiedInvoice()
    ensures Validate(TaxRecord("VAT Customer", "333333333333333", "VAT", TestAddress), true).Pass?
  {
    var d := TaxRecord("VAT Customer", "333333333333333", "VAT", TestAddress);
    RecordLookups("VAT Customer", "333333333333333", "VAT", TestAddress);
    TestAddresses(d);
    assert Acceptable(d, true);
  }

  lemma NonVatCustomerForSimplifiedInvoice()
    ensures Validate(map[
      "identificationId" := Str("1010010000"), "identificationType" := Str("NAT"),
      "address" := TestAddress], true).Pass?
  {
    var d := map[
      "identificationId" := Str("1010010000"), "identificationType" := Str("NAT"),
      "address" := TestAddress];
    TestAddresses(d);
    assert Lookup(d, "taxId") == Null;
    assert SchemeId(d) == Null;
    assert Lookup(d, "identificationType") == Str("NAT");
    assert Acceptable(d, true);
  }

  lemma NonVatCustomerWithIdentificationButNoTypeFails()
    ensures Validate(map[
      "registrationName" := Str("Customer"), "identificationId" := Str("1010010000"),
      "address" := TestAddress], false)
      == Fail(IdentificationTypeRequired(Customer))
  {
    var d := map[
      "registrationName" := Str("Customer"), "identificationId" := Str("1010010000"),
      "address" := TestAddress];
    assert Lookup(d, "taxId") == Null;
    assert SchemeId(d) == Null;
    assert Lookup(d, "registrationName") == Str("Customer");
    assert Lookup(d, "identificationId") == Str("1010010000");
    assert Lookup(d, "identificationType") == Null;
    assert ValidateNonVat(d, false) == Fail(IdentificationTypeRequired(Customer));
  }

  lemma CustomerWithIncompleteAddressFails()
    ensures Validate(TaxRecord("Customer Ltd", "333333333333333", "VAT", TestAddressNoBuilding), false)
      == Fail(AddressFieldRequired(Customer, "buildingNumber"))
  {
    var d := TaxRecord("Customer Ltd", "333333333333333", "VAT", TestAddressNoBuilding);
    RecordLookups("Customer Ltd", "333333333333333", "VAT", TestAddressNoBuilding);
    TestAddresses(d);
    UpperIsVat("VAT");
    assert ValidateVatRegistered(d).Pass?;
  }
}
