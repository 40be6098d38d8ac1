/**
 * The supplier is always mapped as a VAT-registered party: it always gets a
 * tax scheme, a company id, an identification and an address, each field
 * falling back to its default when the record leaves it unset.
 */
module SupplierMapper {
  import opened PhpValues
  import opened Parties
  import opened TestRecords
  import PartyValidator
  import SupplierValidator

  /**
   * The party built from a record, given the scheme id to store; `Map` and
   * `MapIntended` differ only in that id.
   */
  function Build(data: Record, schemeId: PVal): Party
  {
    Party(
      partyIdentification := Some(Coalesce(Lookup(data, "identificationId"), Str(""))),
      partyIdentificationId := Some(Coalesce(Lookup(data, "identificationType"), Str("CRN"))),
      legalEntity := Some(LegalEntity(Coalesce(Lookup(data, "registrationName"), Str("")))),
      partyTaxScheme := Some(PartyTaxScheme(TaxScheme(schemeId), Some(Coalesce(Lookup(data, "taxId"), Str(""))))),
      postalAddress := Some(MapAddress(Lookup(data, "address"))))
  }

  /**
   * `SupplierMapper::map`, total on every record: every part of the party is
   * set, whatever the record holds.
   */
  function Map(data: Record): (p: Party)
    ensures p.partyIdentification.Some? && p.partyIdentificationId.Some?
    ensures p.legalEntity.Some? && p.partyTaxScheme.Some? && p.postalAddress.Some?
    ensures p.partyTaxScheme.value.companyId.Some?
  {
    Build(data, Coalesce(SchemeId(data), Str("VAT")))
  }

  /**
   * Reading the party back gives every field of the record, an unset field
   * reading back as its default: '' for the name, taxId and identification
   * id, 'CRN' for the identification type, 'VAT' for the scheme id, '' for
   * the address fields and 'SA' for the country.
   */
  lemma MapRoundTrip(data: Record)
    ensures var back := Unmap(Map(data));
      && Lookup(back, "registrationName") == Coalesce(Lookup(data, "registrationName"), Str(""))
      && Lookup(back, "taxId") == Coalesce(Lookup(data, "taxId"), Str(""))
      && SchemeId(back) == Coalesce(SchemeId(data), Str("VAT"))
      && Lookup(back, "identificationId") == Coalesce(Lookup(data, "identificationId"), Str(""))
      && Lookup(back, "identificationType") == Coalesce(Lookup(data, "identificationType"), Str("CRN"))
      && forall i :: 0 <= i < |AddressKeys| ==>
           Get(Lookup(back, "address"), AddressKeys[i])
             == Coalesce(Get(Lookup(data, "address"), AddressKeys[i]), AddressDefault(AddressKeys[i]))
  {
    AddressRoundTrip(Lookup(data, "address"));
  }

  /** A record carrying every documented field is recovered exactly from its party. */
  lemma ConformantRoundTrip(data: Record)
    requires Conformant(data)
    ensures Unmap(Map(data)) == data
  {
    MapConformant(data);
    ConformantAddressRoundTrip(data["address"]);
    ConformantShape(data);
  }

  /** A conformant record is mapped entry by entry: every part of the party holds the record's own value. */
  lemma MapConformant(data: Record)
    requires Conformant(data)
    ensures Map(data) == Party(Some(data["identificationId"]), Some(data["identificationType"]),
      Some(LegalEntity(data["registrationName"])),
      Some(PartyTaxScheme(TaxScheme(data["taxScheme"].m["id"]), Some(data["taxId"]))),
      Some(MapAddress(data["address"])))
  {
  }

  /**
   * What validation buys the mapped supplier: a non-empty name and VAT
   * number, a complete address, and an identification type whenever there
   * is an identification id. The scheme id is the VAT code, unless the
   * record gave an empty one, which is stored as it is (see `MapIntended`).
   */
  lemma ValidatedSupplierParty(data: Record)
    requires SupplierValidator.Validate(data).Pass?
    ensures var p := Map(data);
      && Truthy(p.legalEntity.value.registrationName)
      && p.partyTaxScheme.value.companyId == Some(Lookup(data, "taxId"))
      && Truthy(Lookup(data, "taxId"))
      && (var id := p.partyTaxScheme.value.taxScheme.id;
          (id.Str? && PartyValidator.IsVatCode(id.s)) || (id == SchemeId(data) && Empty(id)))
      && Truthy(p.postalAddress.value.streetName)
      && Truthy(p.postalAddress.value.buildingNumber)
      && Truthy(p.postalAddress.value.cityName)
      && Truthy(p.postalAddress.value.postalZone)
      && Truthy(p.postalAddress.value.country)
      && (Truthy(p.partyIdentification.value) ==> Truthy(p.partyIdentificationId.value))
  {
    var a := Lookup(data, "address");
    assert Truthy(Get(a, PartyValidator.AddressFields[0]));
    assert Truthy(Get(a, PartyValidator.AddressFields[1]));
    assert Truthy(Get(a, PartyValidator.AddressFields[2]));
    assert Truthy(Get(a, PartyValidator.AddressFields[3]));
    assert Truthy(Get(a, PartyValidator.AddressFields[4]));
  }

  /** A validated supplier whose scheme id is '' is mapped with the scheme id ''. */
  lemma EmptySchemeIdKept()
    ensures var d := TaxRecord("My Company", "311111111111113", "", SupplierValidator.TestAddress);
      SupplierValidator.Validate(d).Pass? && Map(d).partyTaxScheme.value.taxScheme.id == Str("")
  {
    var d := TaxRecord("My Company", "311111111111113", "", SupplierValidator.TestAddress);
    RecordLookups("My Company", "311111111111113", "", SupplierValidator.TestAddress);
    SupplierValidator.TestAddresses(PartyValidator.Supplier);
    PartyValidator.AddressOnly(d, PartyValidator.Supplier);
    SupplierValidator.Accepted(d);
  }

  /**
   * The mapping the validator's "an empty scheme id defaults to VAT"
   * presumes: the scheme id falls back to 'VAT' when empty (`?:`), not only
   * when unset (`??`).
   */
  function MapIntended(data: Record): (p: Party)
    ensures p.partyTaxScheme.Some? && Truthy(p.partyTaxScheme.value.taxScheme.id)
  {
    Build(data, Elvis(SchemeId(data), Str("VAT")))
  }

  /** With the intended default, every validated supplier carries the VAT code. */
  lemma IntendedValidatedSupplierIsVat(data: Record)
    requires SupplierValidator.Validate(data).Pass?
    ensures var id := MapIntended(data).partyTaxScheme.value.taxScheme.id;
      id.Str? && PartyValidator.IsVatCode(id.s)
    ensures MapIntended(data).partyTaxScheme.value.companyId == Some(Lookup(data, "taxId"))
  {
  }
}
