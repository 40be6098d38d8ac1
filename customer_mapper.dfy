/**
 * The customer is mapped conditionally: an empty record gives an empty
 * party; otherwise the tax scheme is attached by the rule of `Attaches`
 * and the identification only when one is given.
 */
module CustomerMapper {
  import opened PhpValues
  import opened Parties
  import opened TestRecords
  import PartyValidator
  import CustomerValidator

  /**
   * The rule deciding whether a `PartyTaxScheme` is attached, for the scheme
   * id `sid` the mapper settled on: `sid` is truthy, and it is not exactly
   * 'VAT' or the taxId is truthy.
   */
  predicate Attaches(data: Record, sid: PVal)
  {
    Truthy(sid) && (sid != Str("VAT") || Truthy(Lookup(data, "taxId")))
  }

  /**
   * The party built from a non-empty record, given the scheme id the mapper
   * settled on; `Map` and `MapIntended` differ only in that id.
   */
  function Build(data: Record, sid: PVal): Party
  {
    var taxId := Elvis(Lookup(data, "taxId"), Null);
    var id := Lookup(data, "identificationId");
    var kind := Lookup(data, "identificationType");
    Party(
      partyIdentification := if Isset(id) then Some(id) else None,
      partyIdentificationId := if Isset(id) && Isset(kind) then Some(kind) else None,
      legalEntity := Some(LegalEntity(Coalesce(Lookup(data, "registrationName"), Str("")))),
      partyTaxScheme :=
        if Attaches(data, sid) then
          Some(PartyTaxScheme(TaxScheme(sid), if Truthy(taxId) then Some(taxId) else None))
        else None,
      postalAddress := Some(MapAddress(Lookup(data, "address"))))
  }

  /** The scheme id `CustomerMapper::map` settles on: `taxScheme.id ?? 'VAT'`, never null. */
  function SettledSchemeId(data: Record): (sid: PVal)
    ensures Isset(sid)
    ensures !Isset(SchemeId(data)) ==> sid == Str("VAT")
  {
    Coalesce(SchemeId(data), Str("VAT"))
  }

  /**
   * `CustomerMapper::map`. The empty record, and only it, gives the empty
   * party. A company id is only ever the record's truthy taxId, and an
   * identification type is only set together with an identification id.
   */
  function Map(data: Record): (p: Party)
    ensures p == EmptyParty <==> |data| == 0
    ensures p.partyIdentification.Some? <==> |data| > 0 && Isset(Lookup(data, "identificationId"))
    ensures p.partyIdentificationId.Some? <==>
      |data| > 0 && Isset(Lookup(data, "identificationId")) && Isset(Lookup(data, "identificationType"))
    ensures p.partyIdentification.Some? ==> p.partyIdentification.value == Lookup(data, "identificationId")
    ensures p.partyIdentificationId.Some? ==> p.partyIdentificationId.value == Lookup(data, "identificationType")
    ensures p.partyTaxScheme.Some? <==> |data| > 0 && Attaches(data, SettledSchemeId(data))
    ensures p.partyTaxScheme.Some? ==>
      && p.partyTaxScheme.value.taxScheme.id == SettledSchemeId(data)
      && (p.partyTaxScheme.value.companyId.Some? <==> Truthy(Lookup(data, "taxId")))
      && (p.partyTaxScheme.value.companyId.Some? ==> p.partyTaxScheme.value.companyId.value == Lookup(data, "taxId"))
  {
    if |data| == 0 then EmptyParty else Build(data, SettledSchemeId(data))
  }

  /** A truthy taxId with no scheme id gives the VAT scheme with that taxId as company id. */
  lemma TaxIdDefaultsToVat(data: Record)
    requires Truthy(Lookup(data, "taxId")) && !Isset(SchemeId(data))
    ensures Map(data).partyTaxScheme == Some(PartyTaxScheme(TaxScheme(Str("VAT")), Some(Lookup(data, "taxId"))))
  {
  }

  /** A scheme id other than 'VAT' is attached even when there is no taxId. */
  lemma SchemeWithoutTaxIdAttached(data: Record)
    requires |data| > 0 && Empty(Lookup(data, "taxId"))
    requires Truthy(SchemeId(data)) && SchemeId(data) != Str("VAT")
    ensures Map(data).partyTaxScheme == Some(PartyTaxScheme(TaxScheme(SchemeId(data)), None))
  {
  }

  /** An explicitly empty scheme id attaches nothing, even with a taxId. */
  lemma EmptySchemeIdSuppresses(data: Record)
    requires Isset(SchemeId(data)) && Empty(SchemeId(data))
    ensures Map(data).partyTaxScheme == None
  {
  }

  /**
   * Reading the party back recovers the name (or ''), the identification id,
   * its type whenever the id is set, and, whenever a scheme is attached and
   * the taxId is truthy, the taxId.
   */
  lemma MapRoundTrip(data: Record)
    requires |data| > 0
    ensures var back := Unmap(Map(data));
      && Lookup(back, "registrationName") == Coalesce(Lookup(data, "registrationName"), Str(""))
      && Lookup(back, "identificationId") == Lookup(data, "identificationId")
      && Lookup(back, "identificationType") ==
           (if Isset(Lookup(data, "identificationId")) then Lookup(data, "identificationType") else Null)
      && (Truthy(Lookup(data, "taxId")) && Truthy(SettledSchemeId(data)) ==>
            Lookup(back, "taxId") == Lookup(data, "taxId"))
      && forall i :: 0 <= i < |AddressKeys| ==>
           Get(Lookup(back, "address"), AddressKeys[i])
             == Coalesce(Get(Lookup(data, "address"), AddressKeys[i]), AddressDefault(AddressKeys[i]))
  {
    AddressRoundTrip(Lookup(data, "address"));
  }

  /**
   * A record carrying every documented field, with a truthy taxId and a
   * truthy scheme id, is recovered exactly from its party.
   */
  lemma ConformantRoundTrip(data: Record)
    requires Conformant(data) && Truthy(data["taxId"]) && Truthy(SchemeId(data))
    ensures Unmap(Map(data)) == data
  {
    MapConformant(data);
    ConformantAddressRoundTrip(data["address"]);
    ConformantShape(data);
  }

  /**
   * A conformant record with a truthy taxId and a truthy scheme id is mapped
   * entry by entry: every part of the party holds the record's own value.
   */
  lemma MapConformant(data: Record)
    requires Conformant(data) && Truthy(data["taxId"]) && Truthy(SchemeId(data))
    ensures Map(data) == Party(Some(data["identificationId"]), Some(data["identificationType"]),
      Some(LegalEntity(data["registrationName"])),
      Some(PartyTaxScheme(TaxScheme(data["taxScheme"].m["id"]), Some(data["taxId"]))),
      Some(MapAddress(data["address"])))
  {
    assert Lookup(data, "taxId") == data["taxId"];
  }

  /**
   * After validation, a scheme is only attached to a buyer with a taxId, and
   * a buyer with a taxId whose scheme id is unset or non-empty gets it, with
   * the taxId as company id and the scheme id spelling VAT.
   */
  lemma ValidatedCustomerParty(data: Record, isSimplified: bool)
    requires |data| > 0 && CustomerValidator.Validate(data, isSimplified).Pass?
    ensures Map(data).partyTaxScheme.Some? ==> Truthy(Lookup(data, "taxId"))
    ensures Truthy(Lookup(data, "taxId")) && (!Isset(SchemeId(data)) || Truthy(SchemeId(data))) ==>
      && Map(data).partyTaxScheme.Some?
      && Map(data).partyTaxScheme.value.companyId == Some(Lookup(data, "taxId"))
      && (var id := Map(data).partyTaxScheme.value.taxScheme.id; id.Str? && PartyValidator.IsVatCode(id.s))
  {
  }

  /**
   * A VAT-registered buyer whose scheme id is '' passes validation, yet its
   * party carries no tax scheme and no company id.
   */
  lemma ValidatedVatCustomerLosesScheme()
    ensures var d := TaxRecord("Customer Ltd", "333333333333333", "", CustomerValidator.TestAddress);
      CustomerValidator.Validate(d, false).Pass? && Map(d).partyTaxScheme == None
  {
    var d := TaxRecord("Customer Ltd", "333333333333333", "", CustomerValidator.TestAddress);
    RecordLookups("Customer Ltd", "333333333333333", "", CustomerValidator.TestAddress);
    CustomerValidator.TestAddresses(d);
    assert CustomerValidator.Acceptable(d, false);
  }

  /**
   * The mapping the validator's "an empty scheme id defaults to VAT"
   * presumes: the scheme id falls back to 'VAT' when empty (`?:`), not only
   * when unset (`??`).
   */
  function MapIntended(data: Record): (p: Party)
    ensures p == EmptyParty <==> |data| == 0
    ensures p.partyTaxScheme.Some? ==> Truthy(p.partyTaxScheme.value.taxScheme.id)
  {
    if |data| == 0 then EmptyParty else Build(data, Elvis(SchemeId(data), Str("VAT")))
  }

  /**
   * With the intended default, a validated buyer carries a tax scheme exactly
   * when it has a taxId, with the taxId as company id and the VAT code as
   * scheme id.
   */
  lemma IntendedSchemeIffTaxId(data: Record, isSimplified: bool)
    requires |data| > 0 && CustomerValidator.Validate(data, isSimplified).Pass?
    ensures MapIntended(data).partyTaxScheme.Some? <==> Truthy(Lookup(data, "taxId"))
    ensures MapIntended(data).partyTaxScheme.Some? ==>
      && MapIntended(data).partyTaxScheme.value.companyId == Some(Lookup(data, "taxId"))
      && (var id := MapIntended(data).partyTaxScheme.value.taxScheme.id; id.Str? && PartyValidator.IsVatCode(id.s))
  {
  }
}
