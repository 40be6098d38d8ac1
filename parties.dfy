/**
 * The party sub-entities the mappers build. Their PHP classes are plain
 * holders with fluent setters; a field that was never set stays `null`,
 * modelled here as `None`. Values are stored exactly as the mapper passes
 * them, so the input's `PVal` is kept un-normalised.
 */
module Parties {
  import opened PhpValues

  datatype TaxScheme = TaxScheme(id: PVal)

  datatype LegalEntity = LegalEntity(registrationName: PVal)

  /** A tax scheme together with the optional company (VAT) number. */
  datatype PartyTaxScheme = PartyTaxScheme(taxScheme: TaxScheme, companyId: Option<PVal>)

  datatype Address = Address(
    streetName: PVal,
    buildingNumber: PVal,
    citySubdivisionName: PVal,
    cityName: PVal,
    postalZone: PVal,
    country: PVal)

  /**
   * `partyIdentification` is the identifier value and `partyIdentificationId`
   * its scheme (type) code, following the names of the PHP setters.
   */
  datatype Party = Party(
    partyIdentification: Option<PVal>,
    partyIdentificationId: Option<PVal>,
    legalEntity: Option<LegalEntity>,
    partyTaxScheme: Option<PartyTaxScheme>,
    postalAddress: Option<Address>)

  /** `$data['taxScheme']['id']`, read by both validators and both mappers. */
  function SchemeId(data: Record): PVal
  {
    Get(Lookup(data, "taxScheme"), "id")
  }

  /** `new Party`: nothing set. */
  const EmptyParty := Party(None, None, None, None, None)

  /**
   * The address both mappers build: every sub-field is `?? ''`, except the
   * country, which is `?? 'SA'`.
   */
  function MapAddress(address: PVal): (a: Address)
    ensures Isset(a.streetName) && Isset(a.buildingNumber) && Isset(a.citySubdivisionName)
    ensures Isset(a.cityName) && Isset(a.postalZone) && Isset(a.country)
    ensures !Isset(Get(address, "country")) ==> a.country == Str("SA")
  {
    Address(
      Coalesce(Get(address, "street"), Str("")),
      Coalesce(Get(address, "buildingNumber"), Str("")),
      Coalesce(Get(address, "subdivision"), Str("")),
      Coalesce(Get(address, "city"), Str("")),
      Coalesce(Get(address, "postalZone"), Str("")),
      Coalesce(Get(address, "country"), Str("SA")))
  }
  /** The address keys the mappers read, the subdivision included. */
  const AddressKeys: seq<string> := ["street", "buildingNumber", "subdivision", "city", "postalZone", "country"]

  /** The value `MapAddress` stores for an address key the input leaves unset. */
  function AddressDefault(key: string): PVal
  {
    if key == "country" then Str("SA") else Str("")
  }

  function OrNull(o: Option<PVal>): PVal
  {
    if o.Some? then o.value else Null
  }

  function UnmapAddress(a: Address): PVal
  {
    Arr(map[
      "street" := a.streetName, "buildingNumber" := a.buildingNumber,
      "subdivision" := a.citySubdivisionName, "city" := a.cityName,
      "postalZone" := a.postalZone, "country" := a.country])
  }

  /**
   * Reads a party back into the shape of the input record: the inverse the
   * round-trip lemmas of both mappers are stated against. An unset part
   * reads back as `null`.
   */
  function Unmap(p: Party): Record
  {
    map[
      "registrationName" := if p.legalEntity.Some? then p.legalEntity.value.registrationName else Null,
      "taxId" := if p.partyTaxScheme.Some? then OrNull(p.partyTaxScheme.value.companyId) else Null,
      "taxScheme" := if p.partyTaxScheme.Some? then Arr(map["id" := p.partyTaxScheme.value.taxScheme.id]) else Null,
      "address" := if p.postalAddress.Some? then UnmapAddress(p.postalAddress.value) else Null,
      "identificationId" := OrNull(p.partyIdentification),
      "identificationType" := OrNull(p.partyIdentificationId)]
  }

  /** Every address key reads back as given, or as its default when unset. */
  lemma AddressRoundTrip(address: PVal)
    ensures forall i :: 0 <= i < |AddressKeys| ==>
      Get(UnmapAddress(MapAddress(address)), AddressKeys[i])
        == Coalesce(Get(address, AddressKeys[i]), AddressDefault(AddressKeys[i]))
  {
  }

  /**
   * A record holding exactly the documented fields, each of them set, with a
   * `taxScheme` holding only its id and an address holding exactly the six
   * address keys.
   */
  predicate Conformant(data: Record)
  {
    && data.Keys == {"registrationName", "taxId", "taxScheme", "address", "identificationId", "identificationType"}
    && (forall k :: k in data ==> Isset(data[k]))
    && data["taxScheme"].Arr? && data["taxScheme"].m.Keys == {"id"} && Isset(data["taxScheme"].m["id"])
    && data["address"].Arr?
    && data["address"].m.Keys == {"street", "buildingNumber", "subdivision", "city", "postalZone", "country"}
    && (forall k :: k in data["address"].m ==> Isset(data["address"].m[k]))
  }

  /** A conformant record is the display of its six entries, its scheme the display of its id. */
  lemma ConformantShape(data: Record)
    requires Conformant(data)
    ensures data == map[
      "registrationName" := data["registrationName"], "taxId" := data["taxId"],
      "taxScheme" := Arr(map["id" := data["taxScheme"].m["id"]]), "address" := data["address"],
      "identificationId" := data["identificationId"], "identificationType" := data["identificationType"]]
  {
    assert data["taxScheme"] == Arr(map["id" := data["taxScheme"].m["id"]]);
  }

  /** On a conformant address, mapping and reading back loses nothing. */
  lemma ConformantAddressRoundTrip(address: PVal)
    requires address.Arr?
    requires address.m.Keys == {"street", "buildingNumber", "subdivision", "city", "postalZone", "country"}
    requires forall k :: k in address.m ==> Isset(address.m[k])
    ensures UnmapAddress(MapAddress(address)) == address
  {
    var m := address.m;
    var back := UnmapAddress(MapAddress(address)).m;
    assert back.Keys == m.Keys;
    forall k | k in m ensures back[k] == m[k] {
      assert Get(address, k) == m[k];
    }
  }
}
