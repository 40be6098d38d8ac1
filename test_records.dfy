/**
 * Builders for the party records of the validators' unit tests, restated
 * as lemmas in the validator and mapper modules. They exist only to build
 * those records: each test record is a short call here rather than a map
 * display, and `RecordLookups` states once what the checks read from it.
 */
module TestRecords {
  import opened PhpValues
  import opened Parties

  /** A record naming the party, giving its taxId and its address. */
  function PartyRecord(name: string, taxId: string, address: PVal): Record
  {
    map["registrationName" := Str(name), "taxId" := Str(taxId), "address" := address]
  }

  /** The same record with a `taxScheme` holding only the id `schemeId`. */
  function TaxRecord(name: string, taxId: string, schemeId: string, address: PVal): Record
  {
    PartyRecord(name, taxId, address)["taxScheme" := Arr(map["id" := Str(schemeId)])]
  }

  /** What the validators and mappers read from these records. */
  lemma RecordLookups(name: string, taxId: string, schemeId: string, address: PVal)
    ensures var d := PartyRecord(name, taxId, address);
      && |d| > 0 && "address" in d && d["address"] == address && Lookup(d, "address") == address
      && Lookup(d, "registrationName") == Str(name) && Lookup(d, "taxId") == Str(taxId)
      && Lookup(d, "taxScheme") == Null && SchemeId(d) == Null
      && Lookup(d, "identificationId") == Null && Lookup(d, "identificationType") == Null
    ensures var d := TaxRecord(name, taxId, schemeId, address);
      && |d| > 0 && "address" in d && d["address"] == address && Lookup(d, "address") == address
      && Lookup(d, "registrationName") == Str(name) && Lookup(d, "taxId") == Str(taxId)
      && Lookup(d, "taxScheme") == Arr(map["id" := Str(schemeId)]) && SchemeId(d) == Str(schemeId)
      && Lookup(d, "identificationId") == Null && Lookup(d, "identificationType") == Null
  {
    assert "registrationName" in PartyRecord(name, taxId, address);
    assert "registrationName" in TaxRecord(name, taxId, schemeId, address);
  }
}
