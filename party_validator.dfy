/**
 * The checks shared by the supplier and customer validators: the address
 * check, the identification check and the VAT tax-scheme check. Each is a
 * fail-fast decision over the input record; a thrown
 * `InvalidArgumentException` becomes a `Fail` carrying the party and the
 * field it names.
 */
module PartyValidator {
  import opened PhpValues

  /** The party named in an error message ("Supplier" or "Customer"). */
  datatype Role = Supplier | Customer

  datatype ValidationError =
    | DataRequired(role: Role)                          // the whole record is empty
    | FieldRequired(role: Role, field: string)          // a required top-level field is empty
    | SchemeNotVat(role: Role, found: string)           // a given scheme id is not 'VAT'
    | SchemeNotString(role: Role)                       // `strtoupper` refuses an array id
    | SchemeForbidden                                   // a non-VAT customer carries a scheme id
    | AddressRequired(role: Role)                       // no address entry at all
    | AddressFieldRequired(role: Role, field: string)   // one required address field is empty
    | IdentificationTypeRequired(role: Role)            // an id without its type

  datatype Outcome = Pass | Fail(error: ValidationError)

  /** The address fields checked, in the order they are checked. */
  const AddressFields: seq<string> := ["street", "buildingNumber", "city", "postalZone", "country"]

  /**
   * The early-exit `foreach` over a constant list of keys: the index of the
   * first key whose entry in `v` is empty, or `|keys|` when there is none.
   */
  function FirstEmpty(v: PVal, keys: seq<string>): (k: nat)
    ensures k <= |keys|
    ensures forall j :: 0 <= j < k ==> Truthy(Get(v, keys[j]))
    ensures k < |keys| ==> Empty(Get(v, keys[k]))
  {
    if keys == [] then 0
    else if Empty(Get(v, keys[0])) then 0
    else 1 + FirstEmpty(v, keys[1..])
  }

  /** Every required address field of the record is non-empty. */
  predicate AddressComplete(data: Record)
  {
    forall i :: 0 <= i < |AddressFields| ==> Truthy(Get(Lookup(data, "address"), AddressFields[i]))
  }

  /**
   * `validateAddress`: an empty address entry fails first; otherwise the
   * first empty field among street, buildingNumber, city, postalZone and
   * country is named. The subdivision is never looked at.
   */
  function ValidateAddress(data: Record, role: Role): (r: Outcome)
    ensures r.Pass? <==> AddressComplete(data)
    ensures Empty(Lookup(data, "address")) ==> r == Fail(AddressRequired(role))
    ensures r.Fail? && Truthy(Lookup(data, "address")) ==>
      exists i :: 0 <= i < |AddressFields| && r == Fail(AddressFieldRequired(role, AddressFields[i]))
        && Empty(Get(Lookup(data, "address"), AddressFields[i]))
        && forall j :: 0 <= j < i ==> Truthy(Get(Lookup(data, "address"), AddressFields[j]))
  {
    var address := Lookup(data, "address");
    if Empty(address) then
      assert Empty(Get(address, AddressFields[0]));
      Fail(AddressRequired(role))
    else
      var k := FirstEmpty(address, AddressFields);
      if k < |AddressFields| then Fail(AddressFieldRequired(role, AddressFields[k])) else Pass
  }

  /** A record's address check depends on its address entry only. */
  lemma AddressOnly(data: Record, role: Role)
    ensures ValidateAddress(data, role) == ValidateAddress(map["address" := Lookup(data, "address")], role)
  {
  }

  /**
   * `validateIdentification`: only an identification id without a type is
   * refused.
   */
  function ValidateIdentification(data: Record, role: Role): (r: Outcome)
    ensures r.Fail? <==> Truthy(Lookup(data, "identificationId")) && Empty(Lookup(data, "identificationType"))
    ensures r.Fail? ==> r.error == IdentificationTypeRequired(role)
  {
    var id := Lookup(data, "identificationId");
    if Isset(id) && !Empty(id) then
      if Empty(Lookup(data, "identificationType")) then Fail(IdentificationTypeRequired(role)) else Pass
    else
      Pass
  }

  /** The case-insensitive spelling of the VAT code: v/V, a/A, t/T. */
  predicate IsVatCode(s: string)
  {
    |s| == 3
    && (s[0] == 'V' || s[0] == 'v')
    && (s[1] == 'A' || s[1] == 'a')
    && (s[2] == 'T' || s[2] == 't')
  }

  lemma UpperCharIs(c: char, upper: char)
    requires 'A' <= upper <= 'Z'
    ensures UpperChar(c) == upper <==> c == upper || c as int == upper as int + 32
  {
  }

  /** `strtoupper($s) === 'VAT'` is exactly the case-insensitive VAT code. */
  lemma UpperIsVat(s: string)
    ensures Upper(s) == "VAT" <==> IsVatCode(s)
  {
    if |s| == 3 {
      UpperCharIs(s[0], 'V');
      UpperCharIs(s[1], 'A');
      UpperCharIs(s[2], 'T');
      if IsVatCode(s) {
        assert Upper(s) == [Upper(s)[0], Upper(s)[1], Upper(s)[2]];
      }
    }
  }

  /**
   * The scheme check both the supplier and the VAT-registered customer run:
   * a non-empty `taxScheme.id` must upper-case to 'VAT'; an absent or empty
   * one always passes.
   */
  function CheckVatScheme(id: PVal, role: Role): (r: Outcome)
    ensures r.Pass? <==> Empty(id) || (id.Str? && IsVatCode(id.s))
    ensures r.Fail? && id.Str? ==> r == Fail(SchemeNotVat(role, id.s))
    ensures r.Fail? && !id.Str? ==> r == Fail(SchemeNotString(role))
  {
    if Isset(id) && !Empty(id) then
      match id
      case Str(s) =>
        UpperIsVat(s);
        if Upper(s) != "VAT" then Fail(SchemeNotVat(role, s)) else Pass
      case _ => Fail(SchemeNotString(role))
    else
      Pass
  }
}
