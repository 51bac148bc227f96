/**
 * The contact details provider: the customer's details and home address as
 * the handlers see them, and the upstream system's customer-info and address
 * records they are read from and written to.
 */
module ContactDetailsProvider {
  import opened Wrappers
  import opened AccountCache

  datatype Address = Address(
    flatNumber: string,
    houseName: string,
    houseNumber: string,
    streetName: string,
    district: string,
    town: string,
    county: string,
    postCode: string)

  datatype ContactDetails = ContactDetails(
    customerCif: string,
    firstName: string,
    lastName: string,
    mobilePhoneNumber: string,
    homePhoneNumber: string,
    emailAddress: string,
    homeAddress: Address)

  datatype OsAddress = OsAddress(
    apartmentNumber: string,
    houseName: string,
    houseNumber: string,
    street: string,
    district: string,
    city: string,
    county: string,
    postCode: string,
    country: string,
    timeAtAddressMonths: int,
    timeAtAddressYears: int)

  datatype OsCustomerInfo = OsCustomerInfo(
    currentAddress: OsAddress,
    emailAddress: string,
    mobilePhone: string,
    homePhone: string,
    firstName: string,
    lastName: string)

  /** The country code every written address carries. */
  const UnitedKingdom := "00826"

  /** Go's zero values. */
  const NoAddress := Address("", "", "", "", "", "", "", "")
  const NoContactDetails := ContactDetails("", "", "", "", "", "", NoAddress)

  /** `BuildAddress`: the eight fields in declaration order. */
  function BuildAddress(flat: string, houseName: string, houseNum: string, street: string,
                        district: string, town: string, county: string, postcode: string): Address
  {
    Address(flat, houseName, houseNum, street, district, town, county, postcode)
  }

  /** `BuildContactDetails`: the seven fields in declaration order. */
  function BuildContactDetails(cif: string, firstName: string, lastName: string, mobile: string,
                               home: string, email: string, address: Address): ContactDetails
  {
    ContactDetails(cif, firstName, lastName, mobile, home, email, address)
  }

  /** The address an upstream address record denotes. */
  function ReadAddress(a: OsAddress): Address
  {
    BuildAddress(a.apartmentNumber, a.houseName, a.houseNumber, a.street,
                 a.district, a.city, a.county, a.postCode)
  }

  /** `SaveAddress`'s request body. */
  function AddressRecord(a: Address): OsAddress
  {
    OsAddress(a.flatNumber, a.houseName, a.houseNumber, a.streetName, a.district, a.town,
              a.county, a.postCode, UnitedKingdom, 0, 0)
  }

  /**
   * `GetContactDetails`. `reply` is the request and its decoding: a failure
   * gives the zero details together with the error.
   */
  function GetContactDetails(cif: string, reply: Result<OsCustomerInfo, ProviderError>)
    : (ContactDetails, Option<ProviderError>)
  {
    match reply
    case Err(e) => (NoContactDetails, Some(e))
    case Ok(info) =>
      (BuildContactDetails(cif, info.firstName, info.lastName, info.mobilePhone, info.homePhone,
                           info.emailAddress, ReadAddress(info.currentAddress)), None)
  }

  /** The request `SaveAddress` issues: its path and its body. */
  function SaveAddress(cif: string, newAddress: Address): (string, OsAddress)
  {
    ("/contactdetails/" + cif + "/address", AddressRecord(newAddress))
  }

  /** Reading back a written address gives the address that was written. */
  lemma AddressRoundTrip(a: Address)
    ensures ReadAddress(AddressRecord(a)) == a
  {
  }

  /**
   * Writing a read address gives the record back exactly when the record is a
   * United Kingdom address with no time at the address recorded.
   */
  lemma AddressRecordRoundTrip(r: OsAddress)
    ensures AddressRecord(ReadAddress(r)) == r <==>
      r.country == UnitedKingdom && r.timeAtAddressMonths == 0 && r.timeAtAddressYears == 0
  {
  }

  /**
   * The written record: flat number as apartment number, street name as
   * street, town as city, the other five fields under their own names; the
   * country and the time at the address are fixed, whatever the input.
   */
  lemma AddressFieldMap(cif: string, a: Address)
    ensures var (path, r) := SaveAddress(cif, a);
      && path == "/contactdetails/" + cif + "/address"
      && r.apartmentNumber == a.flatNumber && r.street == a.streetName && r.city == a.town
      && r.houseName == a.houseName && r.houseNumber == a.houseNumber && r.district == a.district
      && r.county == a.county && r.postCode == a.postCode
      && r.country == "00826" && r.timeAtAddressMonths == 0 && r.timeAtAddressYears == 0
  {
  }

  /** Two addresses are written identically only if they are the same address. */
  lemma AddressRecordInjective(a: Address, b: Address)
    requires AddressRecord(a) == AddressRecord(b)
    ensures a == b
  {
    AddressRoundTrip(a);
    AddressRoundTrip(b);
  }

  /**
   * A successful read places the customer's fields by position: the mobile
   * phone as the mobile number and the home phone as the home number, never
   * the other way round, and the address through `ReadAddress`.
   */
  lemma ContactDetailsFields(cif: string, info: OsCustomerInfo)
    ensures var (d, err) := GetContactDetails(cif, Ok(info));
      && err == None
      && d.customerCif == cif && d.firstName == info.firstName && d.lastName == info.lastName
      && d.mobilePhoneNumber == info.mobilePhone && d.homePhoneNumber == info.homePhone
      && d.emailAddress == info.emailAddress
      && d.homeAddress == ReadAddress(info.currentAddress)
  {
  }

  /** A failed request or decoding gives the zero details and passes the error on. */
  lemma ContactDetailsFailure(cif: string, e: ProviderError)
    ensures GetContactDetails(cif, Err(e)) == (NoContactDetails, Some(e))
    ensures GetContactDetails(cif, Err(e)).0.customerCif == ""
  {
  }

  /** An address saved and then read back is the one saved, whatever else the record holds. */
  lemma SavedAddressReadsBack(cif: string, a: Address, info: OsCustomerInfo)
    requires info.currentAddress == SaveAddress(cif, a).1
    ensures GetContactDetails(cif, Ok(info)).0.homeAddress == a
  {
    AddressRoundTrip(a);
  }
}
