/** The value objects of the Organization sub-domain: the three GUID
    wrappers, the trimmed-text values (`Address`, `StorageFacilityName`,
    `SectionCode`), the floor bounds and `Area`. Every failed check is a
    `WarehouseInfrastructureException` in the source; here each message
    is one `OrgError` constructor. A `string` parameter is an
    `Option<NetString>`, `None` being null. */
module OrganizationValues {
  import opened Wrappers
  import opened DotNet

  datatype OrgError =
    | CountryRequired
    | RegionRequired
    | CityRequired
    | StreetRequired
    | BuildingNumberRequired
    | FacilityNameEmpty
    | FacilityNameTooLong
    | SectionCodeEmpty
    | NegativeFloorNumber
    | NonPositiveFloorCount
    | EmptyStorageFacilityId
    | EmptyBuildingId
    | EmptySectionId
    | NonPositiveArea
      /** "Section '<input>' already exists", quoting the untrimmed input. */
    | DuplicateSection(input: NetString)

  // ------------------------------------------------------- GUID wrappers

  /** `StorageFacilityId`: a non-empty GUID. */
  datatype StorageFacilityId = StorageFacilityId(value: NonEmptyGuid) {
    static function Of(id: Guid): (r: Result<StorageFacilityId, OrgError>)
      ensures r.Success? <==> id != EMPTY_GUID
      ensures r.Success? ==> r.value.value == id
      ensures r.Failure? ==> r.error == EmptyStorageFacilityId
    {
      if id == EMPTY_GUID then Failure(EmptyStorageFacilityId) else Success(StorageFacilityId(id))
    }

    /** `Equals(StorageFacilityId?)`: never equal to null, else by GUID. */
    predicate Equals(other: Option<StorageFacilityId>)
      ensures Equals(other) <==> other == Some(this)
    {
      other.Some? && value == other.value.value
    }

    /** The static `==` (`object.Equals(left, right)`) and `!=`. */
    static predicate OpEquals(left: Option<StorageFacilityId>, right: Option<StorageFacilityId>)
      ensures OpEquals(left, right) <==> left == right
    {
      if left.None? || right.None? then left.None? && right.None? else left.value.Equals(right)
    }

    static predicate OpNotEquals(left: Option<StorageFacilityId>, right: Option<StorageFacilityId>)
      ensures OpNotEquals(left, right) <==> left != right
    {
      !OpEquals(left, right)
    }
  }

  /** `BuildingId`: a non-empty GUID. */
  datatype BuildingId = BuildingId(value: NonEmptyGuid) {
    static function Of(id: Guid): (r: Result<BuildingId, OrgError>)
      ensures r.Success? <==> id != EMPTY_GUID
      ensures r.Success? ==> r.value.value == id
      ensures r.Failure? ==> r.error == EmptyBuildingId
    {
      if id == EMPTY_GUID then Failure(EmptyBuildingId) else Success(BuildingId(id))
    }

    predicate Equals(other: Option<BuildingId>)
      ensures Equals(other) <==> other == Some(this)
    {
      other.Some? && value == other.value.value
    }

    static predicate OpEquals(left: Option<BuildingId>, right: Option<BuildingId>)
      ensures OpEquals(left, right) <==> left == right
    {
      if left.None? || right.None? then left.None? && right.None? else left.value.Equals(right)
    }

    static predicate OpNotEquals(left: Option<BuildingId>, right: Option<BuildingId>)
      ensures OpNotEquals(left, right) <==> left != right
    {
      !OpEquals(left, right)
    }
  }

  /** `SectionId`: a non-empty GUID. */
  datatype SectionId = SectionId(value: NonEmptyGuid) {
    static function Of(id: Guid): (r: Result<SectionId, OrgError>)
      ensures r.Success? <==> id != EMPTY_GUID
      ensures r.Success? ==> r.value.value == id
      ensures r.Failure? ==> r.error == EmptySectionId
    {
      if id == EMPTY_GUID then Failure(EmptySectionId) else Success(SectionId(id))
    }

    predicate Equals(other: Option<SectionId>)
      ensures Equals(other) <==> other == Some(this)
    {
      other.Some? && value == other.value.value
    }

    static predicate OpEquals(left: Option<SectionId>, right: Option<SectionId>)
      ensures OpEquals(left, right) <==> left == right
    {
      if left.None? || right.None? then left.None? && right.None? else left.value.Equals(right)
    }

    static predicate OpNotEquals(left: Option<SectionId>, right: Option<SectionId>)
      ensures OpNotEquals(left, right) <==> left != right
    {
      !OpEquals(left, right)
    }
  }

  // -------------------------------------------------------------- Address

  /** `Address`: five required parts, each stored trimmed. */
  datatype Address = Address(
    country: TrimmedText,
    region: TrimmedText,
    city: TrimmedText,
    street: TrimmedText,
    buildingNumber: TrimmedText)
  {
    /** `Of`: checks country, region, city, street and building number
        in that order, then trims each. */
    static function Of(country: Option<NetString>, region: Option<NetString>, city: Option<NetString>,
                       street: Option<NetString>, buildingNumber: Option<NetString>): (r: Result<Address, OrgError>)
      ensures r.Success? <==> !IsNullOrWhiteSpace(country) && !IsNullOrWhiteSpace(region) && !IsNullOrWhiteSpace(city)
                              && !IsNullOrWhiteSpace(street) && !IsNullOrWhiteSpace(buildingNumber)
      ensures r.Success? ==> r.value.country == Trim(country.value) && r.value.region == Trim(region.value)
                             && r.value.city == Trim(city.value) && r.value.street == Trim(street.value)
                             && r.value.buildingNumber == Trim(buildingNumber.value)
      ensures IsNullOrWhiteSpace(country) ==> r == Failure(CountryRequired)
      ensures !IsNullOrWhiteSpace(country) && IsNullOrWhiteSpace(region) ==> r == Failure(RegionRequired)
      ensures !IsNullOrWhiteSpace(country) && !IsNullOrWhiteSpace(region) && IsNullOrWhiteSpace(city)
              ==> r == Failure(CityRequired)
      ensures (!IsNullOrWhiteSpace(country) && !IsNullOrWhiteSpace(region) && !IsNullOrWhiteSpace(city)
               && IsNullOrWhiteSpace(street)) ==> r == Failure(StreetRequired)
      ensures (r.Failure? && !IsNullOrWhiteSpace(country) && !IsNullOrWhiteSpace(region) && !IsNullOrWhiteSpace(city)
               && !IsNullOrWhiteSpace(street)) ==> r.error == BuildingNumberRequired
    {
      if IsNullOrWhiteSpace(country) then Failure(CountryRequired)
      else if IsNullOrWhiteSpace(region) then Failure(RegionRequired)
      else if IsNullOrWhiteSpace(city) then Failure(CityRequired)
      else if IsNullOrWhiteSpace(street) then Failure(StreetRequired)
      else if IsNullOrWhiteSpace(buildingNumber) then Failure(BuildingNumberRequired)
      else Success(Address(Trim(country.value), Trim(region.value), Trim(city.value),
                           Trim(street.value), Trim(buildingNumber.value)))
    }

    /** `Equals(Address?)`: never equal to null, otherwise part by part. */
    predicate Equals(other: Option<Address>)
      ensures Equals(other) <==> other == Some(this)
    {
      && other.Some?
      && country == other.value.country
      && region == other.value.region
      && city == other.value.city
      && street == other.value.street
      && buildingNumber == other.value.buildingNumber
    }

    /** `ToString`: "Street, BuildingNumber, City, Region, Country". */
    function ToString(): NetString {
      var middle := buildingNumber + Separator() + city + Separator() + region;
      street + Separator() + middle + Separator() + country
    }
  }

  /** ", " */
  function Separator(): (s: NetString)
    ensures |s| == 2
  {
    [0x2C, 0x20]
  }

  /** The static `==` on `Address?` and its negation `!=`. */
  predicate AddressOpEquals(left: Option<Address>, right: Option<Address>)
    ensures AddressOpEquals(left, right) <==> left == right
  {
    if left.None? || right.None? then left.None? && right.None? else left.value.Equals(right)
  }

  predicate AddressOpNotEquals(left: Option<Address>, right: Option<Address>)
    ensures AddressOpNotEquals(left, right) <==> left != right
  {
    !AddressOpEquals(left, right)
  }

  /** Every part of a validated address is non-empty and trimmed, and
      validating the parts again yields the same address. */
  lemma {:induction false} AddressOfIsIdempotent(country: Option<NetString>, region: Option<NetString>, city: Option<NetString>,
                                                 street: Option<NetString>, buildingNumber: Option<NetString>)
    requires Address.Of(country, region, city, street, buildingNumber).Success?
    ensures var a := Address.Of(country, region, city, street, buildingNumber).value;
            Address.Of(Some(a.country), Some(a.region), Some(a.city), Some(a.street), Some(a.buildingNumber))
            == Success(a)
  {
    var a := Address.Of(country, region, city, street, buildingNumber).value;
    TrimNonBlank(country.value);
    TrimNonBlank(region.value);
    TrimNonBlank(city.value);
    TrimNonBlank(street.value);
    TrimNonBlank(buildingNumber.value);
  }

  /** The display string opens with the street and its separator, closes
      with a separator and the country, and has room for exactly the five
      parts and four separators. */
  lemma ToStringLayout(a: Address)
    ensures var s := a.ToString();
            && |s| == |a.street| + |a.buildingNumber| + |a.city| + |a.region| + |a.country| + 4 * |Separator()|
            && s[..|a.street|] == a.street
            && s[|a.street|..|a.street| + 2] == Separator()
            && s[|s| - |a.country| - 2..|s| - |a.country|] == Separator()
            && s[|s| - |a.country|..] == a.country
  {
    var sep := Separator();
    var s := a.ToString();
    var r1 := a.street + sep;
    var r2 := r1 + (a.buildingNumber + sep + a.city + sep + a.region);
    var r3 := r2 + sep;
    assert s == r3 + a.country;
    Split(r3, a.country);
    Split(r2, sep);
    Split(r1, r2[|r1|..]);
    Split(a.street, sep);
    assert s[..|r3|] == r3;
    assert s[|r2|..|r3|] == r3[|r2|..];
    assert s[..|a.street|] == r3[..|a.street|] == r2[..|a.street|] == r1[..|a.street|];
    assert s[|a.street|..|r1|] == r3[|a.street|..|r1|] == r2[|a.street|..|r1|] == r1[|a.street|..];
  }

  /** Both halves of a concatenation can be sliced back out. */
  lemma Split(x: NetString, y: NetString)
    ensures (x + y)[..|x|] == x && (x + y)[|x|..] == y
  {
  }

  // -------------------------------------------------- StorageFacilityName

  /** `MaxLength`. */
  const MAX_NAME_LENGTH: nat := 100

  type FacilityNameText = s: TrimmedText | |s| <= MAX_NAME_LENGTH witness [0x41]

  /** `StorageFacilityName`: trimmed, non-empty, at most 100 code units. */
  datatype StorageFacilityName = StorageFacilityName(value: FacilityNameText) {
    /** `Of`: rejects null or blank input, then trims, then rejects a
        trimmed value longer than `MaxLength`. */
    static function Of(value: Option<NetString>): (r: Result<StorageFacilityName, OrgError>)
      ensures r.Success? <==> !IsNullOrWhiteSpace(value) && |Trim(value.value)| <= MAX_NAME_LENGTH
      ensures r.Success? ==> r.value.value == Trim(value.value)
      ensures IsNullOrWhiteSpace(value) ==> r == Failure(FacilityNameEmpty)
      ensures !IsNullOrWhiteSpace(value) && r.Failure? ==> r.error == FacilityNameTooLong
    {
      if IsNullOrWhiteSpace(value) then Failure(FacilityNameEmpty)
      else
        var trimmed := Trim(value.value);
        if |trimmed| > MAX_NAME_LENGTH then Failure(FacilityNameTooLong)
        else Success(StorageFacilityName(trimmed))
    }

    /** Ordinal equality; never equal to null. */
    predicate Equals(other: Option<StorageFacilityName>)
      ensures Equals(other) <==> other == Some(this)
    {
      other.Some? && value == other.value.value
    }
  }

  predicate FacilityNameOpEquals(left: Option<StorageFacilityName>, right: Option<StorageFacilityName>)
    ensures FacilityNameOpEquals(left, right) <==> left == right
  {
    if left.None? || right.None? then left.None? && right.None? else left.value.Equals(right)
  }

  predicate FacilityNameOpNotEquals(left: Option<StorageFacilityName>, right: Option<StorageFacilityName>)
    ensures FacilityNameOpNotEquals(left, right) <==> left != right
  {
    !FacilityNameOpEquals(left, right)
  }

  /** Validating an accepted name again changes nothing. */
  lemma FacilityNameOfIsIdempotent(value: Option<NetString>)
    requires StorageFacilityName.Of(value).Success?
    ensures StorageFacilityName.Of(Some(StorageFacilityName.Of(value).value.value)) == StorageFacilityName.Of(value)
  {
    TrimNonBlank(value.value);
  }

  /** White space around a name changes neither whether it is accepted
      nor what is stored. */
  lemma FacilityNameIgnoresPadding(p: NetString, s: NetString, q: NetString)
    requires IsBlank(p) && IsBlank(q)
    ensures StorageFacilityName.Of(Some(p + s + q)) == StorageFacilityName.Of(Some(s))
  {
    TrimIgnoresPadding(p, s, q);
  }

  /** The length limit applies after trimming: a name of exactly 100
      characters is accepted even when padded to 102. */
  lemma PaddedNameAccepted(core: TrimmedText)
    requires |core| == MAX_NAME_LENGTH
    ensures |[0x20] + core + [0x20]| == MAX_NAME_LENGTH + 2
    ensures StorageFacilityName.Of(Some([0x20] + core + [0x20])) == Success(StorageFacilityName(core))
  {
    FacilityNameIgnoresPadding([0x20], core, [0x20]);
  }

  // ---------------------------------------------------------- SectionCode

  /** `SectionCode`: trimmed and non-empty, compared ordinally. */
  datatype SectionCode = SectionCode(value: TrimmedText) {
    static function Of(value: Option<NetString>): (r: Result<SectionCode, OrgError>)
      ensures r.Success? <==> !IsNullOrWhiteSpace(value)
      ensures r.Success? ==> r.value.value == Trim(value.value)
      ensures r.Failure? ==> r.error == SectionCodeEmpty
    {
      if IsNullOrWhiteSpace(value) then Failure(SectionCodeEmpty)
      else Success(SectionCode(Trim(value.value)))
    }

    predicate Equals(other: Option<SectionCode>)
      ensures Equals(other) <==> other == Some(this)
    {
      other.Some? && value == other.value.value
    }
  }

  predicate SectionCodeOpEquals(left: Option<SectionCode>, right: Option<SectionCode>)
    ensures SectionCodeOpEquals(left, right) <==> left == right
  {
    if left.None? || right.None? then left.None? && right.None? else left.value.Equals(right)
  }

  predicate SectionCodeOpNotEquals(left: Option<SectionCode>, right: Option<SectionCode>)
    ensures SectionCodeOpNotEquals(left, right) <==> left != right
  {
    !SectionCodeOpEquals(left, right)
  }

  lemma SectionCodeOfIsIdempotent(value: Option<NetString>)
    requires SectionCode.Of(value).Success?
    ensures SectionCode.Of(Some(SectionCode.Of(value).value.value)) == SectionCode.Of(value)
  {
    TrimNonBlank(value.value);
  }

  /** Inputs that differ only in surrounding white space give the same
      code. */
  lemma SectionCodeIgnoresPadding(p: NetString, s: NetString, q: NetString)
    requires IsBlank(p) && IsBlank(q)
    ensures SectionCode.Of(Some(p + s + q)) == SectionCode.Of(Some(s))
  {
    TrimIgnoresPadding(p, s, q);
  }

  // ------------------------------------------------------ floor numbers

  type NonNegativeInt32 = x: int | 0 <= x <= INT32_MAX
  type PositiveInt32 = x: int | 0 < x <= INT32_MAX witness 1

  /** `FloorNumber`: a floor, 0 being the ground floor. */
  datatype FloorNumber = FloorNumber(value: NonNegativeInt32) {
    static function Of(value: Int32): (r: Result<FloorNumber, OrgError>)
      ensures r.Success? <==> value >= 0
      ensures r.Success? ==> r.value.value == value
      ensures r.Failure? ==> r.error == NegativeFloorNumber
    {
      if value < 0 then Failure(NegativeFloorNumber) else Success(FloorNumber(value))
    }

    predicate Equals(other: Option<FloorNumber>)
      ensures Equals(other) <==> other == Some(this)
    {
      other.Some? && value == other.value.value
    }

    /** `CompareTo(FloorNumber?)`: 1 against null, else `int.CompareTo`. */
    function CompareTo(other: Option<FloorNumber>): (c: int)
      ensures c in {-1, 0, 1}
      ensures other.None? ==> c == 1
      ensures other.Some? ==> (c < 0 <==> value < other.value.value) && (c == 0 <==> other == Some(this))
    {
      if other.None? then 1 else CompareInts(value, other.value.value)
    }

    predicate Less(other: FloorNumber)
      ensures Less(other) <==> CompareTo(Some(other)) < 0
    {
      value < other.value
    }

    predicate Greater(other: FloorNumber)
      ensures Greater(other) <==> CompareTo(Some(other)) > 0
    {
      value > other.value
    }

    predicate AtMost(other: FloorNumber)
      ensures AtMost(other) <==> CompareTo(Some(other)) <= 0
    {
      value <= other.value
    }

    predicate AtLeast(other: FloorNumber)
      ensures AtLeast(other) <==> CompareTo(Some(other)) >= 0
    {
      value >= other.value
    }
  }

  /** `FloorCount`: the number of floors of a building, at least one. */
  datatype FloorCount = FloorCount(value: PositiveInt32) {
    static function Of(value: Int32): (r: Result<FloorCount, OrgError>)
      ensures r.Success? <==> value > 0
      ensures r.Success? ==> r.value.value == value
      ensures r.Failure? ==> r.error == NonPositiveFloorCount
    {
      if value <= 0 then Failure(NonPositiveFloorCount) else Success(FloorCount(value))
    }

    predicate Equals(other: Option<FloorCount>)
      ensures Equals(other) <==> other == Some(this)
    {
      other.Some? && value == other.value.value
    }

    function CompareTo(other: Option<FloorCount>): (c: int)
      ensures c in {-1, 0, 1}
      ensures other.None? ==> c == 1
      ensures other.Some? ==> (c < 0 <==> value < other.value.value) && (c == 0 <==> other == Some(this))
    {
      if other.None? then 1 else CompareInts(value, other.value.value)
    }

    predicate Less(other: FloorCount)
      ensures Less(other) <==> CompareTo(Some(other)) < 0
    {
      value < other.value
    }

    predicate Greater(other: FloorCount)
      ensures Greater(other) <==> CompareTo(Some(other)) > 0
    {
      value > other.value
    }

    predicate AtMost(other: FloorCount)
      ensures AtMost(other) <==> CompareTo(Some(other)) <= 0
    {
      value <= other.value
    }

    predicate AtLeast(other: FloorCount)
      ensures AtLeast(other) <==> CompareTo(Some(other)) >= 0
    {
      value >= other.value
    }
  }

  // ----------------------------------------------------------------- Area

  /** `Area`: square metres as a double. Only its guard is modelled. */
  datatype Area = Area(value: Double) {
    /** `Of`: refuses a value for which `value <= 0` holds. Under IEEE
        comparison that lets NaN and +Infinity through. */
    static function Of(value: Double): (r: Result<Area, OrgError>)
      ensures r.Success? <==> !AtMostZero(value)
      ensures r.Success? ==> r.value.value == value
      ensures r.Failure? ==> r.error == NonPositiveArea
    {
      if AtMostZero(value) then Failure(NonPositiveArea) else Success(Area(value))
    }
  }

  /** Every finite accepted area is positive; the guard does not reject
      NaN. */
  lemma AreaGuard(x: real)
    ensures Area.Of(Finite(x)).Success? <==> x > 0.0
    ensures Area.Of(NaN).Success? && Area.Of(PositiveInfinity).Success?
    ensures Area.Of(NegativeInfinity).Failure?
  {
  }
}
