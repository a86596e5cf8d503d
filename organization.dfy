/** The Organization aggregates: a `StorageSection` whose area can be
    changed in place, a `StorageFacility` that owns a growing list of
    sections with distinct codes, and the immutable `Building`.
    `Guid.NewGuid()` inside `AddSection` becomes the parameter `newGuid`. */
module Organization {
  import opened Wrappers
  import opened DotNet
  import opened OrganizationValues

  // ------------------------------------------------------- StorageSection

  /** The stored form of a section. */
  datatype SectionRecord = SectionRecord(id: SectionId, code: SectionCode, area: Area)

  class StorageSection {
    const Id: SectionId
    const Code: SectionCode
    var Area: Area

    /** `Create`: stores exactly the given id, code and area. */
    constructor Create(id: SectionId, code: SectionCode, area: Area)
      ensures Id == id && Code == code && Area == area
    {
      Id := id;
      Code := code;
      Area := area;
    }

    function Record(): (s: SectionRecord)
      reads this
      ensures s.id == Id && s.code == Code && s.area == Area
    {
      SectionRecord(Id, Code, Area)
    }

    /** `Resize`: the area becomes `newArea`; id and code are constants. */
    method Resize(newArea: Area)
      modifies this
      ensures Area == newArea
    {
      Area := newArea;
    }
  }

  /** Resizing twice to the same area is the same as resizing once, and
      the section keeps its identity. */
  method ResizeTwice(s: StorageSection, a: Area)
    modifies s
    ensures s.Record() == old(s.Record()).(area := a)
  {
    s.Resize(a);
    s.Resize(a);
  }

  // ------------------------------------------------- sections as values

  /** No two sections share a code. */
  predicate DistinctCodes(ss: seq<SectionRecord>) {
    forall i, j :: 0 <= i < j < |ss| ==> ss[i].code != ss[j].code
  }

  /** `_sections.Any(s => s.Code == code)`. */
  predicate HasCode(ss: seq<SectionRecord>, code: SectionCode) {
    exists i :: 0 <= i < |ss| && ss[i].code == code
  }

  /** The state of a facility. */
  datatype FacilityRecord = FacilityRecord(
    id: StorageFacilityId,
    name: StorageFacilityName,
    building: BuildingId,
    floor: FloorNumber,
    sections: seq<SectionRecord>)

  /** `StorageFacility.Create`: the four value objects are built in
      argument order, so the first invalid argument decides the error; a
      new facility has no sections. */
  function CreateFacilitySpec(id: Guid, name: Option<NetString>, buildingId: Guid, floor: Int32): (r: Result<FacilityRecord, OrgError>)
    ensures r.Success? <==> id != EMPTY_GUID && StorageFacilityName.Of(name).Success? && buildingId != EMPTY_GUID && floor >= 0
    ensures r.Success? ==> && r.value.id.value == id
                           && r.value.name == StorageFacilityName.Of(name).value
                           && r.value.building.value == buildingId
                           && r.value.floor.value == floor
                           && r.value.sections == []
    ensures id == EMPTY_GUID ==> r == Failure(EmptyStorageFacilityId)
    ensures id != EMPTY_GUID && StorageFacilityName.Of(name).Failure? ==> r == Failure(StorageFacilityName.Of(name).error)
    ensures (id != EMPTY_GUID && StorageFacilityName.Of(name).Success? && buildingId == EMPTY_GUID) ==> r == Failure(EmptyBuildingId)
    ensures (r.Failure? && id != EMPTY_GUID && StorageFacilityName.Of(name).Success? && buildingId != EMPTY_GUID)
            ==> r.error == NegativeFloorNumber
  {
    var facilityId :- StorageFacilityId.Of(id);
    var facilityName :- StorageFacilityName.Of(name);
    var building :- BuildingId.Of(buildingId);
    var floorNumber :- FloorNumber.Of(floor);
    Success(FacilityRecord(facilityId, facilityName, building, floorNumber, []))
  }

  /** `StorageSection.Create(SectionId.Of(Guid.NewGuid()), code,
      Area.Of(area))`: the id is built before the area, so an empty GUID
      is reported first. */
  function NewSection(code: SectionCode, area: Double, newGuid: Guid): (r: Result<SectionRecord, OrgError>)
    ensures r.Success? <==> newGuid != EMPTY_GUID && !AtMostZero(area)
    ensures r.Success? ==> r.value.id.value == newGuid && r.value.code == code && r.value.area.value == area
    ensures r.Failure? ==> r.error == (if newGuid == EMPTY_GUID then EmptySectionId else NonPositiveArea)
  {
    var id :- SectionId.Of(newGuid);
    var sectionArea :- Area.Of(area);
    Success(SectionRecord(id, code, sectionArea))
  }

  /** `AddSection`: the code is validated first, then compared with the
      codes present, then the new section's id and area are built; only
      on success is the section appended, and nothing else changes. */
  function AddSectionSpec(f: FacilityRecord, sectionCode: Option<NetString>, area: Double, newGuid: Guid): (r: Result<FacilityRecord, OrgError>)
    ensures r.Success? <==> && SectionCode.Of(sectionCode).Success?
                            && !HasCode(f.sections, SectionCode.Of(sectionCode).value)
                            && newGuid != EMPTY_GUID
                            && !AtMostZero(area)
    ensures r.Success? ==> && r.value.(sections := f.sections) == f
                           && |r.value.sections| == |f.sections| + 1
                           && r.value.sections[..|f.sections|] == f.sections
                           && r.value.sections[|f.sections|].id.value == newGuid
                           && r.value.sections[|f.sections|].code.value == Trim(sectionCode.value)
                           && r.value.sections[|f.sections|].area.value == area
    ensures IsNullOrWhiteSpace(sectionCode) ==> r == Failure(SectionCodeEmpty)
    ensures !IsNullOrWhiteSpace(sectionCode) && HasCode(f.sections, SectionCode.Of(sectionCode).value)
            ==> r == Failure(DuplicateSection(sectionCode.value))
    ensures (r.Failure? && !IsNullOrWhiteSpace(sectionCode) && !HasCode(f.sections, SectionCode.Of(sectionCode).value))
            ==> r.error == (if newGuid == EMPTY_GUID then EmptySectionId else NonPositiveArea)
  {
    var code :- SectionCode.Of(sectionCode);
    if HasCode(f.sections, code) then
      Failure(DuplicateSection(sectionCode.value))
    else
      var section :- NewSection(code, area, newGuid);
      assert (f.sections + [section])[..|f.sections|] == f.sections;
      Success(f.(sections := f.sections + [section]))
  }

  /** Adding a section keeps the codes distinct. */
  lemma AddSectionKeepsCodesDistinct(f: FacilityRecord, sectionCode: Option<NetString>, area: Double, newGuid: Guid)
    requires DistinctCodes(f.sections)
    ensures AddSectionSpec(f, sectionCode, area, newGuid).Success? ==>
              DistinctCodes(AddSectionSpec(f, sectionCode, area, newGuid).value.sections)
  {
    var r := AddSectionSpec(f, sectionCode, area, newGuid);
    if r.Success? {
      var ss := r.value.sections;
      var n := |f.sections|;
      forall i, j | 0 <= i < j < |ss|
        ensures ss[i].code != ss[j].code
      {
        assert ss[i] == f.sections[i];
        if j < n {
          assert ss[j] == f.sections[j];
        } else {
          assert !HasCode(f.sections, ss[n].code);
        }
      }
    }
  }

  /** Two codes that trim to the same text cannot both be added: after
      the first succeeds, the second is refused as a duplicate, whatever
      its area or new id. */
  lemma SameCodeTwiceRejected(f: FacilityRecord, first: NetString, second: NetString,
                              area1: Double, area2: Double, guid1: Guid, guid2: Guid)
    requires AddSectionSpec(f, Some(first), area1, guid1).Success?
    requires !IsBlank(second) && Trim(second) == Trim(first)
    ensures AddSectionSpec(AddSectionSpec(f, Some(first), area1, guid1).value, Some(second), area2, guid2)
            == Failure(DuplicateSection(second))
  {
    var g := AddSectionSpec(f, Some(first), area1, guid1).value;
    assert g.sections[|f.sections|].code == SectionCode.Of(Some(second)).value;
  }

  /** A refused section leaves the facility as it was, and the error is
      the first failed check. */
  lemma AddSectionRefusalIsFirstFailedCheck(f: FacilityRecord, sectionCode: Option<NetString>, area: Double, newGuid: Guid)
    requires AddSectionSpec(f, sectionCode, area, newGuid).Failure?
    ensures AddSectionSpec(f, sectionCode, area, newGuid).error in
              {SectionCodeEmpty, EmptySectionId, NonPositiveArea} + (if sectionCode.Some? then {DuplicateSection(sectionCode.value)} else {})
    ensures AddSectionSpec(f, sectionCode, area, newGuid).error == EmptySectionId ==> newGuid == EMPTY_GUID
    ensures AddSectionSpec(f, sectionCode, area, newGuid).error == NonPositiveArea ==> newGuid != EMPTY_GUID && AtMostZero(area)
  {
  }

  // ------------------------------------------------------ StorageFacility

  /** The records of a sequence of section objects, position by position. */
  function SectionRecords(ss: seq<StorageSection>): (rs: seq<SectionRecord>)
    reads ss
    ensures |rs| == |ss|
    ensures forall i :: 0 <= i < |ss| ==> rs[i] == ss[i].Record()
  {
    seq(|ss|, i requires 0 <= i < |ss| reads ss => ss[i].Record())
  }

  /** The records of a list with one more object are the old records
      followed by that object's record. */
  lemma Appended(ss: seq<StorageSection>, s: StorageSection, rs: seq<SectionRecord>)
    requires rs == SectionRecords(ss)
    ensures SectionRecords(ss + [s]) == rs + [s.Record()]
    ensures (ss + [s])[..|ss|] == ss
  {
  }

  class StorageFacility {
    const Id: StorageFacilityId
    const Name: StorageFacilityName
    const Building: BuildingId
    const Floor: FloorNumber
    var sections: seq<StorageSection>

    /** Section codes are unique (codes are constants of the sections,
        so this reads only the list). */
    ghost predicate Valid()
      reads this
    {
      forall i, j :: 0 <= i < j < |sections| ==> sections[i].Code != sections[j].Code
    }

    function Snapshot(): (f: FacilityRecord)
      reads this, sections
      ensures f.id == Id && f.name == Name && f.building == Building && f.floor == Floor
      ensures f.sections == SectionRecords(sections)
    {
      FacilityRecord(Id, Name, Building, Floor, SectionRecords(sections))
    }

    constructor(id: StorageFacilityId, name: StorageFacilityName, building: BuildingId, floor: FloorNumber)
      ensures Id == id && Name == name && Building == building && Floor == floor
      ensures sections == []
      ensures Valid()
    {
      Id := id;
      Name := name;
      Building := building;
      Floor := floor;
      sections := [];
    }

    /** `Create`, proved against `CreateFacilitySpec`. */
    static method Create(id: Guid, name: Option<NetString>, buildingId: Guid, floor: Int32)
      returns (r: Result<StorageFacility, OrgError>)
      ensures r.Success? <==> CreateFacilitySpec(id, name, buildingId, floor).Success?
      ensures r.Failure? ==> r.error == CreateFacilitySpec(id, name, buildingId, floor).error
      ensures r.Success? ==> && fresh(r.value)
                             && r.value.Valid()
                             && r.value.Snapshot() == CreateFacilitySpec(id, name, buildingId, floor).value
    {
      var facilityId := StorageFacilityId.Of(id);
      if facilityId.Failure? {
        return Failure(facilityId.error);
      }
      var facilityName := StorageFacilityName.Of(name);
      if facilityName.Failure? {
        return Failure(facilityName.error);
      }
      var building := BuildingId.Of(buildingId);
      if building.Failure? {
        return Failure(building.error);
      }
      var floorNumber := FloorNumber.Of(floor);
      if floorNumber.Failure? {
        return Failure(floorNumber.error);
      }
      var facility := new StorageFacility(facilityId.value, facilityName.value, building.value, floorNumber.value);
      r := Success(facility);
    }

    /** `_sections.Any(s => s.Code == code)`, one section at a time. */
    method ContainsCode(code: SectionCode) returns (found: bool)
      ensures found <==> HasCode(SectionRecords(sections), code)
    {
      var i := 0;
      while i < |sections|
        invariant 0 <= i <= |sections|
        invariant forall j :: 0 <= j < i ==> sections[j].Code != code
      {
        assert SectionRecords(sections)[i] == sections[i].Record();
        if sections[i].Code == code {
          return true;
        }
        i := i + 1;
      }
      return false;
    }

    /** Appends a section whose code is not yet present. */
    method Append(section: StorageSection)
      requires Valid()
      requires !HasCode(Snapshot().sections, section.Code)
      modifies this
      ensures Valid()
      ensures sections == old(sections) + [section]
      ensures Snapshot() == old(Snapshot()).(sections := old(Snapshot()).sections + [section.Record()])
    {
      ghost var before := Snapshot();
      ghost var oldSections := sections;
      sections := sections + [section];
      Appended(oldSections, section, before.sections);
      forall i | 0 <= i < |oldSections|
        ensures sections[i].Code != section.Code
      {
        assert before.sections[i] == oldSections[i].Record();
      }
    }

    /** The last steps of `AddSection`, once the code is known to be new:
        build the section as `NewSection` does and append it. */
    method AddNewSection(code: SectionCode, area: Double, newGuid: Guid) returns (r: Outcome<OrgError>)
      requires Valid() && !HasCode(Snapshot().sections, code)
      modifies this
      ensures Valid()
      ensures var n := NewSection(code, area, newGuid);
              && r == n.ToOutcome()
              && Snapshot() == if n.Success? then old(Snapshot()).(sections := old(Snapshot()).sections + [n.value]) else old(Snapshot())
      ensures r.Pass? ==> && |sections| > 0
                          && sections == old(sections) + [sections[|sections| - 1]]
                          && fresh(sections[|sections| - 1])
      ensures r.Fail? ==> sections == old(sections)
    {
      var id := SectionId.Of(newGuid);
      if id.Failure? {
        return Fail(id.error);
      }
      var sectionArea := Area.Of(area);
      if sectionArea.Failure? {
        return Fail(sectionArea.error);
      }
      var section := new StorageSection.Create(id.value, code, sectionArea.value);
      Append(section);
      r := Pass;
    }

    /** `AddSection`, proved against `AddSectionSpec`: on success a fresh
        section is appended and the existing section objects stay in
        place; on failure nothing changes. */
    method AddSection(sectionCode: Option<NetString>, area: Double, newGuid: Guid) returns (r: Outcome<OrgError>)
      requires Valid()
      modifies this
      ensures Valid()
      ensures var h := AddSectionSpec(old(Snapshot()), sectionCode, area, newGuid);
              && r == h.ToOutcome()
              && Snapshot() == if h.Success? then h.value else old(Snapshot())
      ensures r.Pass? ==> && |sections| > 0
                          && sections == old(sections) + [sections[|sections| - 1]]
                          && fresh(sections[|sections| - 1])
      ensures r.Fail? ==> sections == old(sections)
    {
      var code := SectionCode.Of(sectionCode);
      if code.Failure? {
        return Fail(code.error);
      }
      var found := ContainsCode(code.value);
      if found {
        return Fail(DuplicateSection(sectionCode.value));
      }
      r := AddNewSection(code.value, area, newGuid);
    }
  }

  // ------------------------------------------------------------- Building

  /** `Building`: never changed after creation. */
  datatype Building = Building(id: BuildingId, address: Address, totalFloors: FloorCount)

  /** `Building.Create`: id, then address, then floor count, each check
      in argument order. */
  function CreateBuilding(id: Guid, country: Option<NetString>, region: Option<NetString>, city: Option<NetString>,
                          street: Option<NetString>, buildingNumber: Option<NetString>, totalFloors: Int32): (r: Result<Building, OrgError>)
    ensures r.Success? <==> && id != EMPTY_GUID
                            && Address.Of(country, region, city, street, buildingNumber).Success?
                            && totalFloors > 0
    ensures r.Success? ==> && r.value.id.value == id
                           && r.value.address == Address.Of(country, region, city, street, buildingNumber).value
                           && r.value.totalFloors.value == totalFloors
    ensures id == EMPTY_GUID ==> r == Failure(EmptyBuildingId)
    ensures id != EMPTY_GUID && Address.Of(country, region, city, street, buildingNumber).Failure?
            ==> r == Failure(Address.Of(country, region, city, street, buildingNumber).error)
    ensures (r.Failure? && id != EMPTY_GUID && Address.Of(country, region, city, street, buildingNumber).Success?)
            ==> r.error == NonPositiveFloorCount
  {
    var buildingId :- BuildingId.Of(id);
    var address :- Address.Of(country, region, city, street, buildingNumber);
    var floors :- FloorCount.Of(totalFloors);
    Success(Building(buildingId, address, floors))
  }
}
