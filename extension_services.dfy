/**
 * The extension services screen (app/extension-services.tsx): the list of
 * agricultural extension offices, narrowed by a province chip.
 */
module ExtensionServices {
  import opened Lists

  datatype ExtensionOffice = ExtensionOffice(id: string, name: string, province: string, phone: string)

  /** The chip that shows every office. */
  const AllProvinces := "All"

  /** `filteredServices`. */
  function FilteredServices(services: seq<ExtensionOffice>, selectedProvince: string): (r: seq<ExtensionOffice>)
    ensures |r| <= |services|
    ensures selectedProvince == AllProvinces ==> r == services
    ensures selectedProvince != AllProvinces ==> forall k :: 0 <= k < |r| ==> r[k].province == selectedProvince
  {
    if selectedProvince == AllProvinces then services
    else
      var inProvince := (s: ExtensionOffice) => s.province == selectedProvince;
      FilterSatisfies(services, inProvince);
      Filter(services, inProvince)
  }

  /** A province keeps exactly its own offices, in the original order. */
  lemma ProvinceMembership(services: seq<ExtensionOffice>, selectedProvince: string, office: ExtensionOffice)
    requires selectedProvince != AllProvinces
    ensures office in FilteredServices(services, selectedProvince) <==>
            office in services && office.province == selectedProvince
    ensures IsSubsequence(FilteredServices(services, selectedProvince), services)
  {
    FilterMembership(services, (s: ExtensionOffice) => s.province == selectedProvince, office);
    FilterIsSubsequence(services, (s: ExtensionOffice) => s.province == selectedProvince);
  }

  /** The "Available Services (n)" figure counts the offices of the province. */
  lemma CountIsOfficesInProvince(services: seq<ExtensionOffice>, selectedProvince: string)
    requires selectedProvince != AllProvinces
    ensures |FilteredServices(services, selectedProvince)| ==
            |set i | 0 <= i < |services| && services[i].province == selectedProvince|
  {
    var p := (s: ExtensionOffice) => s.province == selectedProvince;
    FilterLengthCountsPositions(services, p);
    assert IndicesWhere(services, p) == set i | 0 <= i < |services| && services[i].province == selectedProvince;
  }

  /** A province without an office shows an empty list. */
  lemma ProvinceWithoutOffice(services: seq<ExtensionOffice>, selectedProvince: string)
    requires selectedProvince != AllProvinces
    requires forall k :: 0 <= k < |services| ==> services[k].province != selectedProvince
    ensures FilteredServices(services, selectedProvince) == []
  {
    FilterKeepsNone(services, (s: ExtensionOffice) => s.province == selectedProvince);
  }

  const Provinces: seq<string> := [
    "Harare", "Bulawayo", "Manicaland", "Mashonaland Central", "Mashonaland East",
    "Mashonaland West", "Masvingo", "Matabeleland North", "Matabeleland South", "Midlands"
  ]

  const Offices: seq<ExtensionOffice> := [
    ExtensionOffice("1", "Harare Agricultural Extension Office", "Harare", "+263 4 123 4567"),
    ExtensionOffice("2", "Mashonaland Central Extension Office", "Mashonaland Central", "+263 71 234 5678"),
    ExtensionOffice("3", "Bulawayo Agricultural Services", "Bulawayo", "+263 9 345 6789"),
    ExtensionOffice("4", "Manicaland Extension Services", "Manicaland", "+263 20 456 7890")
  ]

  /** On the sample data Masvingo, a listed province, has no office. */
  lemma MasvingoHasNoOffice()
    ensures "Masvingo" in Provinces
    ensures FilteredServices(Offices, "Masvingo") == []
  {
    assert Provinces[6] == "Masvingo";
    forall k | 0 <= k < |Offices|
      ensures Offices[k].province != "Masvingo"
    {
    }
    ProvinceWithoutOffice(Offices, "Masvingo");
  }
}
