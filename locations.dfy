/** The province and city tables used by the address form, and the lookup of a province's
    cities. */
module Locations {
  import opened Seqs
  import opened Types
  import opened Text

  const MockProvinces: seq<Province> := [
    Province("1", "آذربایجان شرقی", true),
    Province("2", "آذربایجان غربی", true),
    Province("3", "اصفهان", true),
    Province("4", "البرز", true),
    Province("5", "ایلام", true),
    Province("6", "خراسان رضوی", true),
    Province("7", "خوزستان", true),
    Province("8", "تهران", true),
    Province("9", "فارس", true),
    Province("10", "گیلان", true),
    Province("11", "مازندران", true),
    Province("12", "یزد", true)
  ]

  const MockCities: seq<City> := [
    City("301", "تهران", "8", true),
    City("302", "شمیرانات", "8", true),
    City("303", "ری", "8", true),
    City("304", "ورامین", "8", true),
    City("305", "پردیس", "8", true),
    City("101", "اصفهان", "3", true),
    City("102", "کاشان", "3", true),
    City("103", "نجف‌آباد", "3", true),
    City("104", "خمینی‌شهر", "3", true),
    City("201", "مشهد", "6", true),
    City("202", "نیشابور", "6", true),
    City("203", "سبزوار", "6", true),
    City("401", "شیراز", "9", true),
    City("402", "مرودشت", "9", true),
    City("403", "کازرون", "9", true),
    City("501", "تبریز", "1", true),
    City("502", "مراغه", "1", true),
    City("601", "کرج", "4", true),
    City("602", "محمدشهر", "4", true),
    City("701", "اهواز", "7", true),
    City("702", "آبادان", "7", true),
    City("801", "رشت", "10", true),
    City("802", "بندر انزلی", "10", true),
    City("901", "ساری", "11", true),
    City("902", "بابل", "11", true),
    City("903", "آمل", "11", true),
    City("1001", "یزد", "12", true),
    City("1002", "میبد", "12", true)
  ]

  /** The test of `getCitiesByProvince`: `city.provinceId === provinceId && city.isActive`. */
  function InProvince(provinceId: string): City -> bool {
    (city: City) => city.provinceId == provinceId && city.isActive
  }

  /** `getCitiesByProvince` over a city table. */
  function CitiesByProvinceIn(cities: seq<City>, provinceId: string): (r: seq<City>)
    ensures IsSubsequence(r, cities)
  {
    Filter(InProvince(provinceId), cities)
  }

  /** `getCitiesByProvince(provinceId)` over the city table. */
  function GetCitiesByProvince(provinceId: string): (r: seq<City>)
    ensures IsSubsequence(r, MockCities)
  {
    CitiesByProvinceIn(MockCities, provinceId)
  }

  /** The lookup keeps exactly the active cities of the province: each city it returns is one,
      and every one is returned. */
  lemma CitiesByProvinceMembers(cities: seq<City>, provinceId: string)
    ensures forall i :: 0 <= i < |CitiesByProvinceIn(cities, provinceId)| ==>
              CitiesByProvinceIn(cities, provinceId)[i] in cities &&
              CitiesByProvinceIn(cities, provinceId)[i].provinceId == provinceId &&
              CitiesByProvinceIn(cities, provinceId)[i].isActive
    ensures forall i :: 0 <= i < |cities| && cities[i].provinceId == provinceId && cities[i].isActive ==>
              cities[i] in CitiesByProvinceIn(cities, provinceId)
  {
    FilterMembership(InProvince(provinceId), cities);
  }

  /** A province id that no city names yields no cities. */
  lemma NoCitiesForUnknownIn(cities: seq<City>, provinceId: string)
    requires forall i :: 0 <= i < |cities| ==> cities[i].provinceId != provinceId
    ensures CitiesByProvinceIn(cities, provinceId) == []
  {
  }

  /** The test that ignores `isActive`. */
  function NamesProvince(provinceId: string): City -> bool {
    (city: City) => city.provinceId == provinceId
  }

  /** When every city is active, the activity test changes nothing: the lookup returns all the
      cities that name the province. */
  lemma {:induction false} AllActiveLookup(cities: seq<City>, provinceId: string)
    requires forall i :: 0 <= i < |cities| ==> cities[i].isActive
    ensures CitiesByProvinceIn(cities, provinceId) == Filter(NamesProvince(provinceId), cities)
  {
    if cities != [] {
      AllActiveLookup(cities[1..], provinceId);
    }
  }

  /** For each city, the position of its province in the province table. */
  const CityProvinceIndex: seq<int> :=
    [7, 7, 7, 7, 7, 2, 2, 2, 2, 5, 5, 5, 8, 8, 8, 0, 0, 3, 3, 6, 6, 9, 9, 10, 10, 10, 11, 11]

  /** Every city names a province of the table: the one at its entry of `CityProvinceIndex`. */
  lemma CitiesReferToProvinces()
    ensures |CityProvinceIndex| == |MockCities|
    ensures forall i :: 0 <= i < |MockCities| ==>
              0 <= CityProvinceIndex[i] < |MockProvinces| &&
              MockProvinces[CityProvinceIndex[i]].id == MockCities[i].provinceId
  {
    forall i | 0 <= i < |MockCities|
      ensures 0 <= CityProvinceIndex[i] < |MockProvinces| &&
              MockProvinces[CityProvinceIndex[i]].id == MockCities[i].provinceId
    {
      if i < 9 {
      } else if i < 19 {
      } else {
      }
    }
  }

  /** Every city of the table is active. */
  lemma AllCitiesActive()
    ensures forall i :: 0 <= i < |MockCities| ==> MockCities[i].isActive
  {
  }

  /** Since every city is active, a province's cities are all the cities that name it. */
  lemma GetCitiesIgnoresActivity(provinceId: string)
    ensures GetCitiesByProvince(provinceId) == Filter(NamesProvince(provinceId), MockCities)
  {
    AllCitiesActive();
    AllActiveLookup(MockCities, provinceId);
  }

  /** An id that is not in the province table yields no cities. */
  lemma UnknownProvinceHasNoCities(provinceId: string)
    requires forall k :: 0 <= k < |MockProvinces| ==> MockProvinces[k].id != provinceId
    ensures GetCitiesByProvince(provinceId) == []
  {
    CitiesReferToProvinces();
  }

  /** A number read off an id: its length, its first digit and its last digit. Ids with
      different keys are different strings. */
  function IdKey(id: string): int
    requires 1 <= |id|
  {
    100 * |id| + 10 * (id[0] as int - '0' as int) + (id[|id| - 1] as int - '0' as int)
  }

  const ProvinceKeys: seq<int> := [111, 122, 133, 144, 155, 166, 177, 188, 199, 210, 211, 212]

  const CityKeys: seq<int> :=
    [331, 332, 333, 334, 335, 311, 312, 313, 314, 321, 322, 323, 341, 342, 343, 351, 352, 361, 362,
     371, 372, 381, 382, 391, 392, 393, 411, 412]

  /** No two provinces share an id. */
  lemma ProvinceIdsUnique()
    ensures forall i, j :: 0 <= i < j < |MockProvinces| ==> MockProvinces[i].id != MockProvinces[j].id
  {
    forall i | 0 <= i < |MockProvinces|
      ensures 1 <= |MockProvinces[i].id| && IdKey(MockProvinces[i].id) == ProvinceKeys[i]
    {
    }
    assert forall i, j :: 0 <= i < j < |ProvinceKeys| ==> ProvinceKeys[i] < ProvinceKeys[j];
  }

  /** The key of each city's id is its entry of `CityKeys`. */
  lemma CityKeysOfIds()
    ensures |CityKeys| == |MockCities|
    ensures forall i :: 0 <= i < |MockCities| ==>
              1 <= |MockCities[i].id| && IdKey(MockCities[i].id) == CityKeys[i]
  {
    forall i | 0 <= i < |MockCities|
      ensures 1 <= |MockCities[i].id| && IdKey(MockCities[i].id) == CityKeys[i]
    {
      if i < 9 {} else if i < 19 {} else {}
    }
  }

  /** The city keys are pairwise different. */
  lemma CityKeysDistinct()
    ensures forall i, j :: 0 <= i < j < |CityKeys| ==> CityKeys[i] != CityKeys[j]
  {
  }

  /** No two cities share an id. */
  lemma CityIdsUnique()
    ensures forall i, j :: 0 <= i < j < |MockCities| ==> MockCities[i].id != MockCities[j].id
  {
    CityKeysOfIds();
    CityKeysDistinct();
  }
}
