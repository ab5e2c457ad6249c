/** The mock tools the agent may call: a keyword rule standing in for a
    property search, and two lookups in constant tables standing in for a
    maps and a reviews service. The tables are constants, so no tool can
    change them. */
module PropertyTools {

  datatype Listing = Listing(
    address: string, price: int, beds: int, baths: int, sqft: int,
    description: string, imageUrl: string)

  /** A numeric dictionary value: Python `int` or `float`. */
  datatype Number = Int(i: int) | Float(f: real)

  type Dict = map<string, Number>

  const AspenKey: string := "aspen, co"
  const AspenAddress: string := "12 Lakeview Dr, Aspen, CO 81611"

  const AspenListing: Listing := Listing(
    AspenAddress, 1250000, 2, 2, 1500,
    "Stunning condo with panoramic lake and mountain views, minutes from the slopes.",
    "https://images.unsplash.com/photo-1580587771525-78b9dba3b914?q=80&w=1974&auto=format&fit=crop")

  const PropertiesDb: map<string, seq<Listing>> := map[AspenKey := [AspenListing]]
  const MapsDb: map<string, Dict> :=
    map[AspenAddress := map["commute_time_mins" := Int(25), "nearby_parks" := Int(3)]]
  const YelpDb: map<string, Dict> :=
    map[AspenAddress := map["nearby_cafes" := Int(5), "rating" := Float(4.5)]]

  /** `dict.get(key, default)`. */
  function Get<K, V>(m: map<K, V>, key: K, default: V): V
  {
    if key in m then m[key] else default
  }

  // ---------------------------------------------------------------------
  // str.lower and the `in` substring test
  // ---------------------------------------------------------------------

  /** Lower-casing of one character, for the characters whose lower case is
      one of the ASCII letters the keywords use: A-Z and KELVIN SIGN. */
  function LowerChar(c: char): char
  {
    if 'A' <= c <= 'Z' then (c as int + 32) as char
    else if c == '\U{212A}' then 'k'
    else c
  }

  function Lower(s: string): string
  {
    seq(|s|, i requires 0 <= i < |s| => LowerChar(s[i]))
  }

  predicate OccursAt(s: string, sub: string, i: int)
  {
    0 <= i <= |s| - |sub| && s[i..i + |sub|] == sub
  }

  /** `sub in s` for strings. */
  predicate Contains(s: string, sub: string)
  {
    exists i | 0 <= i <= |s| :: OccursAt(s, sub, i)
  }

  predicate MatchesKeywords(query: string)
  {
    Contains(Lower(query), "lake") && Contains(Lower(query), "mountain")
  }

  // ---------------------------------------------------------------------
  // The tools
  // ---------------------------------------------------------------------

  /** `property_search`: the Aspen listing exactly when the lower-cased query
      mentions both "lake" and "mountain", no listing otherwise. */
  function PropertySearch(query: string): (r: seq<Listing>)
    ensures r != [] <==> MatchesKeywords(query)
    ensures r != [] ==> r == [AspenListing]
  {
    if MatchesKeywords(query) then Get(PropertiesDb, AspenKey, []) else []
  }

  /** `maps_service`: the table's entry for a known address, `{}` for any
      other; the only known address is the Aspen listing's. */
  function MapsService(address: string): (r: Dict)
    ensures r != map[] <==> address == AspenAddress
    ensures r != map[] ==> r == MapsDb[address]
  {
    assert "commute_time_mins" in MapsDb[AspenAddress];
    Get(MapsDb, address, map[])
  }

  /** `yelp_service`: the table's entry for a known address, `{}` for any
      other; the only known address is the Aspen listing's. */
  function YelpService(address: string): (r: Dict)
    ensures r != map[] <==> address == AspenAddress
    ensures r != map[] ==> r == YelpDb[address]
  {
    assert "rating" in YelpDb[AspenAddress];
    Get(YelpDb, address, map[])
  }

  // ---------------------------------------------------------------------
  // Properties
  // ---------------------------------------------------------------------

  lemma LowerIdempotent(s: string)
    ensures Lower(Lower(s)) == Lower(s)
  {
  }

  /** The keyword rule does not see case: a query and its lower-cased form
      find the same listings. */
  lemma SearchIgnoresCase(query: string)
    ensures PropertySearch(Lower(query)) == PropertySearch(query)
  {
    LowerIdempotent(query);
  }

  lemma LowerConcat(a: string, b: string)
    ensures Lower(a + b) == Lower(a) + Lower(b)
  {
  }

  lemma ContainsInConcat(a: string, b: string, sub: string)
    requires Contains(a, sub) || Contains(b, sub)
    ensures Contains(a + b, sub)
  {
    if Contains(a, sub) {
      var i :| 0 <= i <= |a| && OccursAt(a, sub, i);
      assert OccursAt(a + b, sub, i) by {
        assert (a + b)[i..i + |sub|] == a[i..i + |sub|];
      }
    } else {
      var i :| 0 <= i <= |b| && OccursAt(b, sub, i);
      assert OccursAt(a + b, sub, |a| + i) by {
        assert (a + b)[|a| + i..|a| + i + |sub|] == b[i..i + |sub|];
      }
    }
  }

  /** Either keyword may come first: a text mentioning "lake" and one
      mentioning "mountain", joined in either order, find the listing. */
  lemma KeywordOrderIrrelevant(lakeText: string, mountainText: string)
    requires Contains(Lower(lakeText), "lake")
    requires Contains(Lower(mountainText), "mountain")
    ensures PropertySearch(lakeText + mountainText) == [AspenListing]
    ensures PropertySearch(mountainText + lakeText) == [AspenListing]
  {
    LowerConcat(lakeText, mountainText);
    LowerConcat(mountainText, lakeText);
    ContainsInConcat(Lower(lakeText), Lower(mountainText), "lake");
    ContainsInConcat(Lower(lakeText), Lower(mountainText), "mountain");
    ContainsInConcat(Lower(mountainText), Lower(lakeText), "lake");
    ContainsInConcat(Lower(mountainText), Lower(lakeText), "mountain");
  }

  /** Every listing the search returns has entries in both neighbourhood
      tables, so the agent's follow-up lookups on its address never come
      back empty. */
  lemma FoundListingsHaveNeighbourhoodData(query: string)
    ensures forall l :: l in PropertySearch(query) ==>
      MapsService(l.address) != map[] && YelpService(l.address) != map[]
  {
  }

  /** A query in capitals still finds the listing. */
  lemma ExampleUpperCaseQuery()
    ensures PropertySearch("LAKE AND MOUNTAIN VIEWS") == [AspenListing]
  {
    var q := Lower("LAKE AND MOUNTAIN VIEWS");
    assert q == "lake and mountain views";
    assert OccursAt(q, "lake", 0);
    assert OccursAt(q, "mountain", 9);
  }
}
