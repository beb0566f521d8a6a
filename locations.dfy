/** Location parsing and geocoding by the built-in table of Cameroonian
    cities: `toStateCode`, `parseLocationInput` and the table search of
    `getCityCoordinates` (the United States postal-code branch is switched
    off in the code and is not part of this model). */
module Locations {
  import opened Wrappers
  import opened Js
  import opened ShipmentModel

  // ------------------------------------------------------ state codes

  predicate IsUpperLetter(c: char) {
    'A' <= c <= 'Z'
  }

  predicate IsStateCode(s: string) {
    |s| == 2 && IsUpperLetter(s[0]) && IsUpperLetter(s[1])
  }

  /** `US_STATE_NAME_TO_CODE[name]` for the table's own keys (lower-case
      state and territory names and the spellings of the District of
      Columbia), searched by the key's first letter. */
  function StateNameToCode(name: string): (r: Option<string>)
    ensures r.Some? ==> IsStateCode(r.value)
  {
    if name == "" then None
    else if name[0] < 'k' then StatesAToI(name)
    else if name[0] < 'o' then StatesKToN(name)
    else StatesOToW(name)
  }

  // The one `US_STATE_NAME_TO_CODE` table is split by first letter only to
  // keep each match small for the verifier; StateNameToCode joins the parts.

  /** The keys from 'a' to 'i'. */
  function StatesAToI(name: string): (r: Option<string>)
    ensures r.Some? ==> IsStateCode(r.value)
  {
    match name
    case "alabama" => Some("AL")
    case "alaska" => Some("AK")
    case "arizona" => Some("AZ")
    case "arkansas" => Some("AR")
    case "california" => Some("CA")
    case "colorado" => Some("CO")
    case "connecticut" => Some("CT")
    case "delaware" => Some("DE")
    case "florida" => Some("FL")
    case "georgia" => Some("GA")
    case "hawaii" => Some("HI")
    case "idaho" => Some("ID")
    case "illinois" => Some("IL")
    case "indiana" => Some("IN")
    case "iowa" => Some("IA")
    case "district of columbia" => Some("DC")
    case "d.c." => Some("DC")
    case "dc" => Some("DC")
    case "guam" => Some("GU")
    case "american samoa" => Some("AS")
    case _ => None
  }

  /** The keys from 'k' to 'n'. */
  function StatesKToN(name: string): (r: Option<string>)
    ensures r.Some? ==> IsStateCode(r.value)
  {
    match name
    case "kansas" => Some("KS")
    case "kentucky" => Some("KY")
    case "louisiana" => Some("LA")
    case "maine" => Some("ME")
    case "maryland" => Some("MD")
    case "massachusetts" => Some("MA")
    case "michigan" => Some("MI")
    case "minnesota" => Some("MN")
    case "mississippi" => Some("MS")
    case "missouri" => Some("MO")
    case "montana" => Some("MT")
    case "nebraska" => Some("NE")
    case "nevada" => Some("NV")
    case "new hampshire" => Some("NH")
    case "new jersey" => Some("NJ")
    case "new mexico" => Some("NM")
    case "new york" => Some("NY")
    case "north carolina" => Some("NC")
    case "north dakota" => Some("ND")
    case "northern mariana islands" => Some("MP")
    case _ => None
  }

  /** The keys from 'o' to 'w'. */
  function StatesOToW(name: string): (r: Option<string>)
    ensures r.Some? ==> IsStateCode(r.value)
  {
    match name
    case "ohio" => Some("OH")
    case "oklahoma" => Some("OK")
    case "oregon" => Some("OR")
    case "pennsylvania" => Some("PA")
    case "rhode island" => Some("RI")
    case "south carolina" => Some("SC")
    case "south dakota" => Some("SD")
    case "tennessee" => Some("TN")
    case "texas" => Some("TX")
    case "utah" => Some("UT")
    case "vermont" => Some("VT")
    case "virginia" => Some("VA")
    case "washington" => Some("WA")
    case "west virginia" => Some("WV")
    case "wisconsin" => Some("WI")
    case "wyoming" => Some("WY")
    case "washington dc" => Some("DC")
    case "puerto rico" => Some("PR")
    case "u.s. virgin islands" => Some("VI")
    case _ => None
  }

  /** `toStateCode`: a two-letter input is upper-cased, anything else is
      looked up by its lower-cased trimmed form; blank input gives null. */
  function ToStateCode(value: Option<string>): (r: Option<string>)
    ensures r.Some? ==> IsStateCode(r.value)
    ensures !TruthyStr(value) || Trim(value.value) == "" ==> r.None?
  {
    if !TruthyStr(value) then None
    else
      var trimmed := Trim(value.value);
      if trimmed == "" then None
      else if |trimmed| == 2 && IsAsciiLetter(trimmed[0]) && IsAsciiLetter(trimmed[1]) then
        Some(ToUpper(trimmed))
      else
        StateNameToCode(ToLower(trimmed))
  }

  // ------------------------------------------------------ parsing

  /** What callers pass as a location: nothing, a free-text string, or an
      address object whose fields may be missing. */
  datatype LocationInput =
    | Absent
    | Text(text: string)
    | Fields(city: Option<string>, state: Option<string>, country: Option<string>,
             zipCode: Option<string>, postalCode: Option<string>, zip: Option<string>)

  datatype ParsedLocation = ParsedLocation(city: string, state: string, country: string, zipCode: string)

  const EMPTY_LOCATION := ParsedLocation("", "", "", "")

  /** `/^\d{5}(?:-\d{4})?$/`. */
  predicate IsZip(s: string) {
    (|s| == 5 && AllDigits(s)) ||
    (|s| == 10 && AllDigits(s[..5]) && s[5] == '-' && AllDigits(s[6..]))
  }

  predicate AllDigits(s: string) {
    forall k :: 0 <= k < |s| ==> IsDigit(s[k])
  }

  /** A `\b` boundary just before position `i` of `s`, when `s[i]` is a
      word character. */
  predicate BoundaryBefore(s: string, i: int)
    requires 0 <= i <= |s|
  {
    i == 0 || !IsWordChar(s[i - 1])
  }

  /** A `\b` boundary just after position `i - 1` of `s`, when `s[i - 1]`
      is a word character. */
  predicate BoundaryAfter(s: string, i: int)
    requires 0 <= i <= |s|
  {
    i == |s| || !IsWordChar(s[i])
  }

  /** The match of `/\b\d{5}(?:-\d{4})?\b/` starting exactly at `i`, the
      optional extension tried first. */
  function ZipAt(s: string, i: nat): (r: Option<string>)
    requires i <= |s|
    ensures r.Some? ==> IsZip(r.value) && OccursAt(s, r.value, i)
  {
    if i + 5 <= |s| && BoundaryBefore(s, i) && AllDigits(s[i..i + 5]) then
      if i + 10 <= |s| && s[i + 5] == '-' && AllDigits(s[i + 6..i + 10]) && BoundaryAfter(s, i + 10) then
        assert s[i..i + 10][..5] == s[i..i + 5] && s[i..i + 10][6..] == s[i + 6..i + 10];
        Some(s[i..i + 10])
      else if BoundaryAfter(s, i + 5) then Some(s[i..i + 5])
      else None
    else None
  }

  /** Where the leftmost match of the postal-code pattern at or after `i`
      starts. */
  function FirstZipIndex(s: string, i: nat): (r: Option<nat>)
    requires i <= |s|
    ensures r.Some? ==> i <= r.value <= |s| && ZipAt(s, r.value).Some?
    ensures r.Some? ==> forall k :: i <= k < r.value ==> ZipAt(s, k).None?
    ensures r.None? ==> forall k :: i <= k <= |s| ==> ZipAt(s, k).None?
    decreases |s| - i
  {
    if ZipAt(s, i).Some? then Some(i)
    else if i == |s| then None
    else FirstZipIndex(s, i + 1)
  }

  /** `parseLocationInput`. */
  function ParseLocation(location: LocationInput): (r: ParsedLocation)
    ensures location.Absent? ==> r == EMPTY_LOCATION
    ensures location.Fields? ==>
      r.city == StrOr(location.city, "") && r.state == StrOr(location.state, "") &&
      r.country == StrOr(location.country, "") &&
      r.zipCode == StrOr(OrStr(location.zipCode, OrStr(location.postalCode, location.zip)), "")
    ensures location.Text? && Trim(location.text) == "" ==> r == EMPTY_LOCATION
    ensures location.Text? && Trim(location.text) != "" ==>
      && r.country != ""
      && ',' !in r.city && ',' !in r.country
      && (r.zipCode == "" || IsZip(r.zipCode))
    ensures location.Text? && Trim(location.text) != "" ==>
      var parts := CommaParts(Trim(location.text));
      && r.city == (if |parts| >= 1 then parts[0] else "")
      && r.country == (if |parts| >= 3 then parts[2] else "CM")
      && r.state == (if |parts| >= 2 then SplitStateZip(parts[1]).0 else "")
      && r.zipCode == (if |parts| >= 2 && SplitStateZip(parts[1]).1 != "" then SplitStateZip(parts[1]).1
                       else SearchZip(Trim(location.text)))
  {
    match location
    case Absent => EMPTY_LOCATION
    case Fields(city, state, country, zipCode, postalCode, zip) =>
      ParsedLocation(StrOr(city, ""), StrOr(state, ""), StrOr(country, ""),
                     StrOr(OrStr(zipCode, OrStr(postalCode, zip)), ""))
    case Text(text) =>
      var trimmed := Trim(text);
      if trimmed == "" then EMPTY_LOCATION
      else ParseText(trimmed)
  }

  /** The free-text branch of `parseLocationInput`, on the trimmed input. */
  function ParseText(trimmed: string): (r: ParsedLocation)
    ensures r.country != ""
    ensures ',' !in r.city && ',' !in r.country
    ensures r.zipCode == "" || IsZip(r.zipCode)
    ensures var parts := CommaParts(trimmed);
      && r.city == (if |parts| >= 1 then parts[0] else "")
      && r.country == (if |parts| >= 3 then parts[2] else "CM")
      && r.state == (if |parts| >= 2 then SplitStateZip(parts[1]).0 else "")
      && r.zipCode == (if |parts| >= 2 && SplitStateZip(parts[1]).1 != "" then SplitStateZip(parts[1]).1
                       else SearchZip(trimmed))
  {
    FromParts(trimmed, CommaParts(trimmed))
  }

  /** The fields of the free-text branch from the comma parts: city, state
      and country in that order, the country defaulting to 'CM'. */
  function FromParts(trimmed: string, parts: seq<string>): (r: ParsedLocation)
    requires forall i :: 0 <= i < |parts| ==> parts[i] != "" && ',' !in parts[i]
    ensures r.country != ""
    ensures ',' !in r.city && ',' !in r.country
    ensures r.zipCode == "" || IsZip(r.zipCode)
    ensures r.city == (if |parts| >= 1 then parts[0] else "")
    ensures r.country == (if |parts| >= 3 then parts[2] else "CM")
    ensures r.state == (if |parts| >= 2 then SplitStateZip(parts[1]).0 else "")
    ensures r.zipCode == (if |parts| >= 2 && SplitStateZip(parts[1]).1 != "" then SplitStateZip(parts[1]).1
                          else SearchZip(trimmed))
  {
    assert Words("") == [];
    var split := SplitStateZip(PartOr(parts, 1, ""));
    var zipCode := if split.1 != "" then split.1 else SearchZip(trimmed);
    ParsedLocation(PartOr(parts, 0, ""), split.0, PartOr(parts, 2, "CM"), zipCode)
  }

  /** `parts[i]`, or the default when there are not that many parts. */
  function PartOr(parts: seq<string>, i: nat, default: string): (r: string)
    ensures i < |parts| ==> r == parts[i]
    ensures i >= |parts| ==> r == default
  {
    if i < |parts| then parts[i] else default
  }

  /** A state field whose last word is a postal code gives up that word:
      `("TX", "77001")` from `"TX 77001"`; otherwise it is kept as it is. */
  function SplitStateZip(state: string): (r: (string, string))
    ensures r.1 == "" || IsZip(r.1)
    ensures r.1 == "" ==> r.0 == state
  {
    var segments := Words(state);
    if |segments| > 1 && IsZip(segments[|segments| - 1]) then
      (Join(segments[..|segments| - 1], " "), segments[|segments| - 1])
    else (state, "")
  }

  /** `text.match(/\b\d{5}(?:-\d{4})?\b/)?.[0]`, or '' without a match. */
  function SearchZip(text: string): (r: string)
    ensures r == "" || (IsZip(r) && Contains(text, r))
    ensures r == "" <==> forall j :: 0 <= j <= |text| ==> ZipAt(text, j).None?
    ensures r != "" ==> exists j :: 0 <= j <= |text| && ZipAt(text, j) == Some(r) &&
                                     forall k :: 0 <= k < j ==> ZipAt(text, k).None?
  {
    match FirstZipIndex(text, 0)
    case Some(j) => ZipAt(text, j).value
    case None => ""
  }

  // ------------------------------------------------------ the city table

  datatype CityEntry = CityEntry(name: string, coords: Point)

  /** The fallback table in the order `Object.entries` lists it: a key
      written twice in the literal keeps its first position (every repeated
      key repeats the same coordinates). */
  const FALLBACK_CITIES: seq<CityEntry> := [
    CityEntry("Yaound\U{00E9}", Point(3.8480, 11.5021)),
    CityEntry("Yaounde", Point(3.8480, 11.5021)),
    CityEntry("Douala", Point(4.0511, 9.7679)),
    CityEntry("Garoua", Point(9.3000, 13.4000)),
    CityEntry("Bamenda", Point(6.1167, 10.1667)),
    CityEntry("Bafoussam", Point(5.4776, 10.4176)),
    CityEntry("Maroua", Point(10.5956, 14.3247)),
    CityEntry("Nkongsamba", Point(4.9500, 9.9333)),
    CityEntry("Ngaound\U{00E9}r\U{00E9}", Point(7.3167, 13.5833)),
    CityEntry("Ngaoundere", Point(7.3167, 13.5833)),
    CityEntry("Bertoua", Point(4.5833, 14.0833)),
    CityEntry("Ed\U{00E9}a", Point(3.8000, 10.1333)),
    CityEntry("Edea", Point(3.8000, 10.1333)),
    CityEntry("Loum", Point(4.7167, 9.7333)),
    CityEntry("Kumba", Point(4.6333, 9.4500)),
    CityEntry("Kumbo", Point(6.2000, 10.6667)),
    CityEntry("Foumban", Point(5.7167, 10.9167)),
    CityEntry("Mbouda", Point(5.6333, 10.2500)),
    CityEntry("Dschang", Point(5.4500, 10.0667)),
    CityEntry("Limb\U{00E9}", Point(4.0242, 9.2068)),
    CityEntry("Limbe", Point(4.0242, 9.2068)),
    CityEntry("Ebolowa", Point(2.9333, 11.1500)),
    CityEntry("Kouss\U{00E9}ri", Point(12.0833, 15.0333)),
    CityEntry("Kousseri", Point(12.0833, 15.0333)),
    CityEntry("Guider", Point(9.9333, 13.9500)),
    CityEntry("Meiganga", Point(6.5167, 14.3000)),
    CityEntry("Yagoua", Point(10.3500, 15.2333)),
    CityEntry("Mbalmayo", Point(3.5167, 11.5000)),
    CityEntry("Bafang", Point(5.1500, 10.1833)),
    CityEntry("Tiko", Point(4.0833, 9.3667)),
    CityEntry("Bafia", Point(4.7500, 11.2333)),
    CityEntry("Wum", Point(6.3833, 10.0667)),
    CityEntry("Kribi", Point(2.9373, 9.9077)),
    CityEntry("Buea", Point(4.1534, 9.2426)),
    CityEntry("Sangm\U{00E9}lima", Point(2.9333, 11.9833)),
    CityEntry("Sangmelima", Point(2.9333, 11.9833)),
    CityEntry("Foumbot", Point(5.5000, 10.6333)),
    CityEntry("Bangangt\U{00E9}", Point(5.1500, 10.5167)),
    CityEntry("Bangangte", Point(5.1500, 10.5167)),
    CityEntry("Batouri", Point(4.4333, 14.3667)),
    CityEntry("Banyo", Point(6.7500, 11.8167)),
    CityEntry("Nkamb\U{00E9}", Point(6.6167, 10.8333)),
    CityEntry("Nkambe", Point(6.6167, 10.8333)),
    CityEntry("Bali", Point(5.8833, 10.0167)),
    CityEntry("Mbanga", Point(4.5000, 9.5667)),
    CityEntry("Mokolo", Point(10.7333, 13.8000)),
    CityEntry("Melong", Point(5.1167, 9.9500)),
    CityEntry("Manjo", Point(4.8333, 9.8167)),
    CityEntry("Garoua-Boula\U{00EF}", Point(5.8833, 14.5500)),
    CityEntry("Garoua-Boulai", Point(5.8833, 14.5500)),
    CityEntry("Mora", Point(11.0500, 14.1333)),
    CityEntry("Ka\U{00E9}l\U{00E9}", Point(10.1000, 14.4500)),
    CityEntry("Kaele", Point(10.1000, 14.4500)),
    CityEntry("Tibati", Point(6.4667, 12.6333)),
    CityEntry("Ndop", Point(6.2000, 10.4833)),
    CityEntry("Akonolinga", Point(3.7667, 12.2500)),
    CityEntry("Es\U{00E9}ka", Point(3.6500, 10.7667)),
    CityEntry("Eseka", Point(3.6500, 10.7667)),
    CityEntry("Mamf\U{00E9}", Point(5.7500, 9.2833)),
    CityEntry("Mamfe", Point(5.7500, 9.2833)),
    CityEntry("Obala", Point(4.1667, 11.5333)),
    CityEntry("Muyuka", Point(4.2833, 9.4167)),
    CityEntry("Nanga-Eboko", Point(4.6833, 12.3667)),
    CityEntry("Nanga Eboko", Point(4.6833, 12.3667)),
    CityEntry("Abong-Mbang", Point(3.9833, 13.1833)),
    CityEntry("Abong Mbang", Point(3.9833, 13.1833)),
    CityEntry("Fundong", Point(6.2500, 10.2667)),
    CityEntry("Nkoteng", Point(4.5167, 12.0333)),
    CityEntry("Fontem", Point(5.4667, 9.8833)),
    CityEntry("Mbandjock", Point(4.4500, 11.9000)),
    CityEntry("Touboro", Point(7.7833, 15.3667)),
    CityEntry("Ngaoundal", Point(6.4500, 13.7667)),
    CityEntry("Yokadouma", Point(3.5167, 15.0500)),
    CityEntry("Pitoa", Point(9.3833, 13.5333)),
    CityEntry("Tombel", Point(4.5833, 9.6667)),
    CityEntry("K\U{00E9}kem", Point(5.5500, 10.1167)),
    CityEntry("Kekem", Point(5.5500, 10.1167)),
    CityEntry("Magba", Point(5.9167, 10.6167)),
    CityEntry("B\U{00E9}labo", Point(4.9333, 13.3000)),
    CityEntry("Belabo", Point(4.9333, 13.3000)),
    CityEntry("Tonga", Point(4.9667, 10.7000)),
    CityEntry("Maga", Point(10.8500, 14.9333)),
    CityEntry("Koutaba", Point(5.6500, 10.7500)),
    CityEntry("Blangoua", Point(12.2333, 14.5167)),
    CityEntry("Guidiguis", Point(9.9333, 13.9500)),
    CityEntry("Bogo", Point(10.7333, 14.6167)),
    CityEntry("Batibo", Point(6.0833, 10.0167)),
    CityEntry("Yabassi", Point(4.4500, 9.9667)),
    CityEntry("Figuil", Point(9.7667, 13.9667)),
    CityEntry("Mak\U{00E9}n\U{00E9}n\U{00E9}", Point(4.8333, 11.2167)),
    CityEntry("Makenene", Point(4.8333, 11.2167)),
    CityEntry("Gazawa", Point(10.5833, 14.2000)),
    CityEntry("Tchollir\U{00E9}", Point(8.4000, 14.1667)),
    CityEntry("Tchollire", Point(8.4000, 14.1667)),
    CityEntry("Buea Town", Point(4.1534, 9.2426)),
    CityEntry("Bamessing", Point(6.0333, 10.1500)),
    CityEntry("Bamunka", Point(5.9167, 10.5833)),
    CityEntry("Bana", Point(5.1500, 10.2667)),
    CityEntry("Bandjoun", Point(5.3500, 10.4167)),
    CityEntry("Bangang", Point(5.1333, 10.5167)),
    CityEntry("Bansoa", Point(5.4500, 10.3167)),
    CityEntry("Bazou", Point(5.0667, 10.4667)),
    CityEntry("Bekondo", Point(4.6833, 9.3167)),
    CityEntry("Bonab\U{00E9}ri", Point(4.0833, 9.6833)),
    CityEntry("Bonaberi", Point(4.0833, 9.6833)),
    CityEntry("Bu\U{00E9}a", Point(4.1534, 9.2426)),
    CityEntry("Campo", Point(2.3667, 9.8167)),
    CityEntry("Dibombari", Point(4.1833, 9.6500)),
    CityEntry("Dizangu\U{00E9}", Point(3.7667, 9.9833)),
    CityEntry("Dizangue", Point(3.7667, 9.9833)),
    CityEntry("Djohong", Point(6.8333, 14.7000)),
    CityEntry("Doum\U{00E9}", Point(4.2333, 13.4500)),
    CityEntry("Doume", Point(4.2333, 13.4500)),
    CityEntry("Fang", Point(5.7000, 10.8833)),
    CityEntry("Fokou\U{00E9}", Point(5.5833, 10.6000)),
    CityEntry("Fokoue", Point(5.5833, 10.6000)),
    CityEntry("Galim", Point(6.4000, 11.4167)),
    CityEntry("Gashiga", Point(10.5167, 13.9833)),
    CityEntry("Goulfey", Point(12.0833, 14.9833)),
    CityEntry("Idabato", Point(4.9000, 8.9000)),
    CityEntry("Idenau", Point(4.2500, 8.9833)),
    CityEntry("Kontcha", Point(7.9833, 12.2333)),
    CityEntry("Lagdo", Point(9.0500, 13.6667)),
    CityEntry("Lolodorf", Point(3.2333, 10.7333)),
    CityEntry("Mbankomo", Point(3.7833, 11.3833)),
    CityEntry("Mfou", Point(3.8667, 11.6333)),
    CityEntry("Mindif", Point(10.4000, 14.4333)),
    CityEntry("Minta", Point(4.5833, 12.8000)),
    CityEntry("Mundemba", Point(4.9500, 8.8667)),
    CityEntry("Mutengene", Point(4.1000, 9.3167)),
    CityEntry("Ndelele", Point(4.0333, 14.9333)),
    CityEntry("Ndikinim\U{00E9}ki", Point(4.7667, 10.8333)),
    CityEntry("Ndikinimeki", Point(4.7667, 10.8333)),
    CityEntry("Ndom", Point(4.5000, 9.8167)),
    CityEntry("Ngambe", Point(4.2333, 10.6167)),
    CityEntry("Ngomedzap", Point(3.2500, 11.2167)),
    CityEntry("Ngou", Point(5.2000, 10.3833)),
    CityEntry("Nguti", Point(5.3167, 9.4167)),
    CityEntry("Ntui", Point(4.4500, 11.6333)),
    CityEntry("Nyambaka", Point(7.2000, 13.5833)),
    CityEntry("Oku", Point(6.2000, 10.4667)),
    CityEntry("Poli", Point(8.4833, 13.2500)),
    CityEntry("Pouma", Point(3.5167, 10.1667)),
    CityEntry("Rey Bouba", Point(8.6667, 14.1833)),
    CityEntry("Saa", Point(4.3667, 11.4500)),
    CityEntry("Zou", Point(4.8167, 11.1333))
  ]

  /** `value.toLowerCase() === key.toLowerCase()`. */
  predicate NameMatches(e: CityEntry, value: string) {
    ToLower(e.name) == ToLower(value)
  }

  /** The coordinates of the first entry whose name matches `value` without
      regard to case. */
  function TableMatch(table: seq<CityEntry>, value: string): (r: Option<Point>)
    ensures r.None? <==> forall i :: 0 <= i < |table| ==> !NameMatches(table[i], value)
    ensures r.Some? ==> exists i ::
      && 0 <= i < |table| && NameMatches(table[i], value) && r.value == table[i].coords
      && (forall j :: 0 <= j < i ==> !NameMatches(table[j], value))
    decreases |table|
  {
    if table == [] then None
    else if NameMatches(table[0], value) then Some(table[0].coords)
    else
      var rest := TableMatch(table[1..], value);
      assert forall i :: 1 <= i < |table| ==> table[i] == table[1..][i - 1];
      rest
  }

  /** `[city, state, country].filter(Boolean).join(', ')`. */
  function FieldsText(p: ParsedLocation): string {
    Join(NonEmpty([p.city, p.state, p.country]), ", ")
  }

  function NonEmpty(xs: seq<string>): (r: seq<string>)
    ensures forall i :: 0 <= i < |r| ==> r[i] != ""
    ensures forall x :: x in r ==> x in xs
    decreases |xs|
  {
    if xs == [] then [] else if xs[0] == "" then NonEmpty(xs[1..]) else [xs[0]] + NonEmpty(xs[1..])
  }

  /** The text `getCityCoordinates` compares: the string itself, or for an
      address object its non-empty city, state and country. */
  function OriginalInput(location: LocationInput): string {
    match location
    case Text(text) => text
    case _ => FieldsText(ParseLocation(location))
  }

  /** The first comma part of the trimmed input, when it has a comma. */
  function FirstCommaPart(normalized: string): Option<string> {
    if ',' in normalized then
      var parts := CommaParts(normalized);
      if parts != [] then Some(parts[0]) else None
    else None
  }

  /** Some entry of the table has coordinates `p`. */
  predicate InTable(table: seq<CityEntry>, p: Point) {
    exists i :: 0 <= i < |table| && table[i].coords == p
  }

  /** The result of `getCityCoordinates` with the postal-code branch off,
      for the built-in table FALLBACK_CITIES: the first comma part is tried,
      then the whole trimmed input, then the parsed city. */
  function CityCoordinates(table: seq<CityEntry>, location: LocationInput): (r: Option<Point>)
    ensures location.Absent? || location == Text("") ==> r.None?
    ensures r.Some? ==> InTable(table, r.value)
    ensures !(location.Absent? || location == Text("")) ==>
      r == FirstHit(table, Trim(OriginalInput(location)), ParseLocation(location).city)
  {
    if location.Absent? || location == Text("") then None
    else
      var parsed := ParseLocation(location);
      var original := OriginalInput(location);
      if parsed.city == "" && original == "" then None
      else MatchCandidates(table, Trim(original), parsed.city)
  }

  /** The search order of `getCityCoordinates`, as a reference: the first
      comma part when it matches, else the trimmed input when it is
      non-empty and matches, else the trimmed city when it is non-empty. */
  function FirstHit(table: seq<CityEntry>, normalized: string, city: string): (r: Option<Point>)
    ensures r.Some? ==> InTable(table, r.value)
    ensures r.Some? ==>
      || (FirstCommaPart(normalized).Some? && r == TableMatch(table, FirstCommaPart(normalized).value))
      || (normalized != "" && r == TableMatch(table, Trim(normalized)))
      || (city != "" && r == TableMatch(table, Trim(city)))
    ensures FirstCommaPart(normalized).Some? && TableMatch(table, FirstCommaPart(normalized).value).Some? ==>
      r == TableMatch(table, FirstCommaPart(normalized).value)
  {
    var first := FirstCommaPart(normalized);
    if first.Some? && TableMatch(table, first.value).Some? then TableMatch(table, first.value)
    else if normalized != "" && TableMatch(table, Trim(normalized)).Some? then TableMatch(table, Trim(normalized))
    else if city != "" then TableMatch(table, Trim(city))
    else None
  }

  /** The search proper, on the trimmed input text and the parsed city. */
  function MatchCandidates(table: seq<CityEntry>, normalized: string, city: string): (r: Option<Point>)
    ensures r.Some? ==> InTable(table, r.value)
    ensures r == FirstHit(table, normalized, city)
    ensures var first := FirstCommaPart(normalized);
      r.None? <==>
        && (first.None? || TableMatch(table, first.value).None?)
        && (normalized == "" || TableMatch(table, Trim(normalized)).None?)
        && (city == "" || TableMatch(table, Trim(city)).None?)
  {
    var first := FirstCommaPart(normalized);
    var byFirst := if first.Some? then TableMatch(table, first.value) else None;
    SearchTwoValues(table, normalized, city);
    if byFirst.Some? then byFirst
    else SearchValues(table, NonEmpty([normalized, city]))
  }

  /** The value search over the list the source builds, the trimmed input
      then the city, each only when non-empty: the input's match wins, else
      the city's; none when neither matches. */
  lemma SearchTwoValues(table: seq<CityEntry>, a: string, b: string)
    ensures SearchValues(table, NonEmpty([a, b]))
         == if a != "" && TableMatch(table, Trim(a)).Some? then TableMatch(table, Trim(a))
            else if b != "" then TableMatch(table, Trim(b))
            else None
  {
    NonEmptyPair(a, b);
    if a != "" && b != "" {
      assert [a, b][1..] == [b];
      SearchOne(table, b);
    } else if a != "" {
      SearchOne(table, a);
    } else if b != "" {
      SearchOne(table, b);
    }
  }

  lemma NonEmptyPair(a: string, b: string)
    ensures NonEmpty([a, b]) == (if a != "" then [a] else []) + (if b != "" then [b] else [])
  {
    assert [a, b][1..] == [b];
    assert [b][1..] == [];
    assert NonEmpty([b][1..]) == [];
    assert NonEmpty([b]) == (if b != "" then [b] else []);
  }

  lemma SearchOne(table: seq<CityEntry>, v: string)
    ensures SearchValues(table, [v]) == TableMatch(table, Trim(v))
  {
    assert [v][1..] == [];
  }

  /** The first candidate that, trimmed, matches a table entry. */
  function SearchValues(table: seq<CityEntry>, values: seq<string>): (r: Option<Point>)
    ensures r.Some? ==> InTable(table, r.value)
    decreases |values|
  {
    if values == [] then None
    else
      var hit := TableMatch(table, Trim(values[0]));
      if hit.Some? then hit else SearchValues(table, values[1..])
  }

  /** The table search loop. */
  method FindCity(table: seq<CityEntry>, value: string) returns (r: Option<Point>)
    ensures r == TableMatch(table, value)
    ensures r.Some? ==> exists i :: 0 <= i < |table| && NameMatches(table[i], value) && r.value == table[i].coords
  {
    var lowered := ToLower(value);
    var i := 0;
    while i < |table|
      invariant 0 <= i <= |table|
      invariant forall j :: 0 <= j < i ==> !NameMatches(table[j], value)
    {
      if ToLower(table[i].name) == lowered {
        TableMatchFirst(table, value, i);
        return Some(table[i].coords);
      }
      i := i + 1;
    }
    return None;
  }

  /** When entry `i` is the first match, the search returns its coordinates. */
  lemma {:induction false} TableMatchFirst(table: seq<CityEntry>, value: string, i: nat)
    requires i < |table| && NameMatches(table[i], value)
    requires forall j :: 0 <= j < i ==> !NameMatches(table[j], value)
    ensures TableMatch(table, value) == Some(table[i].coords)
    decreases i
  {
    if i > 0 {
      TableMatchFirst(table[1..], value, i - 1);
    }
  }

  /** `getCityCoordinates`, with its loops over the candidate strings and
      the table. */
  method GetCityCoordinates(location: LocationInput) returns (r: Option<Point>)
    ensures r == CityCoordinates(FALLBACK_CITIES, location)
  {
    if location.Absent? || location == Text("") {
      return None;
    }
    var parsed := ParseLocation(location);
    var original := OriginalInput(location);
    if parsed.city == "" && original == "" {
      return None;
    }
    r := MatchCandidatesLoop(FALLBACK_CITIES, Trim(original), parsed.city);
  }

  /** The two loops of the search, over the first comma part and then over
      the candidate strings. */
  method MatchCandidatesLoop(table: seq<CityEntry>, normalized: string, city: string) returns (r: Option<Point>)
    ensures r == MatchCandidates(table, normalized, city)
  {
    var first := FirstCommaPart(normalized);
    if first.Some? {
      r := FindCity(table, first.value);
      if r.Some? {
        return r;
      }
    }
    var compareValues := NonEmpty([normalized, city]);
    var k := 0;
    while k < |compareValues|
      invariant 0 <= k <= |compareValues|
      invariant SearchValues(table, compareValues) == SearchValues(table, compareValues[k..])
    {
      r := FindCity(table, Trim(compareValues[k]));
      if r.Some? {
        return r;
      }
      assert compareValues[k..][1..] == compareValues[k + 1..];
      k := k + 1;
    }
    return None;
  }
}
