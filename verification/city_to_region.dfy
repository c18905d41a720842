/**
 * The static city-to-region dictionary of city_to_region.py.
 *
 * The source writes one dictionary literal whose entries are grouped under
 * twelve comment headings. Each heading becomes one map literal here and the
 * table is their union, so the model keeps the literal's shape: a city that
 * sits under one heading but names another region (ROYSTON, ASHBORNE, ALSTON,
 * GARRIGILL) is visible as such, and "no key is written twice" becomes the
 * statement that the twelve headings are pairwise disjoint and that the table
 * has exactly as many keys as the literal has entries.
 *
 * The values of the dictionary are twelve distinct strings; they are modelled
 * as the constructors of `Region`, and `Name` gives back the exact string the
 * source writes.
 *
 * Facts about the literal are proved heading by heading (and, for
 * disjointness, pair of headings by pair of headings): every such fact costs
 * the solver comparisons between string literals, and small queries keep that
 * cost bounded.
 */
module CityToRegion {
  import opened Wrappers
  import opened Dictionaries

  /** The twelve regions the table maps into. */
  datatype Region =
      London
    | SouthEast
    | EastOfEngland
    | SouthWest
    | WestMidlands
    | EastMidlands
    | NorthWest
    | YorkshireAndTheHumber
    | NorthEast
    | Wales
    | Scotland
    | NorthernIreland
  {
    /** The region's name exactly as the dictionary writes it. */
    function Name(): string {
      match this
      case London => "London"
      case SouthEast => "South East"
      case EastOfEngland => "East of England"
      case SouthWest => "South West"
      case WestMidlands => "West Midlands"
      case EastMidlands => "East Midlands"
      case NorthWest => "North West"
      case YorkshireAndTheHumber => "Yorkshire and The Humber"
      case NorthEast => "North East"
      case Wales => "Wales"
      case Scotland => "Scotland"
      case NorthernIreland => "Northern Ireland"
    }
  }

  /** The closed set of region names. */
  const RegionNames: set<string> := {
    "London", "South East", "East of England", "South West",
    "West Midlands", "East Midlands", "North West", "Yorkshire and The Humber",
    "North East", "Wales", "Scotland", "Northern Ireland"
  }

  /** Entries under the `London` heading (city_to_region.py:3-7). */
  const LondonHeading: map<string, Region> := map[
    "LONDON" := London,
    "HORNSEY" := London,
    "STANMORE" := London,
    "ENFIELD" := London,
    "SUTTON" := London
  ]

  /** Entries under the `South East` heading (city_to_region.py:10-21). */
  const SouthEastHeading: map<string, Region> := map[
    "SEVENOAKS" := SouthEast,
    "READING" := SouthEast,
    "LEWES" := SouthEast,
    "PORTSMOUTH" := SouthEast,
    "AYLESBURY" := SouthEast,
    "ROYSTON" := EastOfEngland,
    "HITCHIN" := EastOfEngland,
    "LUTON" := EastOfEngland,
    "NORWICH" := EastOfEngland,
    "THETFORD" := EastOfEngland,
    "CLACTON-ON-SEA" := EastOfEngland,
    "BUCKDEN" := EastOfEngland
  ]

  /** Entries under the `South West` heading (city_to_region.py:24-33). */
  const SouthWestHeading: map<string, Region> := map[
    "BRISTOL" := SouthWest,
    "POOLE" := SouthWest,
    "ST IVES" := SouthWest,
    "LANTEGLOS" := SouthWest,
    "TYWARDREATH" := SouthWest,
    "SHAFTESBURY" := SouthWest,
    "MALMESBURY" := SouthWest,
    "WOLFORD" := SouthWest,
    "ATHELNEY" := SouthWest,
    "LUNDY" := SouthWest
  ]

  /** Entries under the `West Midlands` heading (city_to_region.py:36-39). */
  const WestMidlandsHeading: map<string, Region> := map[
    "BIRMINGHAM" := WestMidlands,
    "ASHBORNE" := EastMidlands,
    "TAMWORTH" := WestMidlands,
    "BROMWICH" := WestMidlands
  ]

  /** Entries under the `East Midlands` heading (city_to_region.py:42). */
  const EastMidlandsHeading: map<string, Region> := map[
    "CHESTERFIELD" := EastMidlands
  ]

  /** Entries under the `North West` heading (city_to_region.py:45-51). */
  const NorthWestHeading: map<string, Region> := map[
    "MANCHESTER" := NorthWest,
    "BLACKPOOL" := NorthWest,
    "OLDHAM" := NorthWest,
    "CULCHETH" := NorthWest,
    "ULVERSTON" := NorthWest,
    "PENRITH" := NorthWest,
    "KESWICK" := NorthWest
  ]

  /** Entries under the `Yorkshire and The Humber` heading (city_to_region.py:54-56). */
  const YorkshireHeading: map<string, Region> := map[
    "HUDDERSFIELD" := YorkshireAndTheHumber,
    "ILKLEY" := YorkshireAndTheHumber,
    "CLEETHORPES" := YorkshireAndTheHumber
  ]

  /** Entries under the `North East` heading (city_to_region.py:59-63). */
  const NorthEastHeading: map<string, Region> := map[
    "NEWCASTLE" := NorthEast,
    "MORPETH" := NorthEast,
    "ALNWICK" := NorthEast,
    "HARTLEPOOL" := NorthEast,
    "TYNEMOUTH" := NorthEast
  ]

  /** Entries under the `Wales` heading (city_to_region.py:66-70). */
  const WalesHeading: map<string, Region> := map[
    "LLANDUDNO" := Wales,
    "CAERPHILLY" := Wales,
    "PORTHCAWL" := Wales,
    "PEMBROKE" := Wales,
    "BANGOR" := Wales
  ]

  /** Entries under the `Scotland` heading (city_to_region.py:73-82). */
  const ScotlandHeading: map<string, Region> := map[
    "DUMFRIES" := Scotland,
    "CARDENDEN" := Scotland,
    "BALERNO" := Scotland,
    "KILMARNOCK" := Scotland,
    "EASTHAVEN" := Scotland,
    "KIRKWALL" := Scotland,
    "DUNFERMLINE" := Scotland,
    "EYEMOUTH" := Scotland,
    "ALSTON" := NorthWest,
    "GARRIGILL" := NorthWest
  ]

  /** Entries under the `Northern Ireland` heading (city_to_region.py:85-86). */
  const NorthernIrelandHeading: map<string, Region> := map[
    "BALLYMENA" := NorthernIreland,
    "BELFAST" := NorthernIreland
  ]

  /** Entries under the `Edge / rural / special` heading (city_to_region.py:89-91). */
  const EdgeHeading: map<string, Region> := map[
    "BREDWARDINE" := WestMidlands,
    "BEGGARS HOLE" := SouthWest,
    "KELD" := YorkshireAndTheHumber
  ]

  /** The headings in source order. */
  const Headings: seq<map<string, Region>> := [
    LondonHeading, SouthEastHeading, SouthWestHeading, WestMidlandsHeading,
    EastMidlandsHeading, NorthWestHeading, YorkshireHeading, NorthEastHeading,
    WalesHeading, ScotlandHeading, NorthernIrelandHeading, EdgeHeading
  ]

  /** The dictionary `city_to_region`: every heading's entries in one map. */
  const Table: map<string, Region> := Union(Headings)
  /** Characters a key is written with: capitals, blanks and hyphens. */
  predicate IsKeyChar(c: char) {
    'A' <= c <= 'Z' || c == ' ' || c == '-'
  }

  /** A non-empty upper-case name such as "ST IVES" or "CLACTON-ON-SEA". */
  predicate IsCityKey(s: string) {
    |s| > 0 && forall i :: 0 <= i < |s| ==> IsKeyChar(s[i])
  }

  /** True iff `s` contains a lower-case ASCII letter. */
  predicate HasLowerCase(s: string) {
    exists i :: 0 <= i < |s| && 'a' <= s[i] <= 'z'
  }


  /** Position `i` of `Headings` holds the i-th heading of the source. */
  lemma LondonAt() ensures Headings[0] == LondonHeading { }
  lemma SouthEastAt() ensures Headings[1] == SouthEastHeading { }
  lemma SouthWestAt() ensures Headings[2] == SouthWestHeading { }
  lemma WestMidlandsAt() ensures Headings[3] == WestMidlandsHeading { }
  lemma EastMidlandsAt() ensures Headings[4] == EastMidlandsHeading { }
  lemma NorthWestAt() ensures Headings[5] == NorthWestHeading { }
  lemma YorkshireAt() ensures Headings[6] == YorkshireHeading { }
  lemma NorthEastAt() ensures Headings[7] == NorthEastHeading { }
  lemma WalesAt() ensures Headings[8] == WalesHeading { }
  lemma ScotlandAt() ensures Headings[9] == ScotlandHeading { }
  lemma NorthernIrelandAt() ensures Headings[10] == NorthernIrelandHeading { }
  lemma EdgeAt() ensures Headings[11] == EdgeHeading { }

  /** The heading `Headings[i]` has no key in common with `Headings[j]`. */
  lemma LondonApartSouthEast() ensures LondonHeading.Keys !! SouthEastHeading.Keys { }
  lemma LondonApartSouthWest() ensures LondonHeading.Keys !! SouthWestHeading.Keys { }
  lemma LondonApartWestMidlands() ensures LondonHeading.Keys !! WestMidlandsHeading.Keys { }
  lemma LondonApartEastMidlands() ensures LondonHeading.Keys !! EastMidlandsHeading.Keys { }
  lemma LondonApartNorthWest() ensures LondonHeading.Keys !! NorthWestHeading.Keys { }
  lemma LondonApartYorkshire() ensures LondonHeading.Keys !! YorkshireHeading.Keys { }
  lemma LondonApartNorthEast() ensures LondonHeading.Keys !! NorthEastHeading.Keys { }
  lemma LondonApartWales() ensures LondonHeading.Keys !! WalesHeading.Keys { }
  lemma LondonApartScotland() ensures LondonHeading.Keys !! ScotlandHeading.Keys { }
  lemma LondonApartNorthernIreland() ensures LondonHeading.Keys !! NorthernIrelandHeading.Keys { }
  lemma LondonApartEdge() ensures LondonHeading.Keys !! EdgeHeading.Keys { }
  lemma SouthEastApartSouthWest() ensures SouthEastHeading.Keys !! SouthWestHeading.Keys { }
  lemma SouthEastApartWestMidlands() ensures SouthEastHeading.Keys !! WestMidlandsHeading.Keys { }
  lemma SouthEastApartEastMidlands() ensures SouthEastHeading.Keys !! EastMidlandsHeading.Keys { }
  lemma SouthEastApartNorthWest() ensures SouthEastHeading.Keys !! NorthWestHeading.Keys { }
  lemma SouthEastApartYorkshire() ensures SouthEastHeading.Keys !! YorkshireHeading.Keys { }
  lemma SouthEastApartNorthEast() ensures SouthEastHeading.Keys !! NorthEastHeading.Keys { }
  lemma SouthEastApartWales() ensures SouthEastHeading.Keys !! WalesHeading.Keys { }
  lemma SouthEastApartScotland() ensures SouthEastHeading.Keys !! ScotlandHeading.Keys { }
  lemma SouthEastApartNorthernIreland() ensures SouthEastHeading.Keys !! NorthernIrelandHeading.Keys { }
  lemma SouthEastApartEdge() ensures SouthEastHeading.Keys !! EdgeHeading.Keys { }
  lemma SouthWestApartWestMidlands() ensures SouthWestHeading.Keys !! WestMidlandsHeading.Keys { }
  lemma SouthWestApartEastMidlands() ensures SouthWestHeading.Keys !! EastMidlandsHeading.Keys { }
  lemma SouthWestApartNorthWest() ensures SouthWestHeading.Keys !! NorthWestHeading.Keys { }
  lemma SouthWestApartYorkshire() ensures SouthWestHeading.Keys !! YorkshireHeading.Keys { }
  lemma SouthWestApartNorthEast() ensures SouthWestHeading.Keys !! NorthEastHeading.Keys { }
  lemma SouthWestApartWales() ensures SouthWestHeading.Keys !! WalesHeading.Keys { }
  lemma SouthWestApartScotland() ensures SouthWestHeading.Keys !! ScotlandHeading.Keys { }
  lemma SouthWestApartNorthernIreland() ensures SouthWestHeading.Keys !! NorthernIrelandHeading.Keys { }
  lemma SouthWestApartEdge() ensures SouthWestHeading.Keys !! EdgeHeading.Keys { }
  lemma WestMidlandsApartEastMidlands() ensures WestMidlandsHeading.Keys !! EastMidlandsHeading.Keys { }
  lemma WestMidlandsApartNorthWest() ensures WestMidlandsHeading.Keys !! NorthWestHeading.Keys { }
  lemma WestMidlandsApartYorkshire() ensures WestMidlandsHeading.Keys !! YorkshireHeading.Keys { }
  lemma WestMidlandsApartNorthEast() ensures WestMidlandsHeading.Keys !! NorthEastHeading.Keys { }
  lemma WestMidlandsApartWales() ensures WestMidlandsHeading.Keys !! WalesHeading.Keys { }
  lemma WestMidlandsApartScotland() ensures WestMidlandsHeading.Keys !! ScotlandHeading.Keys { }
  lemma WestMidlandsApartNorthernIreland() ensures WestMidlandsHeading.Keys !! NorthernIrelandHeading.Keys { }
  lemma WestMidlandsApartEdge() ensures WestMidlandsHeading.Keys !! EdgeHeading.Keys { }
  lemma EastMidlandsApartNorthWest() ensures EastMidlandsHeading.Keys !! NorthWestHeading.Keys { }
  lemma EastMidlandsApartYorkshire() ensures EastMidlandsHeading.Keys !! YorkshireHeading.Keys { }
  lemma EastMidlandsApartNorthEast() ensures EastMidlandsHeading.Keys !! NorthEastHeading.Keys { }
  lemma EastMidlandsApartWales() ensures EastMidlandsHeading.Keys !! WalesHeading.Keys { }
  lemma EastMidlandsApartScotland() ensures EastMidlandsHeading.Keys !! ScotlandHeading.Keys { }
  lemma EastMidlandsApartNorthernIreland() ensures EastMidlandsHeading.Keys !! NorthernIrelandHeading.Keys { }
  lemma EastMidlandsApartEdge() ensures EastMidlandsHeading.Keys !! EdgeHeading.Keys { }
  lemma NorthWestApartYorkshire() ensures NorthWestHeading.Keys !! YorkshireHeading.Keys { }
  lemma NorthWestApartNorthEast() ensures NorthWestHeading.Keys !! NorthEastHeading.Keys { }
  lemma NorthWestApartWales() ensures NorthWestHeading.Keys !! WalesHeading.Keys { }
  lemma NorthWestApartScotland() ensures NorthWestHeading.Keys !! ScotlandHeading.Keys { }
  lemma NorthWestApartNorthernIreland() ensures NorthWestHeading.Keys !! NorthernIrelandHeading.Keys { }
  lemma NorthWestApartEdge() ensures NorthWestHeading.Keys !! EdgeHeading.Keys { }
  lemma YorkshireApartNorthEast() ensures YorkshireHeading.Keys !! NorthEastHeading.Keys { }
  lemma YorkshireApartWales() ensures YorkshireHeading.Keys !! WalesHeading.Keys { }
  lemma YorkshireApartScotland() ensures YorkshireHeading.Keys !! ScotlandHeading.Keys { }
  lemma YorkshireApartNorthernIreland() ensures YorkshireHeading.Keys !! NorthernIrelandHeading.Keys { }
  lemma YorkshireApartEdge() ensures YorkshireHeading.Keys !! EdgeHeading.Keys { }
  lemma NorthEastApartWales() ensures NorthEastHeading.Keys !! WalesHeading.Keys { }
  lemma NorthEastApartScotland() ensures NorthEastHeading.Keys !! ScotlandHeading.Keys { }
  lemma NorthEastApartNorthernIreland() ensures NorthEastHeading.Keys !! NorthernIrelandHeading.Keys { }
  lemma NorthEastApartEdge() ensures NorthEastHeading.Keys !! EdgeHeading.Keys { }
  lemma WalesApartScotland() ensures WalesHeading.Keys !! ScotlandHeading.Keys { }
  lemma WalesApartNorthernIreland() ensures WalesHeading.Keys !! NorthernIrelandHeading.Keys { }
  lemma WalesApartEdge() ensures WalesHeading.Keys !! EdgeHeading.Keys { }
  lemma ScotlandApartNorthernIreland() ensures ScotlandHeading.Keys !! NorthernIrelandHeading.Keys { }
  lemma ScotlandApartEdge() ensures ScotlandHeading.Keys !! EdgeHeading.Keys { }
  lemma NorthernIrelandApartEdge() ensures NorthernIrelandHeading.Keys !! EdgeHeading.Keys { }

  /** The `London` heading shares no key with a later heading. */
  lemma LondonApartLater(j: nat)
    requires 0 < j < |Headings|
    ensures Headings[0].Keys !! Headings[j].Keys
  {
    if j == 1 { LondonAt(); SouthEastAt(); LondonApartSouthEast(); }
    else if j == 2 { LondonAt(); SouthWestAt(); LondonApartSouthWest(); }
    else if j == 3 { LondonAt(); WestMidlandsAt(); LondonApartWestMidlands(); }
    else if j == 4 { LondonAt(); EastMidlandsAt(); LondonApartEastMidlands(); }
    else if j == 5 { LondonAt(); NorthWestAt(); LondonApartNorthWest(); }
    else if j == 6 { LondonAt(); YorkshireAt(); LondonApartYorkshire(); }
    else if j == 7 { LondonAt(); NorthEastAt(); LondonApartNorthEast(); }
    else if j == 8 { LondonAt(); WalesAt(); LondonApartWales(); }
    else if j == 9 { LondonAt(); ScotlandAt(); LondonApartScotland(); }
    else if j == 10 { LondonAt(); NorthernIrelandAt(); LondonApartNorthernIreland(); }
    else { LondonAt(); EdgeAt(); LondonApartEdge(); }
  }

  /** The `SouthEast` heading shares no key with a later heading. */
  lemma SouthEastApartLater(j: nat)
    requires 1 < j < |Headings|
    ensures Headings[1].Keys !! Headings[j].Keys
  {
    if j == 2 { SouthEastAt(); SouthWestAt(); SouthEastApartSouthWest(); }
    else if j == 3 { SouthEastAt(); WestMidlandsAt(); SouthEastApartWestMidlands(); }
    else if j == 4 { SouthEastAt(); EastMidlandsAt(); SouthEastApartEastMidlands(); }
    else if j == 5 { SouthEastAt(); NorthWestAt(); SouthEastApartNorthWest(); }
    else if j == 6 { SouthEastAt(); YorkshireAt(); SouthEastApartYorkshire(); }
    else if j == 7 { SouthEastAt(); NorthEastAt(); SouthEastApartNorthEast(); }
    else if j == 8 { SouthEastAt(); WalesAt(); SouthEastApartWales(); }
    else if j == 9 { SouthEastAt(); ScotlandAt(); SouthEastApartScotland(); }
    else if j == 10 { SouthEastAt(); NorthernIrelandAt(); SouthEastApartNorthernIreland(); }
    else { SouthEastAt(); EdgeAt(); SouthEastApartEdge(); }
  }

  /** The `SouthWest` heading shares no key with a later heading. */
  lemma SouthWestApartLater(j: nat)
    requires 2 < j < |Headings|
    ensures Headings[2].Keys !! Headings[j].Keys
  {
    if j == 3 { SouthWestAt(); WestMidlandsAt(); SouthWestApartWestMidlands(); }
    else if j == 4 { SouthWestAt(); EastMidlandsAt(); SouthWestApartEastMidlands(); }
    else if j == 5 { SouthWestAt(); NorthWestAt(); SouthWestApartNorthWest(); }
    else if j == 6 { SouthWestAt(); YorkshireAt(); SouthWestApartYorkshire(); }
    else if j == 7 { SouthWestAt(); NorthEastAt(); SouthWestApartNorthEast(); }
    else if j == 8 { SouthWestAt(); WalesAt(); SouthWestApartWales(); }
    else if j == 9 { SouthWestAt(); ScotlandAt(); SouthWestApartScotland(); }
    else if j == 10 { SouthWestAt(); NorthernIrelandAt(); SouthWestApartNorthernIreland(); }
    else { SouthWestAt(); EdgeAt(); SouthWestApartEdge(); }
  }

  /** The `WestMidlands` heading shares no key with a later heading. */
  lemma WestMidlandsApartLater(j: nat)
    requires 3 < j < |Headings|
    ensures Headings[3].Keys !! Headings[j].Keys
  {
    if j == 4 { WestMidlandsAt(); EastMidlandsAt(); WestMidlandsApartEastMidlands(); }
    else if j == 5 { WestMidlandsAt(); NorthWestAt(); WestMidlandsApartNorthWest(); }
    else if j == 6 { WestMidlandsAt(); YorkshireAt(); WestMidlandsApartYorkshire(); }
    else if j == 7 { WestMidlandsAt(); NorthEastAt(); WestMidlandsApartNorthEast(); }
    else if j == 8 { WestMidlandsAt(); WalesAt(); WestMidlandsApartWales(); }
    else if j == 9 { WestMidlandsAt(); ScotlandAt(); WestMidlandsApartScotland(); }
    else if j == 10 { WestMidlandsAt(); NorthernIrelandAt(); WestMidlandsApartNorthernIreland(); }
    else { WestMidlandsAt(); EdgeAt(); WestMidlandsApartEdge(); }
  }

  /** The `EastMidlands` heading shares no key with a later heading. */
  lemma EastMidlandsApartLater(j: nat)
    requires 4 < j < |Headings|
    ensures Headings[4].Keys !! Headings[j].Keys
  {
    if j == 5 { EastMidlandsAt(); NorthWestAt(); EastMidlandsApartNorthWest(); }
    else if j == 6 { EastMidlandsAt(); YorkshireAt(); EastMidlandsApartYorkshire(); }
    else if j == 7 { EastMidlandsAt(); NorthEastAt(); EastMidlandsApartNorthEast(); }
    else if j == 8 { EastMidlandsAt(); WalesAt(); EastMidlandsApartWales(); }
    else if j == 9 { EastMidlandsAt(); ScotlandAt(); EastMidlandsApartScotland(); }
    else if j == 10 { EastMidlandsAt(); NorthernIrelandAt(); EastMidlandsApartNorthernIreland(); }
    else { EastMidlandsAt(); EdgeAt(); EastMidlandsApartEdge(); }
  }

  /** The `NorthWest` heading shares no key with a later heading. */
  lemma NorthWestApartLater(j: nat)
    requires 5 < j < |Headings|
    ensures Headings[5].Keys !! Headings[j].Keys
  {
    if j == 6 { NorthWestAt(); YorkshireAt(); NorthWestApartYorkshire(); }
    else if j == 7 { NorthWestAt(); NorthEastAt(); NorthWestApartNorthEast(); }
    else if j == 8 { NorthWestAt(); WalesAt(); NorthWestApartWales(); }
    else if j == 9 { NorthWestAt(); ScotlandAt(); NorthWestApartScotland(); }
    else if j == 10 { NorthWestAt(); NorthernIrelandAt(); NorthWestApartNorthernIreland(); }
    else { NorthWestAt(); EdgeAt(); NorthWestApartEdge(); }
  }

  /** The `Yorkshire` heading shares no key with a later heading. */
  lemma YorkshireApartLater(j: nat)
    requires 6 < j < |Headings|
    ensures Headings[6].Keys !! Headings[j].Keys
  {
    if j == 7 { YorkshireAt(); NorthEastAt(); YorkshireApartNorthEast(); }
    else if j == 8 { YorkshireAt(); WalesAt(); YorkshireApartWales(); }
    else if j == 9 { YorkshireAt(); ScotlandAt(); YorkshireApartScotland(); }
    else if j == 10 { YorkshireAt(); NorthernIrelandAt(); YorkshireApartNorthernIreland(); }
    else { YorkshireAt(); EdgeAt(); YorkshireApartEdge(); }
  }

  /** The `NorthEast` heading shares no key with a later heading. */
  lemma NorthEastApartLater(j: nat)
    requires 7 < j < |Headings|
    ensures Headings[7].Keys !! Headings[j].Keys
  {
    if j == 8 { NorthEastAt(); WalesAt(); NorthEastApartWales(); }
    else if j == 9 { NorthEastAt(); ScotlandAt(); NorthEastApartScotland(); }
    else if j == 10 { NorthEastAt(); NorthernIrelandAt(); NorthEastApartNorthernIreland(); }
    else { NorthEastAt(); EdgeAt(); NorthEastApartEdge(); }
  }

  /** The `Wales` heading shares no key with a later heading. */
  lemma WalesApartLater(j: nat)
    requires 8 < j < |Headings|
    ensures Headings[8].Keys !! Headings[j].Keys
  {
    if j == 9 { WalesAt(); ScotlandAt(); WalesApartScotland(); }
    else if j == 10 { WalesAt(); NorthernIrelandAt(); WalesApartNorthernIreland(); }
    else { WalesAt(); EdgeAt(); WalesApartEdge(); }
  }

  /** The `Scotland` heading shares no key with a later heading. */
  lemma ScotlandApartLater(j: nat)
    requires 9 < j < |Headings|
    ensures Headings[9].Keys !! Headings[j].Keys
  {
    if j == 10 { ScotlandAt(); NorthernIrelandAt(); ScotlandApartNorthernIreland(); }
    else { ScotlandAt(); EdgeAt(); ScotlandApartEdge(); }
  }

  /** The `NorthernIreland` heading shares no key with a later heading. */
  lemma NorthernIrelandApartLater(j: nat)
    requires 10 < j < |Headings|
    ensures Headings[10].Keys !! Headings[j].Keys
  {
    NorthernIrelandAt(); EdgeAt(); NorthernIrelandApartEdge();
  }

  /** No key is written under two headings. */
  lemma HeadingsApart(i: nat, j: nat)
    requires i < j < |Headings|
    ensures Headings[i].Keys !! Headings[j].Keys
  {
    if i == 0 { LondonApartLater(j); }
    else if i == 1 { SouthEastApartLater(j); }
    else if i == 2 { SouthWestApartLater(j); }
    else if i == 3 { WestMidlandsApartLater(j); }
    else if i == 4 { EastMidlandsApartLater(j); }
    else if i == 5 { NorthWestApartLater(j); }
    else if i == 6 { YorkshireApartLater(j); }
    else if i == 7 { NorthEastApartLater(j); }
    else if i == 8 { WalesApartLater(j); }
    else if i == 9 { ScotlandApartLater(j); }
    else { NorthernIrelandApartLater(j); }
  }

  /** The twelve headings are pairwise disjoint: no city is listed twice. */
  lemma HeadingsDisjoint()
    ensures PairwiseDisjoint(Headings)
  {
    forall i, j | 0 <= i < j < |Headings|
      ensures Headings[i].Keys !! Headings[j].Keys
    {
      HeadingsApart(i, j);
    }
  }

  /** The `London` heading lists 5 cities (city_to_region.py:3-7). */
  lemma LondonSize() ensures |LondonHeading| == 5 { }
  /** The `SouthEast` heading lists 12 cities (city_to_region.py:10-21). */
  lemma SouthEastSize() ensures |SouthEastHeading| == 12 { }
  /** The `SouthWest` heading lists 10 cities (city_to_region.py:24-33). */
  lemma SouthWestSize() ensures |SouthWestHeading| == 10 { }
  /** The `WestMidlands` heading lists 4 cities (city_to_region.py:36-39). */
  lemma WestMidlandsSize() ensures |WestMidlandsHeading| == 4 { }
  /** The `EastMidlands` heading lists 1 city (city_to_region.py:42). */
  lemma EastMidlandsSize() ensures |EastMidlandsHeading| == 1 { }
  /** The `NorthWest` heading lists 7 cities (city_to_region.py:45-51). */
  lemma NorthWestSize() ensures |NorthWestHeading| == 7 { }
  /** The `Yorkshire` heading lists 3 cities (city_to_region.py:54-56). */
  lemma YorkshireSize() ensures |YorkshireHeading| == 3 { }
  /** The `NorthEast` heading lists 5 cities (city_to_region.py:59-63). */
  lemma NorthEastSize() ensures |NorthEastHeading| == 5 { }
  /** The `Wales` heading lists 5 cities (city_to_region.py:66-70). */
  lemma WalesSize() ensures |WalesHeading| == 5 { }
  /** The `Scotland` heading lists 10 cities (city_to_region.py:73-82). */
  lemma ScotlandSize() ensures |ScotlandHeading| == 10 { }
  /** The `NorthernIreland` heading lists 2 cities (city_to_region.py:85-86). */
  lemma NorthernIrelandSize() ensures |NorthernIrelandHeading| == 2 { }
  /** The `Edge` heading lists 3 cities (city_to_region.py:89-91). */
  lemma EdgeSize() ensures |EdgeHeading| == 3 { }

  /** The literal writes 67 entries. */
  lemma HeadingsEntryCount()
    ensures EntryCount(Headings, |Headings|) == 67
  {
    LondonAt(); LondonSize();
    SouthEastAt(); SouthEastSize();
    SouthWestAt(); SouthWestSize();
    WestMidlandsAt(); WestMidlandsSize();
    EastMidlandsAt(); EastMidlandsSize();
    NorthWestAt(); NorthWestSize();
    YorkshireAt(); YorkshireSize();
    NorthEastAt(); NorthEastSize();
    WalesAt(); WalesSize();
    ScotlandAt(); ScotlandSize();
    NorthernIrelandAt(); NorthernIrelandSize();
    EdgeAt(); EdgeSize();
    assert EntryCount(Headings, 1) == 5;
    assert EntryCount(Headings, 2) == 17;
    assert EntryCount(Headings, 3) == 27;
    assert EntryCount(Headings, 4) == 31;
    assert EntryCount(Headings, 5) == 32;
    assert EntryCount(Headings, 6) == 39;
    assert EntryCount(Headings, 7) == 42;
    assert EntryCount(Headings, 8) == 47;
    assert EntryCount(Headings, 9) == 52;
    assert EntryCount(Headings, 10) == 62;
    assert EntryCount(Headings, 11) == 64;
    assert EntryCount(Headings, 12) == 67;
  }

  lemma LondonKeysWellFormed() ensures forall k :: k in LondonHeading ==> IsCityKey(k) { }
  lemma SouthEastKeysWellFormed() ensures forall k :: k in SouthEastHeading ==> IsCityKey(k) { }
  lemma SouthWestKeysWellFormed() ensures forall k :: k in SouthWestHeading ==> IsCityKey(k) { }
  lemma WestMidlandsKeysWellFormed() ensures forall k :: k in WestMidlandsHeading ==> IsCityKey(k) { }
  lemma EastMidlandsKeysWellFormed() ensures forall k :: k in EastMidlandsHeading ==> IsCityKey(k) { }
  lemma NorthWestKeysWellFormed() ensures forall k :: k in NorthWestHeading ==> IsCityKey(k) { }
  lemma YorkshireKeysWellFormed() ensures forall k :: k in YorkshireHeading ==> IsCityKey(k) { }
  lemma NorthEastKeysWellFormed() ensures forall k :: k in NorthEastHeading ==> IsCityKey(k) { }
  lemma WalesKeysWellFormed() ensures forall k :: k in WalesHeading ==> IsCityKey(k) { }
  lemma ScotlandKeysWellFormed() ensures forall k :: k in ScotlandHeading ==> IsCityKey(k) { }
  lemma NorthernIrelandKeysWellFormed() ensures forall k :: k in NorthernIrelandHeading ==> IsCityKey(k) { }
  lemma EdgeKeysWellFormed() ensures forall k :: k in EdgeHeading ==> IsCityKey(k) { }

  /** Every key under every heading is an upper-case city name. */
  lemma HeadingKeysWellFormed(i: nat)
    requires i < |Headings|
    ensures forall k :: k in Headings[i] ==> IsCityKey(k)
  {
    if i == 0 { LondonAt(); LondonKeysWellFormed(); }
    else if i == 1 { SouthEastAt(); SouthEastKeysWellFormed(); }
    else if i == 2 { SouthWestAt(); SouthWestKeysWellFormed(); }
    else if i == 3 { WestMidlandsAt(); WestMidlandsKeysWellFormed(); }
    else if i == 4 { EastMidlandsAt(); EastMidlandsKeysWellFormed(); }
    else if i == 5 { NorthWestAt(); NorthWestKeysWellFormed(); }
    else if i == 6 { YorkshireAt(); YorkshireKeysWellFormed(); }
    else if i == 7 { NorthEastAt(); NorthEastKeysWellFormed(); }
    else if i == 8 { WalesAt(); WalesKeysWellFormed(); }
    else if i == 9 { ScotlandAt(); ScotlandKeysWellFormed(); }
    else if i == 10 { NorthernIrelandAt(); NorthernIrelandKeysWellFormed(); }
    else { EdgeAt(); EdgeKeysWellFormed(); }
  }

  /**
   * Exactly 67 distinct keys: since no key is written twice, the
   * dictionary has one key per entry of the literal.
   */
  lemma TableSize()
    ensures |Table| == 67
  {
    HeadingsDisjoint();
    UnionSize(Headings);
    HeadingsEntryCount();
  }

  /** Every key of the table is a non-empty upper-case name. */
  lemma KeysAreCityKeys()
    ensures forall k :: k in Table ==> IsCityKey(k)
  {
    forall k | k in Table
      ensures IsCityKey(k)
    {
      UnionKeys(Headings, |Headings|, k);
      var i :| 0 <= i < |Headings| && k in Headings[i];
      HeadingKeysWellFormed(i);
    }
  }

  /** No key contains a lower-case letter, so a mixed-case name never matches. */
  lemma LowerCaseMisses(s: string)
    requires HasLowerCase(s)
    ensures s !in Table
  {
    KeysAreCityKeys();
  }

  /** A key's value is the one written under the heading that lists it. */
  lemma TableAt(i: nat, k: string)
    requires i < |Headings| && k in Headings[i]
    ensures k in Table && Table[k] == Headings[i][k]
  {
    HeadingsDisjoint();
    forall j | i < j < |Headings|
      ensures k !in Headings[j]
    {
      assert Headings[i].Keys !! Headings[j].Keys;
    }
    UnionKeepsLastWriter(Headings, |Headings|, i, k);
  }

  /** LONDON maps to London (city_to_region.py:3). */
  lemma LondonEntry()
    ensures "LONDON" in Table && Table["LONDON"] == London
  {
    LondonAt();
    assert "LONDON" in LondonHeading && LondonHeading["LONDON"] == London;
    TableAt(0, "LONDON");
  }

  /** AYLESBURY maps to South East (city_to_region.py:14). */
  lemma AylesburyEntry()
    ensures "AYLESBURY" in Table && Table["AYLESBURY"] == SouthEast
  {
    SouthEastAt();
    assert "AYLESBURY" in SouthEastHeading && SouthEastHeading["AYLESBURY"] == SouthEast;
    TableAt(1, "AYLESBURY");
  }

  /** ROYSTON maps to East of England (city_to_region.py:15). */
  lemma RoystonEntry()
    ensures "ROYSTON" in Table && Table["ROYSTON"] == EastOfEngland
  {
    SouthEastAt();
    assert "ROYSTON" in SouthEastHeading && SouthEastHeading["ROYSTON"] == EastOfEngland;
    TableAt(1, "ROYSTON");
  }

  /** ST IVES maps to South West (city_to_region.py:26). */
  lemma StIvesEntry()
    ensures "ST IVES" in Table && Table["ST IVES"] == SouthWest
  {
    SouthWestAt();
    assert "ST IVES" in SouthWestHeading && SouthWestHeading["ST IVES"] == SouthWest;
    TableAt(2, "ST IVES");
  }

  /** ASHBORNE maps to East Midlands (city_to_region.py:37). */
  lemma AshborneEntry()
    ensures "ASHBORNE" in Table && Table["ASHBORNE"] == EastMidlands
  {
    WestMidlandsAt();
    assert "ASHBORNE" in WestMidlandsHeading && WestMidlandsHeading["ASHBORNE"] == EastMidlands;
    TableAt(3, "ASHBORNE");
  }

  /** BROMWICH maps to West Midlands (city_to_region.py:39). */
  lemma BromwichEntry()
    ensures "BROMWICH" in Table && Table["BROMWICH"] == WestMidlands
  {
    WestMidlandsAt();
    assert "BROMWICH" in WestMidlandsHeading && WestMidlandsHeading["BROMWICH"] == WestMidlands;
    TableAt(3, "BROMWICH");
  }

  /** CHESTERFIELD maps to East Midlands (city_to_region.py:42). */
  lemma ChesterfieldEntry()
    ensures "CHESTERFIELD" in Table && Table["CHESTERFIELD"] == EastMidlands
  {
    EastMidlandsAt();
    assert "CHESTERFIELD" in EastMidlandsHeading && EastMidlandsHeading["CHESTERFIELD"] == EastMidlands;
    TableAt(4, "CHESTERFIELD");
  }

  /** CLEETHORPES maps to Yorkshire and The Humber (city_to_region.py:56). */
  lemma CleethorpesEntry()
    ensures "CLEETHORPES" in Table && Table["CLEETHORPES"] == YorkshireAndTheHumber
  {
    YorkshireAt();
    assert "CLEETHORPES" in YorkshireHeading && YorkshireHeading["CLEETHORPES"] == YorkshireAndTheHumber;
    TableAt(6, "CLEETHORPES");
  }

  /** TYNEMOUTH maps to North East (city_to_region.py:63). */
  lemma TynemouthEntry()
    ensures "TYNEMOUTH" in Table && Table["TYNEMOUTH"] == NorthEast
  {
    NorthEastAt();
    assert "TYNEMOUTH" in NorthEastHeading && NorthEastHeading["TYNEMOUTH"] == NorthEast;
    TableAt(7, "TYNEMOUTH");
  }

  /** BANGOR maps to Wales (city_to_region.py:70). */
  lemma BangorEntry()
    ensures "BANGOR" in Table && Table["BANGOR"] == Wales
  {
    WalesAt();
    assert "BANGOR" in WalesHeading && WalesHeading["BANGOR"] == Wales;
    TableAt(8, "BANGOR");
  }

  /** EYEMOUTH maps to Scotland (city_to_region.py:80). */
  lemma EyemouthEntry()
    ensures "EYEMOUTH" in Table && Table["EYEMOUTH"] == Scotland
  {
    ScotlandAt();
    assert "EYEMOUTH" in ScotlandHeading && ScotlandHeading["EYEMOUTH"] == Scotland;
    TableAt(9, "EYEMOUTH");
  }

  /** ALSTON and GARRIGILL, listed under Scotland, map to North West (city_to_region.py:81-82). */
  lemma CumbrianEntries()
    ensures "ALSTON" in Table && Table["ALSTON"] == NorthWest
    ensures "GARRIGILL" in Table && Table["GARRIGILL"] == NorthWest
  {
    ScotlandAt();
    assert "ALSTON" in ScotlandHeading && ScotlandHeading["ALSTON"] == NorthWest;
    assert "GARRIGILL" in ScotlandHeading && ScotlandHeading["GARRIGILL"] == NorthWest;
    TableAt(9, "ALSTON");
    TableAt(9, "GARRIGILL");
  }

  /** BELFAST maps to Northern Ireland (city_to_region.py:86). */
  lemma BelfastEntry()
    ensures "BELFAST" in Table && Table["BELFAST"] == NorthernIreland
  {
    NorthernIrelandAt();
    assert "BELFAST" in NorthernIrelandHeading && NorthernIrelandHeading["BELFAST"] == NorthernIreland;
    TableAt(10, "BELFAST");
  }

  /** Every region name is one of the twelve. */
  lemma NameIsRegionName(r: Region)
    ensures r.Name() in RegionNames
  {
  }

  /** The region a name stands for, if it is one of the twelve. */
  function FromName(s: string): (r: Option<Region>)
    ensures r.Some? ==> r.value.Name() == s
  {
    if s == "London" then Some(London)
    else if s == "South East" then Some(SouthEast)
    else if s == "East of England" then Some(EastOfEngland)
    else if s == "South West" then Some(SouthWest)
    else if s == "West Midlands" then Some(WestMidlands)
    else if s == "East Midlands" then Some(EastMidlands)
    else if s == "North West" then Some(NorthWest)
    else if s == "Yorkshire and The Humber" then Some(YorkshireAndTheHumber)
    else if s == "North East" then Some(NorthEast)
    else if s == "Wales" then Some(Wales)
    else if s == "Scotland" then Some(Scotland)
    else if s == "Northern Ireland" then Some(NorthernIreland)
    else None
  }

  /** Each region is recovered from its name, so no two regions share a name. */
  lemma NameRoundTrip(r: Region)
    ensures FromName(r.Name()) == Some(r)
  {
  }

  /**
   * `city_to_region.get(city)`: the name of the city's region when the city is
   * a key, matched exactly and case-sensitively, and nothing otherwise.
   */
  function RegionOf(city: string): (r: Option<string>)
    ensures r.Some? <==> city in Table
    ensures r.Some? ==> IsCityKey(city) && r.value in RegionNames && FromName(r.value) == Some(Table[city])
    ensures HasLowerCase(city) ==> r.None?
  {
    KeysAreCityKeys();
    if city in Table then
      NameIsRegionName(Table[city]);
      NameRoundTrip(Table[city]);
      Some(Table[city].Name())
    else
      None
  }

  /** Keys spelt as the source writes them hit. */
  lemma ExactKeysHit()
    ensures RegionOf("LONDON") == Some("London")
    ensures RegionOf("ST IVES") == Some("South West")
  {
    LondonEntry();
    StIvesEntry();
  }

  /** Lookups are case-sensitive: a lower-case spelling misses. */
  lemma OtherSpellingsMiss()
    ensures RegionOf("London") == None
    ensures RegionOf("st ives") == None
  {
    assert 'o' == "London"[1];
    LowerCaseMisses("London");
    assert 's' == "st ives"[0];
    LowerCaseMisses("st ives");
  }

  /** Entries filed under one heading but mapped to another region. */
  lemma MisfiledEntries()
    ensures RegionOf("ROYSTON") == Some("East of England")
    ensures RegionOf("ASHBORNE") == Some("East Midlands")
    ensures RegionOf("ALSTON") == Some("North West")
    ensures RegionOf("GARRIGILL") == Some("North West")
  {
    RoystonEntry();
    AshborneEntry();
    CumbrianEntries();
  }

  /** Every one of the twelve regions is the value of some key. */
  lemma EveryRegionReached(r: Region)
    ensures exists k :: k in Table && Table[k] == r
  {
    match r
    case London => LondonEntry();
    case SouthEast => AylesburyEntry();
    case EastOfEngland => RoystonEntry();
    case SouthWest => StIvesEntry();
    case WestMidlands => BromwichEntry();
    case EastMidlands => ChesterfieldEntry();
    case NorthWest => CumbrianEntries();
    case YorkshireAndTheHumber => CleethorpesEntry();
    case NorthEast => TynemouthEntry();
    case Wales => BangorEntry();
    case Scotland => EyemouthEntry();
    case NorthernIreland => BelfastEntry();
  }
}
