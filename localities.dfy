/**
 * `src/lib/localities.ts`: the locality gazetteer, grouped by suburb, and the
 * search for the first known locality mentioned in a text.
 */
module Localities {
  import opened Wrappers
  import opened Strings
  import opened LeadDraft

  /** `LOCALITIES[g]`; a `LocalityGroup` is a suburb. */
  function LocalitiesOf(g: Suburb): seq<string> {
    match g
    case Malad => [
      "Mindspace", "Link Road", "SV Road", "Malad Station", "Malad Metro", "Marve Road",
      "Orlem", "Evershine Nagar", "Chincholi Bunder", "Inorbit / Infiniti", "Dindoshi", "Madh"]
    case Kandivali => [
      "Thakur Village", "Mahavir Nagar", "Lokhandwala (Kandivali)", "Charkop", "Poisar",
      "Kandivali Station", "Kandivali Metro", "Akurli Road", "Samta Nagar", "Shankar Lane",
      "Link Road", "SV Road"]
    case Borivali => [
      "IC Colony", "Eksar", "Shimpoli", "Gorai", "Borivali Station", "Borivali Metro",
      "Devipada", "National Park", "Chandavarkar Road", "LT Road", "Link Road", "SV Road"]
  }

  /** Some localities belong to every suburb. */
  lemma SharedLocalities()
    ensures forall g :: "Link Road" in LocalitiesOf(g) && "SV Road" in LocalitiesOf(g)
  {
    forall g ensures "Link Road" in LocalitiesOf(g) && "SV Road" in LocalitiesOf(g) {
      match g
      case Malad => assert LocalitiesOf(g)[1] == "Link Road" && LocalitiesOf(g)[2] == "SV Road";
      case Kandivali => assert LocalitiesOf(g)[10] == "Link Road" && LocalitiesOf(g)[11] == "SV Road";
      case Borivali => assert LocalitiesOf(g)[10] == "Link Road" && LocalitiesOf(g)[11] == "SV Road";
    }
  }

  /** `groupFromArea`: decided by the prefix of the area's literal. */
  function GroupFromArea(a: Area): (g: Suburb)
    ensures g == a.suburb
    ensures StartsWith(AreaName(a), SuburbName(g))
  {
    var name := AreaName(a);
    assert name[..|SuburbName(a.suburb)|] == SuburbName(a.suburb);
    assert name[0] == SuburbName(a.suburb)[0];
    if StartsWith(name, "Malad") then Malad
    else if StartsWith(name, "Kandivali") then Kandivali
    else Borivali
  }

  /** `getLocalitiesForArea` */
  function GetLocalitiesForArea(a: Area): (r: seq<string>)
    ensures r == LocalitiesOf(a.suburb)
  {
    LocalitiesOf(GroupFromArea(a))
  }

  /** East and West of a suburb share one list. */
  lemma SidesShareLocalities(s: Suburb)
    ensures GetLocalitiesForArea(Area(s, East)) == GetLocalitiesForArea(Area(s, West))
  {
  }

  /** The groups searched: the area's own suburb, or all three in order. */
  function SearchedGroups(area: Option<Area>): seq<Suburb> {
    if area.Some? then [GroupFromArea(area.value)] else [Malad, Kandivali, Borivali]
  }

  /** The candidate list the nested loops walk, group by group. */
  function Candidates(groups: seq<Suburb>): (r: seq<string>)
    ensures forall loc :: loc in r <==> exists i :: 0 <= i < |groups| && loc in LocalitiesOf(groups[i])
  {
    if |groups| == 0 then []
    else
      var rest := Candidates(groups[1..]);
      assert forall i :: 1 <= i < |groups| ==> groups[i] == groups[1..][i - 1];
      LocalitiesOf(groups[0]) + rest
  }

  /** The first index `i` of `locs` with `Lower(locs[i])` inside `t`. */
  function FirstMentioned(t: string, locs: seq<string>): (r: Option<nat>)
    ensures r.Some? ==> r.value < |locs| && Contains(t, Lower(locs[r.value]))
    ensures r.Some? ==> forall j :: 0 <= j < r.value ==> !Contains(t, Lower(locs[j]))
    ensures r.None? <==> forall j :: 0 <= j < |locs| ==> !Contains(t, Lower(locs[j]))
  {
    if |locs| == 0 then None
    else if Contains(t, Lower(locs[0])) then Some(0)
    else
      match FirstMentioned(t, locs[1..])
      case None => None
      case Some(i) => Some(i + 1)
  }

  /** The first of `locs` mentioned in `t`, as written in `locs`. */
  function FirstLocality(t: string, locs: seq<string>): (r: Option<string>)
    ensures r.Some? ==> r.value in locs && Contains(t, Lower(r.value))
  {
    match FirstMentioned(t, locs)
    case None => None
    case Some(i) => Some(locs[i])
  }

  /** `FirstLocality` is the earliest mentioned entry, and is absent only when none is mentioned. */
  lemma FirstLocalityIsFirst(t: string, locs: seq<string>)
    ensures var r := FirstLocality(t, locs);
            (r.None? <==> forall j :: 0 <= j < |locs| ==> !Contains(t, Lower(locs[j]))) &&
            (r.Some? ==> exists i :: 0 <= i < |locs| && r.value == locs[i] &&
                           forall j :: 0 <= j < i ==> !Contains(t, Lower(locs[j])))
  {
    var idx := FirstMentioned(t, locs);
    if idx.Some? {
      assert FirstLocality(t, locs) == Some(locs[idx.value]);
    }
  }

  /**
   * `detectLocality(text, area)`: the first locality, in list order, whose
   * lower-case form occurs in the lower-cased text; `None` for an empty text.
   */
  function DetectLocality(text: string, area: Option<Area>): (r: Option<string>)
    ensures text == [] ==> r.None?
    ensures r.Some? ==> r.value in Candidates(SearchedGroups(area))
    ensures r.Some? ==> Contains(Lower(text), Lower(r.value))
  {
    var t := Lower(text);
    if t == [] then None else FirstLocality(t, Candidates(SearchedGroups(area)))
  }

  /** With an area, the result is one of that suburb's localities. */
  lemma DetectLocalityInArea(text: string, a: Area)
    ensures var r := DetectLocality(text, Some(a)); r.Some? ==> r.value in LocalitiesOf(a.suburb)
  {
  }

  /** The result is exactly the earliest mentioned candidate; nothing before it occurs in the text. */
  lemma DetectLocalityFirst(text: string, area: Option<Area>)
    requires text != []
    ensures var locs := Candidates(SearchedGroups(area));
            var r := DetectLocality(text, area);
            (r.None? <==> forall j :: 0 <= j < |locs| ==> !Contains(Lower(text), Lower(locs[j]))) &&
            (r.Some? ==> exists i :: 0 <= i < |locs| && r.value == locs[i] &&
                           forall j :: 0 <= j < i ==> !Contains(Lower(text), Lower(locs[j])))
  {
    FirstLocalityIsFirst(Lower(text), Candidates(SearchedGroups(area)));
  }
}
