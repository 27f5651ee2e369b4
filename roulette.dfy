/** The playlist generator of the mission roulette page
    (roulette-script.js:138-212): the selection filter, the travel-time rule
    and the time-budgeted loop that draws random missions. */
module Roulette {
  import opened Collections
  import opened Dataset
  import opened Budget

  const ANY: string := "any"
  const TRAVEL_TIME_STANTON: int := 5
  const TRAVEL_TIME_PYRO: int := 7
  const TRAVEL_TIME_CROSS_SYSTEM: int := 9

  /** The user's choices that the generator reads: 'any' or a value. */
  datatype Filters = Filters(alignment: string, missionType: string, system: string)

  /** Where the previous entry took place. */
  datatype Stop = Stop(planet: Id, system: Id)

  /** One playlist entry; the source stores the records, the model their keys. */
  datatype Entry = Entry(mission: Id, planet: Id, system: Id, travelTime: int)

  datatype Playlist = Playlist(entries: seq<Entry>, totalTime: int)

  /** What the generator needs of the dataset: every enabled mission takes
      some time (otherwise the loop need not end), and every planet's system
      exists (otherwise line 185 reads a property of undefined). */
  ghost predicate Ready(data: MissionData)
  {
    && (forall id :: id in data.subsystems.rows && !data.subsystems.rows[id].disabled ==>
          data.subsystems.rows[id].time > 0)
    && (forall id :: id in data.planets.rows ==> data.planets.rows[id].parentId in data.systems.rows)
  }

  // ---------------------------------------------------------------------
  // Selection filter

  /** The key of the first mission type, in enumeration order, with this
      name (line 144). */
  function TypeKey(data: MissionData, name: string): (r: Option<Id>)
    ensures r.Some? ==> r.value in data.missionTypes.rows && data.missionTypes.rows[r.value].name == name
    ensures r.None? <==> forall k :: k in data.missionTypes.rows ==> data.missionTypes.rows[k].name != name
    ensures r.Some? ==>
      exists i :: 0 <= i < |data.missionTypes.keys| && data.missionTypes.keys[i] == r.value &&
        forall j :: 0 <= j < i ==> data.missionTypes.rows[data.missionTypes.keys[j]].name != name
  {
    FirstKeyWhere(data.missionTypes, (t: MissionType) => t.name == name)
  }

  /** The key of the first system, in enumeration order, with this name
      (line 148). */
  function SystemKey(data: MissionData, name: string): (r: Option<Id>)
    ensures r.Some? ==> r.value in data.systems.rows && data.systems.rows[r.value].name == name
    ensures r.None? <==> forall k :: k in data.systems.rows ==> data.systems.rows[k].name != name
    ensures r.Some? ==>
      exists i :: 0 <= i < |data.systems.keys| && data.systems.keys[i] == r.value &&
        forall j :: 0 <= j < i ==> data.systems.rows[data.systems.keys[j]].name != name
  {
    FirstKeyWhere(data.systems, (s: StarSystem) => s.name == name)
  }

  /** The missions a session may draw from (lines 140-147), in key order. */
  function MissionPool(data: MissionData, f: Filters): (pool: seq<Id>)
    ensures forall id :: id in pool <==>
      && id in data.subsystems.rows
      && !data.subsystems.rows[id].disabled
      && (f.alignment == ANY || f.alignment in data.subsystems.rows[id].alignment)
      && (f.missionType == ANY || TypeKey(data, f.missionType) == Some(data.subsystems.rows[id].parentId))
  {
    var rows := data.subsystems.rows;
    var typeKey := TypeKey(data, f.missionType);
    var enabled := Filter(data.subsystems.keys, id => id in rows && !rows[id].disabled);
    var aligned :=
      if f.alignment != ANY then Filter(enabled, id => id in rows && f.alignment in rows[id].alignment)
      else enabled;
    if f.missionType != ANY then Filter(aligned, id => id in rows && typeKey == Some(rows[id].parentId))
    else aligned
  }

  /** The planets a session may visit (lines 148-151). */
  function ValidPlanetIds(data: MissionData, f: Filters): (ids: seq<Id>)
    ensures f.system == ANY ==> ids == data.planets.keys
    ensures forall id :: id in ids <==>
      && id in data.planets.rows
      && (f.system == ANY || SystemKey(data, f.system) == Some(data.planets.rows[id].parentId))
  {
    var rows := data.planets.rows;
    var systemKey := SystemKey(data, f.system);
    if f.system != ANY then Filter(data.planets.keys, id => id in rows && systemKey == Some(rows[id].parentId))
    else data.planets.keys
  }

  /** The links of one mission that end on a valid planet (line 171). */
  function ValidLinks(links: seq<Link>, validPlanetIds: seq<Id>, mission: Id): (r: seq<Link>)
    ensures forall l :: l in r <==> l in links && l.from == mission && l.to in validPlanetIds
  {
    Filter(links, (l: Link) => l.from == mission && l.to in validPlanetIds)
  }

  /** The pool missions with at least one valid link (lines 163-165). */
  function AvailableMissions(links: seq<Link>, pool: seq<Id>, validPlanetIds: seq<Id>): (r: seq<Id>)
    ensures forall id :: id in r <==>
      id in pool && exists l :: l in links && l.from == id && l.to in validPlanetIds
  {
    var r := Filter(pool, id => ValidLinks(links, validPlanetIds, id) != []);
    assert forall id :: id in pool && (exists l :: l in links && l.from == id && l.to in validPlanetIds) ==> id in r by {
      forall id | id in pool && (exists l :: l in links && l.from == id && l.to in validPlanetIds)
        ensures id in r
      {
        var l :| l in links && l.from == id && l.to in validPlanetIds;
        assert l in ValidLinks(links, validPlanetIds, id);
      }
    }
    assert forall id :: id in r ==> exists l :: l in links && l.from == id && l.to in validPlanetIds by {
      forall id | id in r ensures exists l :: l in links && l.from == id && l.to in validPlanetIds {
        var vl := ValidLinks(links, validPlanetIds, id);
        assert vl[0] in vl;
      }
    }
    r
  }

  /** The available missions for these filters; they do not change while a
      playlist is being built. */
  function Available(data: MissionData, f: Filters): seq<Id>
  {
    AvailableMissions(data.links, MissionPool(data, f), ValidPlanetIds(data, f))
  }

  // ---------------------------------------------------------------------
  // Travel cost

  function LowerChar(c: char): char
  {
    if 'A' <= c <= 'Z' then (c as int + 32) as char else c
  }

  /** String.prototype.toLowerCase on the ASCII letters: the result has the
      same length and no upper-case letter; each of A-Z becomes its
      lower-case letter and every other character is kept. */
  function ToLowerCase(s: string): (r: string)
    ensures |r| == |s|
    ensures forall i :: 0 <= i < |r| ==> !('A' <= r[i] <= 'Z')
    ensures forall i :: 0 <= i < |s| && 'A' <= s[i] <= 'Z' ==> r[i] as int == s[i] as int + 32
    ensures forall i :: 0 <= i < |s| && !('A' <= s[i] <= 'Z') ==> r[i] == s[i]
  {
    seq(|s|, i requires 0 <= i < |s| => LowerChar(s[i]))
  }

  /** Travel time between two planets of the same system (lines 184-189). */
  function SameSystemTravelTime(systemName: string): (t: int)
    ensures t == TRAVEL_TIME_STANTON <==> ToLowerCase(systemName) == "stanton"
    ensures t == TRAVEL_TIME_PYRO <==> ToLowerCase(systemName) == "pyro"
    ensures t == 0 <==> ToLowerCase(systemName) != "stanton" && ToLowerCase(systemName) != "pyro"
  {
    var name := ToLowerCase(systemName);
    if name == "stanton" then TRAVEL_TIME_STANTON
    else if name == "pyro" then TRAVEL_TIME_PYRO
    else 0
  }

  /** `if (lastPlanetId)` is false: no entry yet (null), or the previous
      planet's key is the empty string. */
  predicate NoPreviousStop(last: Option<Stop>)
  {
    last.None? || last.value.planet == ""
  }

  /** The same-system travel time of every system, by key. */
  function SameSystemTimes(systems: map<Id, StarSystem>): (times: map<Id, int>)
    ensures times.Keys == systems.Keys
    ensures forall id :: id in systems ==> times[id] == SameSystemTravelTime(systems[id].name)
    ensures forall id :: id in times ==> times[id] >= 0
  {
    map id | id in systems :: SameSystemTravelTime(systems[id].name)
  }

  /** Travel time to a planet of a system, given the previous stop
      (lines 177-191); `sameSystemTime` is what a hop between two planets
      of that system costs. */
  function TravelTime(last: Option<Stop>, planet: Id, system: Id, sameSystemTime: int): int
  {
    if NoPreviousStop(last) then 0
    else if system != last.value.system then TRAVEL_TIME_CROSS_SYSTEM
    else if planet != last.value.planet then sameSystemTime
    else 0
  }

  // ---------------------------------------------------------------------
  // The candidate stream. `Math.floor(Math.random() * n)` at the k-th call
  // of Math.random is pick(k, n). Pass i of the loop makes calls 2i (the
  // mission, line 168) and 2i+1 (the link, line 172). Because the available
  // missions never change, what pass i draws does not depend on the time
  // budget.

  /** Every draw is an index below the length it was scaled by. */
  ghost predicate PicksInRange(pick: (nat, nat) -> nat)
  {
    forall k, n :: 0 < n ==> pick(k, n) < n
  }

  /** What one run of the generator works with: the records it reads, the
      available missions and, for each of these, its valid links. */
  datatype Session = Session(
    missions: map<Id, Mission>,
    planets: map<Id, Planet>,
    sameSystemTimes: map<Id, int>,
    available: seq<Id>,
    linksOf: map<Id, seq<Link>>,
    pick: (nat, nat) -> nat)

  /** Every available mission takes some time and has a link, every link a
      session may draw ends on a planet whose system exists, and no travel
      takes negative time. */
  ghost predicate ValidSession(s: Session)
  {
    && PicksInRange(s.pick)
    && (forall id :: id in s.sameSystemTimes ==> s.sameSystemTimes[id] >= 0)
    && (forall k :: 0 <= k < |s.available| ==>
          && s.available[k] in s.missions && s.missions[s.available[k]].time > 0
          && s.available[k] in s.linksOf && s.linksOf[s.available[k]] != [])
    && (forall id, k :: id in s.linksOf && 0 <= k < |s.linksOf[id]| ==>
          && s.linksOf[id][k].from == id
          && s.linksOf[id][k].to in s.planets
          && s.planets[s.linksOf[id][k].to].parentId in s.sameSystemTimes)
  }

  /** A session that can draw: something is available. */
  ghost predicate Drawing(s: Session)
  {
    ValidSession(s) && s.available != []
  }

  /** An available mission is an enabled record with some time and a valid link. */
  lemma AvailableReady(data: MissionData, f: Filters, id: Id)
    requires Ready(data) && id in Available(data, f)
    ensures id in data.subsystems.rows && data.subsystems.rows[id].time > 0
    ensures ValidLinks(data.links, ValidPlanetIds(data, f), id) != []
  {
    var l :| l in data.links && l.from == id && l.to in ValidPlanetIds(data, f);
    assert l in ValidLinks(data.links, ValidPlanetIds(data, f), id);
  }

  /** A valid link ends on a planet whose system exists. */
  lemma LinkReady(data: MissionData, f: Filters, id: Id, l: Link)
    requires Ready(data) && l in ValidLinks(data.links, ValidPlanetIds(data, f), id)
    ensures l.from == id
    ensures l.to in data.planets.rows && data.planets.rows[l.to].parentId in data.systems.rows
  {
  }

  /** The session a run of the generator works in. */
  function SessionFor(data: MissionData, f: Filters, pick: (nat, nat) -> nat): (s: Session)
    ensures s.missions == data.subsystems.rows && s.planets == data.planets.rows
    ensures s.sameSystemTimes == SameSystemTimes(data.systems.rows)
    ensures s.pick == pick
    ensures s.available == Available(data, f)
    ensures forall id :: id in s.available ==> id in s.linksOf && s.linksOf[id] == ValidLinks(data.links, ValidPlanetIds(data, f), id)
  {
    var valid := ValidPlanetIds(data, f);
    var available := Available(data, f);
    Session(data.subsystems.rows, data.planets.rows, SameSystemTimes(data.systems.rows), available,
            map id | id in available :: ValidLinks(data.links, valid, id), pick)
  }

  /** The session of a ready dataset can be drawn from whenever something
      is available. */
  lemma SessionForValid(data: MissionData, f: Filters, pick: (nat, nat) -> nat)
    requires Ready(data) && PicksInRange(pick)
    ensures ValidSession(SessionFor(data, f, pick))
  {
    var s := SessionFor(data, f, pick);
    forall k | 0 <= k < |s.available|
      ensures && s.available[k] in s.missions && s.missions[s.available[k]].time > 0
              && s.available[k] in s.linksOf && s.linksOf[s.available[k]] != []
    {
      AvailableReady(data, f, s.available[k]);
    }
    forall id, k | id in s.linksOf && 0 <= k < |s.linksOf[id]|
      ensures && s.linksOf[id][k].from == id
              && s.linksOf[id][k].to in s.planets && s.planets[s.linksOf[id][k].to].parentId in s.sameSystemTimes
    {
      assert s.linksOf[id][k] in s.linksOf[id];
      LinkReady(data, f, id, s.linksOf[id][k]);
    }
  }

  // The stream functions are total: in a drawing session their fallbacks
  // (the empty key, the empty list of links) are never reached (PickValid).

  /** The mission pass i draws (line 168). */
  function MissionAt(s: Session, i: nat): Id
  {
    var k := s.pick(2 * i, |s.available|);
    if k < |s.available| then s.available[k] else ""
  }

  /** The valid links of a mission, as the session precomputed them. */
  function LinksOf(s: Session, mission: Id): seq<Link>
  {
    if mission in s.linksOf then s.linksOf[mission] else []
  }

  /** The link pass i draws among the valid links of its mission (line 172). */
  function LinkAt(s: Session, i: nat): Link
  {
    var links := LinksOf(s, MissionAt(s, i));
    var k := s.pick(2 * i + 1, |links|);
    if k < |links| then links[k] else Link("", "")
  }

  datatype Pick = Pick(mission: Id, planet: Id, system: Id)

  /** What pass i of the loop draws: a mission, the planet of its link and
      that planet's system (lines 168-175). */
  function PickAt(s: Session, i: nat): Pick
  {
    var planet := LinkAt(s, i).to;
    Pick(MissionAt(s, i), planet, if planet in s.planets then s.planets[planet].parentId else "")
  }

  /** The stop of the entry before entry i, if any. */
  function PreviousStop(s: Session, i: nat): Option<Stop>
  {
    if i == 0 then None
    else
      var c := PickAt(s, i - 1);
      Some(Stop(c.planet, c.system))
  }

  /** What a hop between two planets of this system costs. */
  function SameSystemTimeOf(s: Session, system: Id): int
  {
    if system in s.sameSystemTimes then s.sameSystemTimes[system] else 0
  }

  /** Entry i of the playlist, if the loop gets that far. */
  function EntryAt(s: Session, i: nat): Entry
  {
    var c := PickAt(s, i);
    Entry(c.mission, c.planet, c.system,
          TravelTime(PreviousStop(s, i), c.planet, c.system, SameSystemTimeOf(s, c.system)))
  }

  /** The minutes a mission takes. */
  function MissionTime(s: Session, mission: Id): int
  {
    if mission in s.missions then s.missions[mission].time else 0
  }

  /** The minutes entry i takes: the mission's time plus the travel to it (line 193). */
  function CostAt(s: Session, i: nat): int
  {
    MissionTime(s, MissionAt(s, i)) + EntryAt(s, i).travelTime
  }

  /** Entries 0..n-1 of the stream. */
  function Entries(s: Session, n: nat): (es: seq<Entry>)
    ensures |es| == n
  {
    Tabulate(k => EntryAt(s, k), n)
  }

  /** Entry k of a run is the stream's entry k. */
  lemma EntryOfRun(s: Session, n: nat, k: nat)
    requires k < n
    ensures Entries(s, n)[k] == EntryAt(s, k)
  {
    TabulateAt(k => EntryAt(s, k), n, k);
  }

  /** The costs of passes 0..n-1. */
  function Costs(s: Session, n: nat): (costs: seq<int>)
    ensures |costs| == n && forall k :: 0 <= k < n ==> costs[k] == CostAt(s, k)
  {
    seq(n, k requires 0 <= k < n => CostAt(s, k))
  }

  /** In a drawing session every pass draws an available mission, one of its
      valid links, and a planet whose system exists. */
  lemma PickValid(s: Session, i: nat)
    requires Drawing(s)
    ensures MissionAt(s, i) == s.available[s.pick(2 * i, |s.available|)]
    ensures MissionAt(s, i) in s.missions && s.missions[MissionAt(s, i)].time > 0
    ensures LinkAt(s, i) in s.linksOf[MissionAt(s, i)]
    ensures PickAt(s, i).planet in s.planets
    ensures PickAt(s, i).system == s.planets[PickAt(s, i).planet].parentId
    ensures PickAt(s, i).system in s.sameSystemTimes
  {
    var k := s.pick(2 * i, |s.available|);
    assert s.available[k] in s.linksOf;
    var links := s.linksOf[s.available[k]];
    var j := s.pick(2 * i + 1, |links|);
    assert links[j] in links;
  }

  /** Every entry of a drawing session costs at least a minute. */
  lemma CostPositive(s: Session, i: nat)
    requires Drawing(s)
    ensures CostAt(s, i) >= 1
  {
    PickValid(s, i);
    if i > 0 {
      PickValid(s, i - 1);
    }
  }

  /** The costs of the first n passes. FillPlaylist binds its ghost `costs`
      through this lemma rather than by calling Costs, so that the body of
      Costs is not unfolded in the loop's verification condition. */
  lemma StreamCosts(s: Session, n: nat) returns (costs: seq<int>)
    ensures costs == Costs(s, n)
  {
    costs := Costs(s, n);
  }

  /** In a drawing session every entry costs at least a minute. */
  lemma CostsPositive(s: Session, n: nat)
    requires Drawing(s)
    ensures AllPositive(Costs(s, n))
  {
    forall k | 0 <= k < n ensures Costs(s, n)[k] >= 1 {
      CostPositive(s, k);
    }
  }

  /** How many candidates the budget can ever look at: each costs at least
      a minute, so the loop stops within `duration` entries. */
  function Horizon(duration: int): (h: nat)
    ensures h > (if duration > 0 then duration else 0)
  {
    (if duration > 0 then duration else 0) + 1
  }

  /** What the loop builds in a session: the longest run of the candidate
      stream that the budget admits, with the minutes it takes. */
  function Run(s: Session, duration: int): Playlist
  {
    if s.available == [] then Playlist([], 0)
    else
      var costs := Costs(s, Horizon(duration));
      var n := Taken(costs, duration, 0);
      Playlist(Entries(s, n), Sum(costs, n))
  }

  /** The playlist for a duration (lines 138-212). */
  function Generate(data: MissionData, f: Filters, duration: int, pick: (nat, nat) -> nat): Playlist
    requires Ready(data) && PicksInRange(pick)
  {
    if MissionPool(data, f) == [] then Playlist([], 0)
    else Run(SessionFor(data, f, pick), duration)
  }

  /** s is the session of this dataset, for the mission pool and valid
      planets a run computed. */
  ghost predicate SessionOf(s: Session, data: MissionData, missionPool: seq<Id>, validPlanetIds: seq<Id>,
                            pick: (nat, nat) -> nat)
  {
    && ValidSession(s) && s.pick == pick
    && s.available == AvailableMissions(data.links, missionPool, validPlanetIds)
    && s.missions == data.subsystems.rows && s.planets == data.planets.rows
    && s.sameSystemTimes == SameSystemTimes(data.systems.rows)
    && forall id :: id in s.available ==> s.linksOf[id] == ValidLinks(data.links, validPlanetIds, id)
  }

  // ---------------------------------------------------------------------
  // The loop

  /** One pass of the loop after the availability check (lines 168-193):
      draw a mission and one of its valid links, and price the travel from
      the previous stop. */
  method DrawEntry(data: MissionData, validPlanetIds: seq<Id>, availableMissions: seq<Id>,
                   last: Option<Stop>, pick: (nat, nat) -> nat, ghost s: Session, i: nat)
    returns (entry: Entry, missionTime: int)
    requires Drawing(s) && s.pick == pick && availableMissions == s.available
    requires s.missions == data.subsystems.rows && s.planets == data.planets.rows
    requires s.sameSystemTimes == SameSystemTimes(data.systems.rows)
    requires forall id :: id in s.available ==> s.linksOf[id] == ValidLinks(data.links, validPlanetIds, id)
    requires last == PreviousStop(s, i)
    ensures entry == EntryAt(s, i) && missionTime == CostAt(s, i)
    ensures missionTime >= 1
  {
    PickValid(s, i);
    CostPositive(s, i);
    var randomSub := availableMissions[pick(2 * i, |availableMissions|)];
    assert randomSub == MissionAt(s, i);
    var validLinks := ValidLinks(data.links, validPlanetIds, randomSub);
    assert pick(2 * i + 1, |validLinks|) == s.pick(2 * i + 1, |validLinks|);
    var randomLink := validLinks[pick(2 * i + 1, |validLinks|)];
    assert randomLink == LinkAt(s, i);
    var planetId := randomLink.to;
    var systemId := data.planets.rows[planetId].parentId;
    var travelTime := TravelTime(last, planetId, systemId, SameSystemTravelTime(data.systems.rows[systemId].name));
    entry := Entry(randomSub, planetId, systemId, travelTime);
    missionTime := data.subsystems.rows[randomSub].time + travelTime;
  }

  /** generatePlaylist (lines 138-212): the filters, then the loop. */
  method GeneratePlaylist(data: MissionData, f: Filters, duration: int, pick: (nat, nat) -> nat)
    returns (playlist: Playlist)
    requires Ready(data) && PicksInRange(pick)
    ensures playlist == Generate(data, f, duration, pick)
  {
    var missionPool := MissionPool(data, f);
    var validPlanetIds := ValidPlanetIds(data, f);
    if missionPool == [] {
      return Playlist([], 0);
    }
    ghost var s := SessionFor(data, f, pick);
    SessionForValid(data, f, pick);
    playlist := FillPlaylist(data, missionPool, validPlanetIds, duration, pick, s);
  }

  /** The loop of generatePlaylist (lines 161-209). */
  method FillPlaylist(data: MissionData, missionPool: seq<Id>, validPlanetIds: seq<Id>, duration: int,
                      pick: (nat, nat) -> nat, ghost s: Session)
    returns (playlist: Playlist)
    requires SessionOf(s, data, missionPool, validPlanetIds, pick)
    ensures playlist == Run(s, duration)
  {
    ghost var costs := StreamCosts(s, Horizon(duration));

    var entries: seq<Entry> := [];
    var remainingTime := duration;
    var last: Option<Stop> := None;
    var totalTime := 0;

    // Pass |entries| makes Math.random calls 2|entries| and 2|entries| + 1.
    while remainingTime > 0
      invariant entries != [] ==> s.available != []
      invariant s.available != [] ==> |entries| <= Taken(costs, duration, 0)
      invariant s.available != [] ==> entries == Entries(s, |entries|)
      invariant s.available != [] ==> totalTime == Sum(costs, |entries|)
      invariant s.available != [] ==> last == PreviousStop(s, |entries|)
      invariant entries == [] ==> totalTime == 0
      invariant remainingTime == duration - totalTime
      decreases remainingTime
    {
      var availableMissions := AvailableMissions(data.links, missionPool, validPlanetIds);
      if availableMissions == [] {
        break;
      }
      var entry, missionTime := DrawEntry(data, validPlanetIds, availableMissions, last, pick, s, |entries|);

      if remainingTime - missionTime < -OVERRUN_ALLOWANCE && |entries| > 0 {
        Refuse(s, costs, duration, |entries|);
        break;
      }
      AdmitsNext(s, costs, duration, |entries|);
      EntriesExtend(s, |entries|);

      entries := entries + [entry];
      remainingTime := remainingTime - missionTime;
      totalTime := totalTime + missionTime;
      last := Some(Stop(entry.planet, entry.system));
    }

    if s.available != [] && remainingTime <= 0 {
      Refuse(s, costs, duration, |entries|);
    }
    playlist := Playlist(entries, totalTime);
  }

  /** The budget takes a pass it admits, and adds the pass's cost. */
  lemma AdmitsNext(s: Session, costs: seq<int>, duration: int, n: nat)
    requires Drawing(s) && costs == Costs(s, Horizon(duration)) && n <= Taken(costs, duration, 0)
    requires duration - Sum(costs, n) > 0
    requires n == 0 || duration - Sum(costs, n) - CostAt(s, n) >= -OVERRUN_ALLOWANCE
    ensures n + 1 <= Taken(costs, duration, 0)
    ensures Sum(costs, n + 1) == Sum(costs, n) + CostAt(s, n)
  {
    CostsPositive(s, |costs|);
    TakenWithinHorizon(costs, duration);
    TakesAdmitted(costs, duration, n);
  }

  /** One more pass appends the stream's next entry, whose stop is the
      previous stop of the pass after it. */
  lemma EntriesExtend(s: Session, n: nat)
    ensures Entries(s, n + 1) == Entries(s, n) + [EntryAt(s, n)]
    ensures PreviousStop(s, n + 1) == Some(Stop(EntryAt(s, n).planet, EntryAt(s, n).system))
  {
  }

  /** A pass the budget refuses is where the run stops. */
  lemma Refuse(s: Session, costs: seq<int>, duration: int, n: nat)
    requires Drawing(s) && costs == Costs(s, Horizon(duration)) && n <= Taken(costs, duration, 0)
    requires duration - Sum(costs, n) <= 0 ||
             (n > 0 && duration - Sum(costs, n) - CostAt(s, n) < -OVERRUN_ALLOWANCE)
    ensures n == Taken(costs, duration, 0)
  {
    CostsPositive(s, |costs|);
    TakenWithinHorizon(costs, duration);
    StopsAtFirstRefusal(costs, duration, n);
  }
}
