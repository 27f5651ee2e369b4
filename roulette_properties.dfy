/** What the playlist generator promises (roulette-script.js:138-212),
    proved about Generate, the function the loop is shown to compute:
    every entry honours the filters and the links, travel is priced by the
    previous stop, the total adds up, and the time budget holds. */
module RouletteProperties {
  import opened Collections
  import opened Dataset
  import opened Budget
  import opened Roulette

  // ---------------------------------------------------------------------
  // Measures of a playlist

  /** The minutes one entry takes: its mission's time plus the travel to it. */
  function EntryMinutes(missions: map<Id, Mission>, e: Entry): int
  {
    (if e.mission in missions then missions[e.mission].time else 0) + e.travelTime
  }

  /** The minutes a list of entries takes, entry by entry. */
  function EntriesTime(missions: map<Id, Mission>, es: seq<Entry>): int
  {
    if es == [] then 0 else EntriesTime(missions, es[..|es| - 1]) + EntryMinutes(missions, es[|es| - 1])
  }

  /** An entry the filters allow: an enabled mission of the chosen alignment
      and type, done on a planet of the chosen system that one of the
      mission's links leads to. */
  ghost predicate Honours(data: MissionData, f: Filters, e: Entry)
  {
    && e.mission in data.subsystems.rows
    && var m := data.subsystems.rows[e.mission];
    && !m.disabled
    && (f.alignment == ANY || f.alignment in m.alignment)
    && (f.missionType == ANY ||
          (TypeKey(data, f.missionType) == Some(m.parentId) &&
           m.parentId in data.missionTypes.rows && data.missionTypes.rows[m.parentId].name == f.missionType))
    && Link(e.mission, e.planet) in data.links
    && e.planet in data.planets.rows
    && e.system == data.planets.rows[e.planet].parentId
    && e.system in data.systems.rows
    && (f.system == ANY ||
          (SystemKey(data, f.system) == Some(e.system) && data.systems.rows[e.system].name == f.system))
  }

  // ---------------------------------------------------------------------
  // The stream, entry by entry

  /** A shorter run is a prefix of a longer one. */
  lemma EntriesPrefix(s: Session, m: nat, n: nat)
    requires m <= n
    ensures Entries(s, m) == Entries(s, n)[..m]
  {
    TabulatePrefix(k => EntryAt(s, k), m, n);
  }

  /** The budget's sum over the stream's costs is the time of its entries. */
  lemma {:induction false} SumIsEntriesTime(s: Session, horizon: nat, n: nat)
    requires n <= horizon
    ensures Sum(Costs(s, horizon), n) == EntriesTime(s.missions, Entries(s, n))
  {
    if n > 0 {
      SumIsEntriesTime(s, horizon, n - 1);
      EntriesExtend(s, n - 1);
      CostIsEntryMinutes(s, n - 1);
      assert Entries(s, n)[..n - 1] == Entries(s, n - 1);
    }
  }

  /** The cost of a pass is the minutes of the entry it draws. */
  lemma CostIsEntryMinutes(s: Session, k: nat)
    ensures CostAt(s, k) == EntryMinutes(s.missions, EntryAt(s, k))
  {
  }

  /** The costs over a shorter horizon are a prefix of those over a longer one. */
  lemma CostsPrefix(s: Session, m: nat, n: nat)
    requires m <= n
    ensures Costs(s, m) <= Costs(s, n)
  {
    assert Costs(s, m) == Costs(s, n)[..m];
  }

  /** What a drawing session's entry k is made of: an available mission,
      one of its valid links, the planet it leads to and that planet's
      system; the travel is priced from the previous entry's stop. */
  lemma EntryInSession(s: Session, k: nat)
    requires Drawing(s)
    ensures var e := EntryAt(s, k);
      && e.mission in s.available
      && e.mission in s.linksOf && Link(e.mission, e.planet) in s.linksOf[e.mission]
      && e.planet in s.planets && e.system == s.planets[e.planet].parentId
      && e.system in s.sameSystemTimes
      && e.travelTime == TravelTime(PreviousStop(s, k), e.planet, e.system, s.sameSystemTimes[e.system])
      && (k > 0 ==> PreviousStop(s, k) == Some(Stop(EntryAt(s, k - 1).planet, EntryAt(s, k - 1).system)))
  {
    PickValid(s, k);
  }

  // ---------------------------------------------------------------------
  // Filters

  /** Only pool missions can be available. */
  lemma AvailableFromPool(data: MissionData, f: Filters)
    ensures Available(data, f) != [] ==> MissionPool(data, f) != []
  {
    var available := Available(data, f);
    if available != [] {
      assert available[0] in available;
    }
  }

  /** A pool mission is an enabled record of the chosen alignment and type. */
  lemma PoolMemberHonours(data: MissionData, f: Filters, id: Id)
    requires id in MissionPool(data, f)
    ensures id in data.subsystems.rows && !data.subsystems.rows[id].disabled
    ensures f.alignment == ANY || f.alignment in data.subsystems.rows[id].alignment
    ensures var t := data.subsystems.rows[id].parentId;
      f.missionType == ANY ||
        (TypeKey(data, f.missionType) == Some(t) &&
         t in data.missionTypes.rows && data.missionTypes.rows[t].name == f.missionType)
  {
  }

  /** A valid planet lies in the chosen system. */
  lemma ValidPlanetHonours(data: MissionData, f: Filters, id: Id)
    requires Ready(data) && id in ValidPlanetIds(data, f)
    ensures id in data.planets.rows && data.planets.rows[id].parentId in data.systems.rows
    ensures var sys := data.planets.rows[id].parentId;
      f.system == ANY || (SystemKey(data, f.system) == Some(sys) && data.systems.rows[sys].name == f.system)
  {
  }

  /** An entry drawn in the session of the filters honours them. */
  lemma SessionEntryHonours(data: MissionData, f: Filters, pick: (nat, nat) -> nat, k: nat)
    requires Ready(data) && PicksInRange(pick)
    requires SessionFor(data, f, pick).available != []
    ensures Honours(data, f, EntryAt(SessionFor(data, f, pick), k))
  {
    var s := SessionFor(data, f, pick);
    SessionForValid(data, f, pick);
    EntryInSession(s, k);
    var e := EntryAt(s, k);
    var l := Link(e.mission, e.planet);
    assert l in ValidLinks(data.links, ValidPlanetIds(data, f), e.mission);
    assert e.mission in MissionPool(data, f);
    PoolMemberHonours(data, f, e.mission);
    ValidPlanetHonours(data, f, e.planet);
  }

  /** Every entry of a generated playlist honours the filters and follows a
      link of the dataset (lines 140-151, 163-175). */
  lemma PlaylistHonoursFilters(data: MissionData, f: Filters, duration: int, pick: (nat, nat) -> nat)
    requires Ready(data) && PicksInRange(pick)
    ensures var es := Generate(data, f, duration, pick).entries;
      forall k :: 0 <= k < |es| ==> Honours(data, f, es[k])
  {
    if MissionPool(data, f) != [] && SessionFor(data, f, pick).available != [] {
      var s := SessionFor(data, f, pick);
      var es := Generate(data, f, duration, pick).entries;
      forall k | 0 <= k < |es| ensures Honours(data, f, es[k]) {
        EntryOfRun(s, |es|, k);
        SessionEntryHonours(data, f, pick, k);
      }
    }
  }

  /** Asking for a mission type no record has leaves the pool empty, and the
      generator returns no entries (lines 144-146, 153). */
  lemma UnknownTypeGivesEmptyPlaylist(data: MissionData, f: Filters, duration: int, pick: (nat, nat) -> nat)
    requires Ready(data) && PicksInRange(pick)
    requires f.missionType != ANY
    requires forall k :: k in data.missionTypes.rows ==> data.missionTypes.rows[k].name != f.missionType
    ensures MissionPool(data, f) == []
    ensures Generate(data, f, duration, pick) == Playlist([], 0)
  {
    NoMembersMeansEmpty(MissionPool(data, f));
  }

  /** Asking for a system no record has leaves no valid planet, and the
      generator returns no entries (lines 148-151, 166). */
  lemma UnknownSystemGivesEmptyPlaylist(data: MissionData, f: Filters, duration: int, pick: (nat, nat) -> nat)
    requires Ready(data) && PicksInRange(pick)
    requires f.system != ANY
    requires forall k :: k in data.systems.rows ==> data.systems.rows[k].name != f.system
    ensures ValidPlanetIds(data, f) == []
    ensures Generate(data, f, duration, pick) == Playlist([], 0)
  {
    NoMembersMeansEmpty(ValidPlanetIds(data, f));
    NoMembersMeansEmpty(Available(data, f));
  }

  // ---------------------------------------------------------------------
  // Travel

  /** The travel table of lines 177-191: nothing before the first entry or
      on the same planet, 9 minutes to another system, and within a system
      5 minutes in Stanton, 7 in Pyro and nothing elsewhere, whatever the
      case of the system's name. */
  lemma TravelTimeTable(last: Option<Stop>, planet: Id, system: Id, systemName: string)
    ensures var t := TravelTime(last, planet, system, SameSystemTravelTime(systemName));
      && t in {0, TRAVEL_TIME_STANTON, TRAVEL_TIME_PYRO, TRAVEL_TIME_CROSS_SYSTEM}
      && (NoPreviousStop(last) ==> t == 0)
      && (!NoPreviousStop(last) ==> (t == TRAVEL_TIME_CROSS_SYSTEM <==> system != last.value.system))
      && (!NoPreviousStop(last) && system == last.value.system && planet == last.value.planet ==> t == 0)
      && (!NoPreviousStop(last) && system == last.value.system && planet != last.value.planet ==>
            && (t == TRAVEL_TIME_STANTON <==> ToLowerCase(systemName) == "stanton")
            && (t == TRAVEL_TIME_PYRO <==> ToLowerCase(systemName) == "pyro"))
  {
  }

  /** The system name is compared without regard to case. */
  lemma SystemNamesIgnoreCase()
    ensures SameSystemTravelTime("Stanton") == TRAVEL_TIME_STANTON
    ensures SameSystemTravelTime("STANTON") == TRAVEL_TIME_STANTON
    ensures SameSystemTravelTime("PYRO") == TRAVEL_TIME_PYRO
    ensures SameSystemTravelTime("Nyx") == 0
  {
    assert ToLowerCase("Stanton") == "stanton";
    assert ToLowerCase("STANTON") == "stanton";
    assert ToLowerCase("PYRO") == "pyro";
    assert ToLowerCase("Nyx") == "nyx";
  }

  /** Lower-casing a name twice is lower-casing it once. */
  lemma LowerCaseTwice(name: string)
    ensures ToLowerCase(ToLowerCase(name)) == ToLowerCase(name)
  {
    var once := ToLowerCase(name);
    forall i | 0 <= i < |once| ensures LowerChar(once[i]) == once[i] {
    }
  }

  /** The same-system travel time reads the system's name without regard
      to case: every spelling of a name that lower-cases alike costs the same. */
  lemma TravelTimeIgnoresCase(name: string, other: string)
    requires ToLowerCase(name) == ToLowerCase(other)
    ensures SameSystemTravelTime(name) == SameSystemTravelTime(other)
    ensures SameSystemTravelTime(ToLowerCase(name)) == SameSystemTravelTime(name)
  {
    LowerCaseTwice(name);
  }

  /** Every capitalisation of "stanton" is priced as Stanton. */
  lemma StantonInAnyCase(name: string)
    requires |name| == 7
    requires forall i :: 0 <= i < 7 ==> name[i] == "stanton"[i] || name[i] == "STANTON"[i]
    ensures SameSystemTravelTime(name) == TRAVEL_TIME_STANTON
  {
    var lower := ToLowerCase(name);
    forall i | 0 <= i < 7 ensures lower[i] == "stanton"[i] { }
    assert lower == "stanton";
  }

  /** The stop an entry of a playlist travels from: none for the first,
      otherwise the planet and system of the entry before it. */
  function StopBefore(es: seq<Entry>, k: nat): (last: Option<Stop>)
    requires k < |es|
    ensures last.None? <==> k == 0
    ensures last.Some? ==> last.value.planet == es[k - 1].planet && last.value.system == es[k - 1].system
  {
    if k == 0 then None else Some(Stop(es[k - 1].planet, es[k - 1].system))
  }

  /** The first entry travels nowhere; every later one is priced from the
      stop of the entry before it, by the system's name (lines 177-191). */
  lemma PlaylistTravelTimes(data: MissionData, f: Filters, duration: int, pick: (nat, nat) -> nat)
    requires Ready(data) && PicksInRange(pick)
    ensures var es := Generate(data, f, duration, pick).entries;
      forall k :: 0 <= k < |es| ==>
        && es[k].system in data.systems.rows
        && es[k].travelTime == TravelTime(StopBefore(es, k), es[k].planet, es[k].system,
                                          SameSystemTravelTime(data.systems.rows[es[k].system].name))
  {
    var es := Generate(data, f, duration, pick).entries;
    forall k | 0 <= k < |es|
      ensures es[k].system in data.systems.rows
      ensures es[k].travelTime == TravelTime(StopBefore(es, k), es[k].planet, es[k].system,
                                             SameSystemTravelTime(data.systems.rows[es[k].system].name))
    {
      EntryTravel(data, f, duration, pick, k);
    }
  }

  /** Entry k of a generated playlist is priced from the stop of entry k - 1. */
  lemma EntryTravel(data: MissionData, f: Filters, duration: int, pick: (nat, nat) -> nat, k: nat)
    requires Ready(data) && PicksInRange(pick) && k < |Generate(data, f, duration, pick).entries|
    ensures var es := Generate(data, f, duration, pick).entries;
      && es[k].system in data.systems.rows
      && es[k].travelTime == TravelTime(StopBefore(es, k), es[k].planet, es[k].system,
                                        SameSystemTravelTime(data.systems.rows[es[k].system].name))
  {
    var s := SessionFor(data, f, pick);
    SessionForValid(data, f, pick);
    var es := Generate(data, f, duration, pick).entries;
    EntryOfRun(s, |es|, k);
    if k > 0 {
      EntryOfRun(s, |es|, k - 1);
    }
    EntryInSession(s, k);
  }

  /** The first entry of a playlist travels nowhere. */
  lemma FirstEntryTravelsNowhere(data: MissionData, f: Filters, duration: int, pick: (nat, nat) -> nat)
    requires Ready(data) && PicksInRange(pick)
    ensures var es := Generate(data, f, duration, pick).entries;
      |es| > 0 ==> es[0].travelTime == 0
  {
    var es := Generate(data, f, duration, pick).entries;
    if |es| > 0 {
      EntryTravel(data, f, duration, pick, 0);
    }
  }

  // ---------------------------------------------------------------------
  // Time budget

  /** The budget facts of a drawing session's run. */
  lemma RunWithinBudget(s: Session, duration: int)
    requires Drawing(s)
    ensures var p := Run(s, duration);
      && p.totalTime == EntriesTime(s.missions, p.entries)
      && (forall k :: 0 <= k < |p.entries| ==> EntriesTime(s.missions, p.entries[..k]) < duration)
      && (|p.entries| >= 2 ==> p.totalTime <= duration + OVERRUN_ALLOWANCE)
      && |p.entries| <= (if duration > 0 then duration else 0)
      && (|p.entries| > 0 <==> duration > 0)
  {
    var costs := Costs(s, Horizon(duration));
    var n := Taken(costs, duration, 0);
    CostsPositive(s, |costs|);
    TakenWithinHorizon(costs, duration);
    FirstAlwaysTaken(costs, duration);
    WithinBudget(costs, duration);
    SumIsEntriesTime(s, |costs|, n);
    forall k | 0 <= k < n ensures EntriesTime(s.missions, Entries(s, n)[..k]) < duration {
      EntriesPrefix(s, k, n);
      SumIsEntriesTime(s, |costs|, k);
    }
  }

  /** The total time of a playlist is the sum of its entries' mission and
      travel times (lines 193, 205); time remained before every entry was
      added (line 162); once there are two entries or more the total runs at
      most OVERRUN_ALLOWANCE minutes past the duration (line 195); there are
      at most `duration` entries. */
  lemma PlaylistWithinBudget(data: MissionData, f: Filters, duration: int, pick: (nat, nat) -> nat)
    requires Ready(data) && PicksInRange(pick)
    ensures var p := Generate(data, f, duration, pick);
      && p.totalTime == EntriesTime(data.subsystems.rows, p.entries)
      && (forall k :: 0 <= k < |p.entries| ==> EntriesTime(data.subsystems.rows, p.entries[..k]) < duration)
      && (|p.entries| >= 2 ==> p.totalTime <= duration + OVERRUN_ALLOWANCE)
      && |p.entries| <= (if duration > 0 then duration else 0)
  {
    if MissionPool(data, f) != [] && SessionFor(data, f, pick).available != [] {
      SessionForValid(data, f, pick);
      RunWithinBudget(SessionFor(data, f, pick), duration);
    }
  }

  /** The first entry is accepted whatever it costs: a playlist is empty
      exactly when no time was asked for or no mission can be drawn
      (lines 153, 162, 166, 195). */
  lemma FirstEntryAlwaysTaken(data: MissionData, f: Filters, duration: int, pick: (nat, nat) -> nat)
    requires Ready(data) && PicksInRange(pick)
    ensures Generate(data, f, duration, pick).entries != [] <==> duration > 0 && Available(data, f) != []
  {
    var available := Available(data, f);
    AvailableFromPool(data, f);
    if MissionPool(data, f) != [] && available != [] {
      SessionForValid(data, f, pick);
      RunWithinBudget(SessionFor(data, f, pick), duration);
    }
  }

  /** The loop stops for a reason: nothing can be drawn, no time remains,
      or the entry it drew next (not the first) would have run more than
      OVERRUN_ALLOWANCE minutes past the duration (lines 162, 166, 195). */
  lemma PlaylistStopsForAReason(data: MissionData, f: Filters, duration: int, pick: (nat, nat) -> nat)
    requires Ready(data) && PicksInRange(pick)
    ensures var p := Generate(data, f, duration, pick);
      var n := |p.entries|;
      || Available(data, f) == []
      || p.totalTime >= duration
      || (n > 0 && p.totalTime + CostAt(SessionFor(data, f, pick), n) > duration + OVERRUN_ALLOWANCE)
  {
    var available := Available(data, f);
    AvailableFromPool(data, f);
    if MissionPool(data, f) != [] && available != [] {
      var s := SessionFor(data, f, pick);
      SessionForValid(data, f, pick);
      var costs := Costs(s, Horizon(duration));
      CostsPositive(s, |costs|);
      TakenWithinHorizon(costs, duration);
      StopsForAReason(costs, duration);
    }
  }

  /** With the same draws, a longer duration extends the playlist a shorter
      one gives: the loop only stops later. */
  lemma LongerDurationExtends(data: MissionData, f: Filters, shorter: int, longer: int, pick: (nat, nat) -> nat)
    requires Ready(data) && PicksInRange(pick) && shorter <= longer
    ensures Generate(data, f, shorter, pick).entries <= Generate(data, f, longer, pick).entries
  {
    if MissionPool(data, f) != [] && SessionFor(data, f, pick).available != [] {
      var s := SessionFor(data, f, pick);
      SessionForValid(data, f, pick);
      var short := Costs(s, Horizon(shorter));
      var long := Costs(s, Horizon(longer));
      CostsPositive(s, |short|);
      TakenWithinHorizon(short, shorter);
      CostsPrefix(s, |short|, |long|);
      TakenIgnoresLaterCosts(short, long, shorter, 0);
      TakenMonotone(long, shorter, longer, 0);
      EntriesPrefix(s, Taken(short, shorter, 0), Taken(long, longer, 0));
    }
  }
}
