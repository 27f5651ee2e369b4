/** The dataset editor (script.js): the operations that change `appData` in
    place, without the DOM around them. Each method of AppData is proved to
    compute a function of the old state; the lemmas below state what those
    functions promise: deletion cascades to links, links never repeat, a
    resubmitted mission keeps its `disabled` flag, toggling twice changes
    nothing, and every operation but Import keeps the links pointing at
    records that exist (an imported file brings its own links, which are
    taken as they are). */
module Editor {
  import opened Collections
  import opened Dataset

  const LEGAL: string := "legal"
  const ILLEGAL: string := "illegal"

  /** The table named by deleteItem's `type` argument. */
  datatype Kind = MissionTypes | Subsystems | Systems | Planets

  // ---------------------------------------------------------------------
  // The operations, on values

  /** deleteItem (script.js:145-153) once the user confirmed: the record
      goes, and so does every link from a deleted mission or into a deleted
      planet; a deleted type or system leaves its children in place. */
  function Deleted(d: MissionData, kind: Kind, id: Id): MissionData
  {
    match kind
    case MissionTypes => d.(missionTypes := Remove(d.missionTypes, id))
    case Subsystems => d.(subsystems := Remove(d.subsystems, id), links := Filter(d.links, LinkNotFrom(id)))
    case Systems => d.(systems := Remove(d.systems, id))
    case Planets => d.(planets := Remove(d.planets, id), links := Filter(d.links, LinkNotTo(id)))
  }

  function LinkNotFrom(id: Id): Link -> bool
  {
    (l: Link) => l.from != id
  }

  function LinkNotTo(id: Id): Link -> bool
  {
    (l: Link) => l.to != id
  }

  /** The alignment tags the subsystem form submits, in the order the two
      check boxes are read (script.js:361-363). */
  function Alignment(legal: bool, illegal: bool): seq<string>
  {
    (if legal then [LEGAL] else []) + (if illegal then [ILLEGAL] else [])
  }

  /** The fields of the subsystem form. */
  datatype MissionForm = MissionForm(
    parentId: Id,
    name: string,
    description: string,
    time: int,
    faction: string,
    legal: bool,
    illegal: bool)

  /** The key a submitted form writes: the id of the record being edited,
      or a fresh one when the hidden id field is empty (script.js:360, 379). */
  function TargetId(editingId: Id, freshId: Id): Id
  {
    if editingId != "" then editingId else freshId
  }

  /** The record written by the subsystem form (script.js:365-373): an
      edited record keeps its `disabled` flag, a new one is enabled. */
  function SubmittedMission(d: MissionData, id: Id, form: MissionForm): Mission
  {
    Mission(form.parentId, form.name, form.description, form.time, form.faction,
            Alignment(form.legal, form.illegal),
            id in d.subsystems.rows && d.subsystems.rows[id].disabled)
  }

  /** The link list after a drag from a mission to a planet (script.js:412-413). */
  function WithLink(links: seq<Link>, l: Link): seq<Link>
  {
    if l in links then links else links + [l]
  }

  /** The link list after `splice(index, 1)` (script.js:345). */
  function WithoutLinkAt(links: seq<Link>, index: nat): seq<Link>
    requires index < |links|
  {
    links[..index] + links[index + 1..]
  }

  /** The subsystems after the disable button of mission id (script.js:230). */
  function Toggled(t: Table<Mission>, id: Id): Table<Mission>
    requires id in t.rows
  {
    Put(t, id, t.rows[id].(disabled := !t.rows[id].disabled))
  }

  /** Whether the link leads into planet id (script.js:262). */
  function IntoPlanet(id: Id): Link -> bool
  {
    (l: Link) => l.to == id
  }

  /** Whether the link's mission exists, is enabled and carries the tag
      (script.js:264-267). */
  function CountsAs(subsystems: map<Id, Mission>, tag: string): Link -> bool
  {
    (l: Link) => l.from in subsystems && !subsystems[l.from].disabled && tag in subsystems[l.from].alignment
  }

  /** A parsed import file: each of the five properties may be missing. */
  datatype Imported = Imported(
    missionTypes: Option<Table<MissionType>>,
    subsystems: Option<Table<Mission>>,
    systems: Option<Table<StarSystem>>,
    planets: Option<Table<Planet>>,
    links: Option<seq<Link>>)

  /** Whether the import check accepts the file (script.js:462). */
  predicate Accepts(imported: Imported)
  {
    imported.missionTypes.Some? && imported.subsystems.Some?
  }

  function OrElse<T>(o: Option<T>, default: T): T
  {
    if o.Some? then o.value else default
  }

  /** The dataset an accepted file becomes; a missing table is read as
      empty. */
  function Adopted(imported: Imported): MissionData
  {
    MissionData(OrElse(imported.missionTypes, EmptyTable()), OrElse(imported.subsystems, EmptyTable()),
                OrElse(imported.systems, EmptyTable()), OrElse(imported.planets, EmptyTable()),
                OrElse(imported.links, []))
  }

  // ---------------------------------------------------------------------
  // The editor's state

  /** `appData` (script.js:3-9). */
  class AppData {
    var missionTypes: Table<MissionType>
    var subsystems: Table<Mission>
    var systems: Table<StarSystem>
    var planets: Table<Planet>
    var links: seq<Link>

    function Data(): MissionData
      reads this
    {
      MissionData(missionTypes, subsystems, systems, planets, links)
    }

    /** The empty dataset the editor starts with. */
    constructor()
      ensures Data() == MissionData(EmptyTable(), EmptyTable(), EmptyTable(), EmptyTable(), [])
    {
      missionTypes := EmptyTable();
      subsystems := EmptyTable();
      systems := EmptyTable();
      planets := EmptyTable();
      links := [];
    }

    /** deleteItem (script.js:145-153), once the user confirmed. */
    method DeleteItem(id: Id, kind: Kind)
      modifies this
      ensures Data() == Deleted(old(Data()), kind, id)
    {
      match kind {
        case MissionTypes => missionTypes := Remove(missionTypes, id);
        case Subsystems => subsystems := Remove(subsystems, id);
        case Systems => systems := Remove(systems, id);
        case Planets => planets := Remove(planets, id);
      }
      if kind == Subsystems {
        links := Filter(links, LinkNotFrom(id));
      }
      if kind == Planets {
        links := Filter(links, LinkNotTo(id));
      }
    }

    /** The add-type form (script.js:356); freshId stands for a newly
        generated id. */
    method AddType(freshId: Id, name: string)
      requires freshId !in missionTypes.rows
      modifies this
      ensures Data() == old(Data()).(missionTypes := Put(old(missionTypes), freshId, MissionType(name)))
    {
      missionTypes := Put(missionTypes, freshId, MissionType(name));
    }

    /** The add-system form (script.js:357). */
    method AddSystem(freshId: Id, name: string)
      requires freshId !in systems.rows
      modifies this
      ensures Data() == old(Data()).(systems := Put(old(systems), freshId, StarSystem(name)))
    {
      systems := Put(systems, freshId, StarSystem(name));
    }

    /** The subsystem form (script.js:358-376): insert or update one record. */
    method SubmitSubsystem(editingId: Id, freshId: Id, form: MissionForm)
      requires editingId == "" ==> freshId !in subsystems.rows
      modifies this
      ensures var id := TargetId(editingId, freshId);
        Data() == old(Data()).(subsystems := Put(old(subsystems), id, SubmittedMission(old(Data()), id, form)))
    {
      var id := if editingId != "" then editingId else freshId;
      var alignment: seq<string> := [];
      if form.legal {
        alignment := alignment + [LEGAL];
      }
      if form.illegal {
        alignment := alignment + [ILLEGAL];
      }
      assert alignment == Alignment(form.legal, form.illegal);
      var disabled := id in subsystems.rows && subsystems.rows[id].disabled;
      subsystems := Put(subsystems, id, Mission(form.parentId, form.name, form.description, form.time,
                                                form.faction, alignment, disabled));
    }

    /** The planet form (script.js:377-386). */
    method SubmitPlanet(editingId: Id, freshId: Id, parentId: Id, name: string)
      requires editingId == "" ==> freshId !in planets.rows
      modifies this
      ensures Data() == old(Data()).(planets := Put(old(planets), TargetId(editingId, freshId), Planet(parentId, name)))
    {
      var id := if editingId != "" then editingId else freshId;
      planets := Put(planets, id, Planet(parentId, name));
    }

    /** The end of a drag from mission `from` to planet `to`
        (script.js:412-413). */
    method AddLink(from: Id, to: Id)
      modifies this
      ensures Data() == old(Data()).(links := WithLink(old(links), Link(from, to)))
    {
      var linkExists := exists l :: l in links && l.from == from && l.to == to;
      if !linkExists {
        links := links + [Link(from, to)];
      }
    }

    /** A click on the link drawn for element `index`, once the user
        confirmed (script.js:343-346). */
    method RemoveLinkAt(index: nat)
      requires index < |links|
      modifies this
      ensures Data() == old(Data()).(links := WithoutLinkAt(old(links), index))
    {
      links := links[..index] + links[index + 1..];
    }

    /** The disable button of mission id (script.js:229-232). */
    method ToggleDisabled(id: Id)
      requires id in subsystems.rows
      modifies this
      ensures Data() == old(Data()).(subsystems := Toggled(old(subsystems), id))
    {
      var sub := subsystems.rows[id];
      subsystems := Put(subsystems, id, sub.(disabled := !sub.disabled));
    }

    /** The mission counts shown on planet id's node (script.js:258-269):
        the enabled missions linked into the planet that carry each tag. */
    method PlanetMissionCounts(id: Id) returns (legalCount: nat, illegalCount: nat)
      ensures legalCount == |Filter(links, Both(IntoPlanet(id), CountsAs(subsystems.rows, LEGAL)))|
      ensures illegalCount == |Filter(links, Both(IntoPlanet(id), CountsAs(subsystems.rows, ILLEGAL)))|
    {
      legalCount, illegalCount := 0, 0;
      var into := Filter(links, IntoPlanet(id));
      var i := 0;
      while i < |into|
        invariant 0 <= i <= |into|
        invariant legalCount == |Filter(into[..i], CountsAs(subsystems.rows, LEGAL))|
        invariant illegalCount == |Filter(into[..i], CountsAs(subsystems.rows, ILLEGAL))|
      {
        var link := into[i];
        FilterConcat(into[..i], [link], CountsAs(subsystems.rows, LEGAL));
        FilterConcat(into[..i], [link], CountsAs(subsystems.rows, ILLEGAL));
        assert into[..i + 1] == into[..i] + [link];
        if link.from in subsystems.rows {
          var sub := subsystems.rows[link.from];
          if !sub.disabled {
            if LEGAL in sub.alignment {
              legalCount := legalCount + 1;
            }
            if ILLEGAL in sub.alignment {
              illegalCount := illegalCount + 1;
            }
          }
        }
        i := i + 1;
      }
      assert into[..i] == into;
      FilterFilter(links, IntoPlanet(id), CountsAs(subsystems.rows, LEGAL));
      FilterFilter(links, IntoPlanet(id), CountsAs(subsystems.rows, ILLEGAL));
    }

    /** The import check (script.js:460-467) on an already parsed file:
        the whole dataset is replaced only when the file has both mission
        types and subsystems. */
    method Import(imported: Imported) returns (accepted: bool)
      modifies this
      ensures accepted == Accepts(imported)
      ensures accepted ==> Data() == Adopted(imported)
      ensures !accepted ==> Data() == old(Data())
    {
      accepted := imported.missionTypes.Some? && imported.subsystems.Some?;
      if accepted {
        missionTypes := imported.missionTypes.value;
        subsystems := imported.subsystems.value;
        systems := OrElse(imported.systems, EmptyTable());
        planets := OrElse(imported.planets, EmptyTable());
        links := OrElse(imported.links, []);
      }
    }
  }
}
