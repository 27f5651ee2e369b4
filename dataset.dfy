/** The mission graph: four keyed tables and a list of links, as stored in
    missions.json and in the editor's `appData` (script.js:3-9). */
module Dataset {
  import opened Collections

  type Id = string

  datatype MissionType = MissionType(name: string)

  /** A mission, called a "subsystem" in the source. */
  datatype Mission = Mission(
    parentId: Id,
    name: string,
    description: string,
    time: int,
    faction: string,
    alignment: seq<string>,
    disabled: bool)

  datatype StarSystem = StarSystem(name: string)

  datatype Planet = Planet(parentId: Id, name: string)

  /** A directed edge: mission `from` can be done on planet `to`. */
  datatype Link = Link(from: Id, to: Id)

  /** A JavaScript object used as a dictionary: `rows` maps each key to its
      record and `keys` lists the keys in insertion order, which is the order
      Object.keys and Object.values enumerate them in. */
  datatype RawTable<T> = RawTable(keys: seq<Id>, rows: map<Id, T>)

  ghost predicate WellKeyed<T>(t: RawTable<T>)
  {
    && Distinct(t.keys)
    && forall k :: k in t.rows <==> k in t.keys
  }

  type Table<T> = t: RawTable<T> | WellKeyed(t) witness RawTable([], map[])

  function EmptyTable<T>(): (t: Table<T>)
    ensures t.keys == [] && t.rows == map[]
  {
    RawTable([], map[])
  }

  /** `obj[k] = v`: only key k changes; an existing key keeps its place in
      the enumeration order, a new key is enumerated last. */
  function Put<T>(t: Table<T>, k: Id, v: T): (r: Table<T>)
    ensures k in r.rows && r.rows[k] == v
    ensures forall j :: j != k ==> (j in r.rows <==> j in t.rows)
    ensures forall j :: j != k && j in t.rows ==> r.rows[j] == t.rows[j]
    ensures t.keys <= r.keys
    ensures |r.keys| == if k in t.rows then |t.keys| else |t.keys| + 1
  {
    if k in t.rows then RawTable(t.keys, t.rows[k := v])
    else
      var keys := t.keys + [k];
      assert Distinct(keys) by {
        forall i, j | 0 <= i < j < |keys| ensures keys[i] != keys[j] {
          if j == |t.keys| {
            assert keys[i] in t.keys;
          }
        }
      }
      RawTable(keys, t.rows[k := v])
  }

  /** The enumeration order with one key taken out. */
  function KeysWithout(keys: seq<Id>, k: Id): (r: seq<Id>)
    ensures forall j :: j in r <==> j in keys && j != k
  {
    Filter(keys, j => j != k)
  }

  /** `delete obj[k]`: key k is gone, every other key keeps its record and
      the others keep their relative order. */
  function Remove<T>(t: Table<T>, k: Id): (r: Table<T>)
    ensures k !in r.rows
    ensures forall j :: j != k ==> (j in r.rows <==> j in t.rows)
    ensures forall j :: j != k && j in t.rows ==> r.rows[j] == t.rows[j]
    ensures r.keys == KeysWithout(t.keys, k)
  {
    FilterKeepsDistinct(t.keys, j => j != k);
    RawTable(KeysWithout(t.keys, k), t.rows - {k})
  }

  /** The first key, in enumeration order, whose record satisfies p
      (`Object.keys(obj).find(key => p(obj[key]))`); None stands for
      `undefined`. */
  function FirstKeyWhere<T>(t: Table<T>, p: T -> bool): (r: Option<Id>)
    ensures r.None? <==> forall k :: k in t.rows ==> !p(t.rows[k])
    ensures r.Some? ==> r.value in t.rows && p(t.rows[r.value])
    ensures r.Some? ==> exists i :: 0 <= i < |t.keys| && t.keys[i] == r.value &&
                                   forall j :: 0 <= j < i ==> !p(t.rows[t.keys[j]])
  {
    var i := FindIndex(t.keys, k => k in t.rows && p(t.rows[k]));
    if i < |t.keys| then Some(t.keys[i]) else None
  }

  /** The whole dataset (the JSON document of missions.json). */
  datatype MissionData = MissionData(
    missionTypes: Table<MissionType>,
    subsystems: Table<Mission>,
    systems: Table<StarSystem>,
    planets: Table<Planet>,
    links: seq<Link>)
}
