/** What the editor's operations promise (script.js), proved about the
    functions the AppData methods are shown to compute. */
module EditorProperties {
  import opened Collections
  import opened Dataset
  import opened Editor

  /** Every link leads from a mission that exists to a planet that exists. */
  ghost predicate LinksResolve(d: MissionData)
  {
    forall l :: l in d.links ==> l.from in d.subsystems.rows && l.to in d.planets.rows
  }

  // ---------------------------------------------------------------------
  // Deletion

  /** Deleting a mission removes its record and exactly the links from it;
      every other link stays, as often as it occurred and in its order
      (script.js:148-149). */
  lemma DeleteMissionCascades(d: MissionData, id: Id)
    ensures var r := Deleted(d, Subsystems, id);
      && id !in r.subsystems.rows
      && (forall k :: k != id ==> (k in r.subsystems.rows <==> k in d.subsystems.rows))
      && (forall l: Link :: l in r.links <==> l in d.links && l.from != id)
      && (forall l: Link :: l.from != id ==> multiset(r.links)[l] == multiset(d.links)[l])
      && r.links == Filter(d.links, LinkNotFrom(id))
      && r.missionTypes == d.missionTypes && r.systems == d.systems && r.planets == d.planets
  {
    forall l: Link | l.from != id ensures multiset(Deleted(d, Subsystems, id).links)[l] == multiset(d.links)[l] {
      FilterMultiplicity(d.links, LinkNotFrom(id), l);
    }
  }

  /** Deleting a planet removes its record and exactly the links into it;
      every other link stays, as often as it occurred and in its order
      (script.js:148, 150). */
  lemma DeletePlanetCascades(d: MissionData, id: Id)
    ensures var r := Deleted(d, Planets, id);
      && id !in r.planets.rows
      && (forall k :: k != id ==> (k in r.planets.rows <==> k in d.planets.rows))
      && (forall l: Link :: l in r.links <==> l in d.links && l.to != id)
      && (forall l: Link :: l.to != id ==> multiset(r.links)[l] == multiset(d.links)[l])
      && r.links == Filter(d.links, LinkNotTo(id))
      && r.missionTypes == d.missionTypes && r.subsystems == d.subsystems && r.systems == d.systems
  {
    forall l: Link | l.to != id ensures multiset(Deleted(d, Planets, id).links)[l] == multiset(d.links)[l] {
      FilterMultiplicity(d.links, LinkNotTo(id), l);
    }
  }

  /** Deleting a mission type or a system removes that record only: the
      links, missions and planets stay, so a child's parentId may no longer
      resolve (script.js:148). */
  lemma DeleteParentLeavesChildren(d: MissionData, kind: Kind, id: Id)
    requires kind == MissionTypes || kind == Systems
    ensures var r := Deleted(d, kind, id);
      && r.links == d.links && r.subsystems == d.subsystems && r.planets == d.planets
      && (kind == MissionTypes ==> id !in r.missionTypes.rows && r.systems == d.systems)
      && (kind == Systems ==> id !in r.systems.rows && r.missionTypes == d.missionTypes)
  {
  }

  /** Deletion keeps every link resolved, and a list without repeated links
      without them. */
  lemma DeleteKeepsLinksSound(d: MissionData, kind: Kind, id: Id)
    ensures LinksResolve(d) ==> LinksResolve(Deleted(d, kind, id))
    ensures Distinct(d.links) ==> Distinct(Deleted(d, kind, id).links)
  {
    if Distinct(d.links) {
      FilterKeepsDistinct(d.links, LinkNotFrom(id));
      FilterKeepsDistinct(d.links, LinkNotTo(id));
    }
  }

  // ---------------------------------------------------------------------
  // Links

  /** A drag adds its link at the end unless an equal link exists, so the
      list never gains a repeated link and grows by at most one
      (script.js:412-413). */
  lemma WithLinkAddsOnce(links: seq<Link>, l: Link)
    ensures var r := WithLink(links, l);
      && l in r && links <= r && |r| <= |links| + 1
      && (l in links <==> r == links)
      && WithLink(r, l) == r
      && (Distinct(links) ==> Distinct(r))
  {
    var r := WithLink(links, l);
    if Distinct(links) && l !in links {
      forall i, j | 0 <= i < j < |r| ensures r[i] != r[j] {
        if j == |links| {
          assert r[i] in links;
        }
      }
    }
  }

  /** `splice(index, 1)` removes the one element at index; the others keep
      their order (script.js:345). */
  lemma WithoutLinkAtRemovesOne(links: seq<Link>, index: nat)
    requires index < |links|
    ensures var r := WithoutLinkAt(links, index);
      && |r| == |links| - 1
      && multiset(r) + multiset{links[index]} == multiset(links)
      && (forall k :: 0 <= k < index ==> r[k] == links[k])
      && (forall k :: index <= k < |r| ==> r[k] == links[k + 1])
      && (Distinct(links) ==> Distinct(r) && links[index] !in r)
  {
    var r := WithoutLinkAt(links, index);
    assert links == links[..index] + [links[index]] + links[index + 1..];
    if Distinct(links) {
      forall i, j | 0 <= i < j < |r| ensures r[i] != r[j] {
        var i', j' := if i < index then i else i + 1, if j < index then j else j + 1;
        assert r[i] == links[i'] && r[j] == links[j'];
      }
      forall k | 0 <= k < |r| ensures r[k] != links[index] {
        var k' := if k < index then k else k + 1;
        assert r[k] == links[k'];
      }
    }
  }

  /** Removing the link a drag just added restores the list. */
  lemma RemoveUndoesAdd(links: seq<Link>, l: Link)
    requires l !in links
    ensures WithoutLinkAt(WithLink(links, l), |links|) == links
  {
    assert (links + [l])[..|links|] == links;
  }

  /** Adding or removing links keeps them resolved when a drag joins a
      mission to a planet that exist. */
  lemma LinkEditsKeepLinksResolved(d: MissionData, l: Link, index: nat)
    requires LinksResolve(d)
    ensures l.from in d.subsystems.rows && l.to in d.planets.rows ==> LinksResolve(d.(links := WithLink(d.links, l)))
    ensures index < |d.links| ==> LinksResolve(d.(links := WithoutLinkAt(d.links, index)))
  {
    if index < |d.links| {
      WithoutLinkAtRemovesOne(d.links, index);
      var r := WithoutLinkAt(d.links, index);
      forall x | x in r ensures x in d.links {
        assert multiset(r)[x] > 0;
      }
    }
  }

  // ---------------------------------------------------------------------
  // Records

  /** Whether the tags are ones the form can submit: each at most once,
      legal first. */
  predicate InFormOrder(a: seq<string>)
  {
    a == [] || a == [LEGAL] || a == [ILLEGAL] || a == [LEGAL, ILLEGAL]
  }

  /** The submitted alignment lists each checked tag once, legal first: an
      ordered sublist of ["legal", "illegal"] (script.js:361-363). */
  lemma AlignmentTags(legal: bool, illegal: bool)
    ensures var a := Alignment(legal, illegal);
      && (LEGAL in a <==> legal) && (ILLEGAL in a <==> illegal)
      && Distinct(a)
      && |a| <= 2 && (|a| == 2 ==> a == [LEGAL, ILLEGAL])
      && InFormOrder(a)
  {
    var a := Alignment(legal, illegal);
    assert LEGAL != ILLEGAL by {
      assert LEGAL[0] != ILLEGAL[0];
    }
  }

  /** The subsystem form as populateSubsystemForm fills it from a record
      (script.js:96-102). */
  function FormOf(m: Mission): (form: MissionForm)
    ensures form.legal <==> LEGAL in m.alignment
    ensures form.illegal <==> ILLEGAL in m.alignment
  {
    MissionForm(m.parentId, m.name, m.description, m.time, m.faction, LEGAL in m.alignment, ILLEGAL in m.alignment)
  }

  /** A resubmitted mission keeps its `disabled` flag and a new one is
      enabled; submitting a record's own form unchanged writes the record
      back, when its tags are in the form's order (script.js:358-373). */
  lemma SubmitKeepsDisabled(d: MissionData, id: Id, form: MissionForm)
    ensures id in d.subsystems.rows ==>
      SubmittedMission(d, id, form).disabled == d.subsystems.rows[id].disabled
    ensures id !in d.subsystems.rows ==> !SubmittedMission(d, id, form).disabled
    ensures id in d.subsystems.rows && InFormOrder(d.subsystems.rows[id].alignment) ==>
      SubmittedMission(d, id, FormOf(d.subsystems.rows[id])) == d.subsystems.rows[id]
  {
    assert LEGAL != ILLEGAL by {
      assert LEGAL[0] != ILLEGAL[0];
    }
  }

  /** The form rebuilds the tags from its two check boxes, legal first, so a
      record whose tags are out of that order comes back reordered. */
  lemma SubmitReordersTags(d: MissionData, id: Id)
    requires id in d.subsystems.rows && d.subsystems.rows[id].alignment == [ILLEGAL, LEGAL]
    ensures SubmittedMission(d, id, FormOf(d.subsystems.rows[id])).alignment == [LEGAL, ILLEGAL]
    ensures SubmittedMission(d, id, FormOf(d.subsystems.rows[id])) != d.subsystems.rows[id]
  {
    assert LEGAL != ILLEGAL by {
      assert LEGAL[0] != ILLEGAL[0];
    }
  }

  /** An upsert writes one key: a new key is enumerated last, an existing
      key keeps its place, and no other record changes. */
  lemma PutWritesOneKey<T>(t: Table<T>, k: Id, v: T)
    ensures var r := Put(t, k, v);
      && r.rows[k] == v
      && (forall j :: j != k ==> (j in r.rows <==> j in t.rows) && (j in t.rows ==> r.rows[j] == t.rows[j]))
      && r.keys == if k in t.rows then t.keys else t.keys + [k]
  {
  }

  /** Adding a type or system, submitting a mission or planet, and the
      disable button keep every link resolved: these only add keys or
      rewrite records in place. */
  lemma UpsertsKeepLinksResolved(d: MissionData, id: Id, t: MissionType, sys: StarSystem, m: Mission, p: Planet)
    requires LinksResolve(d)
    ensures LinksResolve(d.(missionTypes := Put(d.missionTypes, id, t)))
    ensures LinksResolve(d.(systems := Put(d.systems, id, sys)))
    ensures LinksResolve(d.(subsystems := Put(d.subsystems, id, m)))
    ensures LinksResolve(d.(planets := Put(d.planets, id, p)))
    ensures id in d.subsystems.rows ==> LinksResolve(d.(subsystems := Toggled(d.subsystems, id)))
  {
  }

  /** The disable button flips one flag and changes nothing else; pressing
      it twice restores the table (script.js:230). */
  lemma ToggleTwiceRestores(t: Table<Mission>, id: Id)
    requires id in t.rows
    ensures var r := Toggled(t, id);
      && r.keys == t.keys
      && r.rows[id] == t.rows[id].(disabled := !t.rows[id].disabled)
      && (forall j :: j != id ==> (j in r.rows <==> j in t.rows) && (j in t.rows ==> r.rows[j] == t.rows[j]))
      && Toggled(r, id) == t
  {
    var r := Toggled(t, id);
    assert Toggled(r, id).rows == t.rows;
  }

  // ---------------------------------------------------------------------
  // Planet counts

  /** A link counts for a planet's tag exactly when it leads into the
      planet from an existing, enabled mission carrying the tag; a mission
      with both tags counts in both totals (script.js:258-269). */
  lemma CountedLinks(d: MissionData, planetId: Id, tag: string, l: Link)
    ensures l in Filter(d.links, Both(IntoPlanet(planetId), CountsAs(d.subsystems.rows, tag))) <==>
      && l in d.links && l.to == planetId
      && l.from in d.subsystems.rows && !d.subsystems.rows[l.from].disabled
      && tag in d.subsystems.rows[l.from].alignment
  {
  }

  /** A planet never counts more missions of a tag than it has links in. */
  lemma CountsBoundedByLinks(d: MissionData, planetId: Id, tag: string)
    ensures |Filter(d.links, Both(IntoPlanet(planetId), CountsAs(d.subsystems.rows, tag)))|
            <= |Filter(d.links, IntoPlanet(planetId))|
  {
    FilterMonotone(d.links, Both(IntoPlanet(planetId), CountsAs(d.subsystems.rows, tag)), IntoPlanet(planetId));
  }

  /** Disabling a mission never raises a planet's counts. */
  lemma DisablingNeverRaisesCounts(d: MissionData, id: Id, planetId: Id, tag: string)
    requires id in d.subsystems.rows && !d.subsystems.rows[id].disabled
    ensures |Filter(d.links, Both(IntoPlanet(planetId), CountsAs(Toggled(d.subsystems, id).rows, tag)))|
            <= |Filter(d.links, Both(IntoPlanet(planetId), CountsAs(d.subsystems.rows, tag)))|
  {
    FilterMonotone(d.links, Both(IntoPlanet(planetId), CountsAs(Toggled(d.subsystems, id).rows, tag)),
                   Both(IntoPlanet(planetId), CountsAs(d.subsystems.rows, tag)));
  }
}
