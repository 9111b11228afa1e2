/** The entity service's resolvers (entity_service/src/graphql.js): lookups
    by id, the admin-only create, delete and import, and the update open to
    the entity's own representatives. The entity collection is a sequence of
    documents; the project service's reply and the parsed CSV file enter as
    values. */
module EntityService {
  import opened Common
  import Store

  datatype Contact = Contact(kind: Option<string>, content: Option<string>)

  /** An entity document; `kind` is the `type` field. */
  datatype Entity = Entity(enid: string, name: Option<string>, description: Option<string>, kind: Option<string>,
                           contact: seq<Contact>, externalId: Option<int>)

  function EnidOf(e: Entity): string { e.enid }

  // ---------------------------------------------------------------------
  // queries
  // ---------------------------------------------------------------------

  /** `entity(enid)`: `Entity.findById`. */
  function EntityById(entities: seq<Entity>, enid: string): (r: Option<Entity>)
    ensures r.Some? ==> r.value in entities && r.value.enid == enid
    ensures r.None? <==> forall i :: 0 <= i < |entities| ==> entities[i].enid != enid
  {
    Store.FindBy(entities, EnidOf, enid)
  }

  /** `entities(enids)`: `find({ _id: { $in: enids } })`, in the collection's
      order, not the order of `enids`, and each entity once however often it
      is asked for. */
  function EntitiesById(entities: seq<Entity>, enids: seq<string>): (r: seq<Entity>)
    ensures forall i :: 0 <= i < |r| ==> r[i].enid in enids && r[i] in entities
    ensures forall i :: 0 <= i < |entities| && entities[i].enid in enids ==> entities[i] in r
    ensures |r| <= |entities|
  {
    Store.Where(entities, (e: Entity) => e.enid in enids)
  }

  // ---------------------------------------------------------------------
  // guards and updates
  // ---------------------------------------------------------------------

  const CreateDenied := "UNAUTHORIZED create entities"
  const UpdateDenied := "UNAUTHORIZED update this entity"
  const DeleteDenied := "UNAUTHORIZED delete entities"
  const ImportDenied := "UNAUTHORIZED import entities"
  const LinkedProjectsMessage := "Deleting all linked projects failed"
  const CompanyType := "company"

  /** `entity.update`: an admin, or a representative of this entity. */
  function UpdateCheck(caller: Claims, enid: string): (r: Outcome)
    ensures r.Pass? <==> caller.IsAdmin() || (caller.IsRepresentative() && caller.enid == Some(enid))
    ensures r.Fail? ==> r.message == UpdateDenied
    ensures caller.IsStudent() ==> r.Fail?
  {
    if caller.kind == Some("a") || (caller.kind == Some("r") && caller.enid == Some(enid)) then Pass
    else Fail(UpdateDenied)
  }

  /** The arguments of `entity.create`. */
  datatype NewEntity = NewEntity(name: string, description: Option<string>, kind: string,
                                 contact: Option<seq<Contact>>, externalId: Option<int>)

  /** The arguments of `entity.update` other than `enid`. */
  datatype EntityPatch = EntityPatch(name: Option<string>, description: Option<string>, kind: Option<string>,
                                     contact: Option<seq<Contact>>, externalId: Option<int>)

  /** The entity after `$set: args`: the id is kept and every field not
      supplied is unchanged. */
  function PatchEntity(e: Entity, p: EntityPatch): (v: Entity)
    ensures v.enid == e.enid
    ensures v.name == OverrideOpt(e.name, p.name) && v.description == OverrideOpt(e.description, p.description)
    ensures v.kind == OverrideOpt(e.kind, p.kind) && v.contact == Override(e.contact, p.contact)
    ensures v.externalId == OverrideOpt(e.externalId, p.externalId)
    ensures p == EntityPatch(None, None, None, None, None) ==> v == e
  {
    Entity(e.enid, OverrideOpt(e.name, p.name), OverrideOpt(e.description, p.description), OverrideOpt(e.kind, p.kind),
           Override(e.contact, p.contact), OverrideOpt(e.externalId, p.externalId))
  }

  /** The project service's answer to `project.deleteOfEntity`: `data.project`
      (null or an object) and its `deleteOfEntity` field (null or a boolean). */
  type ProjectReply = Reply<Option<Option<bool>>>

  /** The condition under which `entity.delete` goes on to delete the entity. */
  function LinkedProjectsCheck(reply: ProjectReply): (r: Outcome)
    ensures r.Pass? <==> reply == Answered(Some(Some(true)))
    ensures r.Fail? ==> r.message == LinkedProjectsMessage
  {
    if reply.Failed? || reply.data.None? || reply.data.value != Some(true) then Fail(LinkedProjectsMessage) else Pass
  }

  // ---------------------------------------------------------------------
  // import
  // ---------------------------------------------------------------------

  /** One row of the CSV file, with the configured name and id columns. */
  datatype CsvRecord = CsvRecord(name: string, externalId: int)

  predicate HasExternalId(entities: seq<Entity>, id: int)
  {
    exists i :: 0 <= i < |entities| && entities[i].externalId == Some(id)
  }

  /** What one row of the import yields: null when an entity with its
      external id already exists, the new company otherwise. */
  function ImportOne(before: seq<Entity>, record: CsvRecord, newEnid: string): (r: Option<Entity>)
    ensures r.None? <==> HasExternalId(before, record.externalId)
    ensures r.Some? ==> r.value == Entity(newEnid, Some(record.name), None, Some(CompanyType), [], Some(record.externalId))
  {
    if HasExternalIdCheck(before, record.externalId) then None
    else Some(Entity(newEnid, Some(record.name), None, Some(CompanyType), [], Some(record.externalId)))
  }

  /** `Entity.find({ external_id }).length > 0`, computed. */
  function HasExternalIdCheck(entities: seq<Entity>, id: int): (b: bool)
    ensures b <==> HasExternalId(entities, id)
  {
    Store.IndexOf(entities, (e: Entity) => e.externalId, Some(id)).Some?
  }

  /** The result of the import, one element per row in row order. */
  function ImportResults(before: seq<Entity>, records: seq<CsvRecord>, newEnids: seq<string>): (r: seq<Option<Entity>>)
    requires |newEnids| == |records|
    ensures |r| == |records|
    ensures forall i :: 0 <= i < |records| ==> r[i] == ImportOne(before, records[i], newEnids[i])
  {
    seq(|records|, i requires 0 <= i < |records| => ImportOne(before, records[i], newEnids[i]))
  }

  lemma ImportResultsAre(before: seq<Entity>, records: seq<CsvRecord>, newEnids: seq<string>, results: seq<Option<Entity>>)
    requires |newEnids| == |records| && |results| == |records|
    requires forall k :: 0 <= k < |records| ==> results[k] == ImportOne(before, records[k], newEnids[k])
    ensures results == ImportResults(before, records, newEnids)
  {
  }

  /** The results of the first rows, extended by the next row's. */
  lemma ImportStep(before: seq<Entity>, records: seq<CsvRecord>, newEnids: seq<string>, results: seq<Option<Entity>>, one: Option<Entity>)
    requires |newEnids| == |records| && |results| < |records|
    requires forall k :: 0 <= k < |results| ==> results[k] == ImportOne(before, records[k], newEnids[k])
    requires one == ImportOne(before, records[|results|], newEnids[|results|])
    ensures forall k :: 0 <= k < |results| + 1 ==> (results + [one])[k] == ImportOne(before, records[k], newEnids[k])
  {
  }

  /** The entities a result list created, in order. */
  function Created(results: seq<Option<Entity>>): seq<Entity>
  {
    if results == [] then []
    else Created(results[..|results| - 1]) + (if results[|results| - 1].Some? then [results[|results| - 1].value] else [])
  }

  /** One more result adds its entity, if any, at the end. */
  lemma CreatedSnoc(results: seq<Option<Entity>>, one: Option<Entity>)
    ensures Created(results + [one]) == Created(results) + (if one.Some? then [one.value] else [])
  {
    assert (results + [one])[..|results|] == results;
  }

  lemma {:induction false} CreatedMembers(results: seq<Option<Entity>>, k: nat)
    requires k < |results| && results[k].Some?
    ensures results[k].value in Created(results)
  {
    var init := results[..|results| - 1];
    if k < |results| - 1 {
      assert init[k] == results[k];
      CreatedMembers(init, k);
    }
  }

  /** Every entity the import creates is a company whose external id was
      not stored before. */
  lemma {:induction false} CreatedFresh(before: seq<Entity>, results: seq<Option<Entity>>, records: seq<CsvRecord>, newEnids: seq<string>)
    requires |newEnids| == |records| && |results| <= |records|
    requires forall k :: 0 <= k < |results| ==> results[k] == ImportOne(before, records[k], newEnids[k])
    ensures forall j :: 0 <= j < |Created(results)| ==>
      && Created(results)[j].kind == Some(CompanyType) && Created(results)[j].externalId.Some?
      && !HasExternalId(before, Created(results)[j].externalId.value)
  {
    if results != [] {
      var n := |results| - 1;
      var init := results[..n];
      assert forall k :: 0 <= k < |init| ==> init[k] == results[k];
      CreatedFresh(before, init, records, newEnids);
      var c := Created(results);
      var tail := if results[n].Some? then [results[n].value] else [];
      assert c == Created(init) + tail;
      forall j | 0 <= j < |c|
        ensures c[j].kind == Some(CompanyType) && c[j].externalId.Some? && !HasExternalId(before, c[j].externalId.value)
      {
        if j < |Created(init)| {
          assert c[j] == Created(init)[j];
        } else {
          assert c[j] == results[n].value;
        }
      }
    }
  }

  lemma {:induction false} CreatedBound(results: seq<Option<Entity>>)
    ensures |Created(results)| <= |results|
  {
    if results != [] {
      CreatedBound(results[..|results| - 1]);
    }
  }

  /** Importing the same file again creates nothing: every row of the first
      import now has its external id in the collection. */
  lemma ImportTwice(before: seq<Entity>, records: seq<CsvRecord>, ids1: seq<string>, ids2: seq<string>)
    requires |ids1| == |records| && |ids2| == |records|
    ensures var after := before + Created(ImportResults(before, records, ids1));
      forall i :: 0 <= i < |records| ==> ImportResults(after, records, ids2)[i].None?
  {
    var results := ImportResults(before, records, ids1);
    var after := before + Created(results);
    forall i | 0 <= i < |records|
      ensures HasExternalId(after, records[i].externalId)
    {
      if HasExternalId(before, records[i].externalId) {
        var j :| 0 <= j < |before| && before[j].externalId == Some(records[i].externalId);
        assert after[j] == before[j];
      } else {
        CreatedMembers(results, i);
        var e := results[i].value;
        var j :| 0 <= j < |Created(results)| && Created(results)[j] == e;
        assert after[|before| + j] == e;
      }
    }
  }

  // ---------------------------------------------------------------------
  // the store and the mutations
  // ---------------------------------------------------------------------

  class EntityDb {
    var entities: seq<Entity>

    constructor (entities: seq<Entity>)
      ensures this.entities == entities
    {
      this.entities := entities;
    }

    /** `entity.create`: admins only; `newEnid` is the id the database
        assigns. */
    method Create(caller: Claims, args: NewEntity, newEnid: string) returns (r: Result<Entity>)
      modifies this
      ensures !caller.IsAdmin() ==> r == Err(CreateDenied) && entities == old(entities)
      ensures caller.IsAdmin() ==>
        && r == Ok(Entity(newEnid, Some(args.name), args.description, Some(args.kind), Override([], args.contact), args.externalId))
        && entities == old(entities) + [r.value]
    {
      if caller.kind != Some("a") {
        return Err(CreateDenied);
      }
      var e := Entity(newEnid, Some(args.name), args.description, Some(args.kind), Override([], args.contact), args.externalId);
      entities := entities + [e];
      r := Ok(e);
    }

    /** `entity.update`: the check, then `$set` on the entity with that id,
        `null` when there is none. */
    method Update(caller: Claims, enid: string, patch: EntityPatch) returns (r: Result<Option<Entity>>)
      modifies this
      ensures UpdateCheck(caller, enid).Fail? ==> r == Err(UpdateDenied) && entities == old(entities)
      ensures UpdateCheck(caller, enid).Pass? ==>
        match Store.IndexOf(old(entities), EnidOf, enid)
        case None => r == Ok(None) && entities == old(entities)
        case Some(i) => r == Ok(Some(PatchEntity(old(entities)[i], patch))) && entities == old(entities)[i := r.value.value]
    {
      var check := UpdateCheck(caller, enid);
      if check.Fail? {
        return Err(check.message);
      }
      var found := Store.IndexOf(entities, EnidOf, enid);
      if found.None? {
        return Ok(None);
      }
      var v := PatchEntity(entities[found.value], patch);
      entities := entities[found.value := v];
      r := Ok(Some(v));
    }

    /** `entity.delete`: admins only; the entity goes only after the project
        service reports that its projects are deleted. */
    method Delete(caller: Claims, enid: string, reply: ProjectReply) returns (r: Result<Option<Entity>>)
      modifies this
      ensures !caller.IsAdmin() ==> r == Err(DeleteDenied) && entities == old(entities)
      ensures caller.IsAdmin() && LinkedProjectsCheck(reply).Fail? ==> r == Err(LinkedProjectsMessage) && entities == old(entities)
      ensures caller.IsAdmin() && LinkedProjectsCheck(reply).Pass? ==>
        match Store.IndexOf(old(entities), EnidOf, enid)
        case None => r == Ok(None) && entities == old(entities)
        case Some(i) => r == Ok(Some(old(entities)[i])) && entities == Store.RemoveAt(old(entities), i)
    {
      if caller.kind != Some("a") {
        return Err(DeleteDenied);
      }
      var check := LinkedProjectsCheck(reply);
      if check.Fail? {
        return Err(check.message);
      }
      var found := Store.IndexOf(entities, EnidOf, enid);
      if found.None? {
        return Ok(None);
      }
      r := Ok(Some(entities[found.value]));
      entities := Store.RemoveAt(entities, found.value);
    }

    /** `entity.import`: admins only; a file that does not parse throws the
        parser's error; otherwise each row is looked up by external id in the
        collection as it was before the import and, when absent, created as a
        company. `newEnids` are the ids the database assigns, one per row. */
    method Import(caller: Claims, parsed: Result<seq<CsvRecord>>, newEnids: seq<string>) returns (r: Result<seq<Option<Entity>>>)
      requires parsed.Ok? ==> |newEnids| == |parsed.value|
      modifies this
      ensures !caller.IsAdmin() ==> r == Err(ImportDenied) && entities == old(entities)
      ensures caller.IsAdmin() && parsed.Err? ==> r == Err(parsed.message) && entities == old(entities)
      ensures caller.IsAdmin() && parsed.Ok? ==>
        && r == Ok(ImportResults(old(entities), parsed.value, newEnids))
        && entities == old(entities) + Created(r.value)
    {
      if caller.kind != Some("a") {
        return Err(ImportDenied);
      }
      if parsed.Err? {
        return Err(parsed.message);
      }
      var records := parsed.value;
      var before := entities;
      var results: seq<Option<Entity>> := [];
      for i := 0 to |records|
        invariant |results| == i
        invariant forall k :: 0 <= k < i ==> results[k] == ImportOne(before, records[k], newEnids[k])
        invariant entities == before + Created(results)
      {
        var found := HasExternalIdCheck(before, records[i].externalId);
        var one: Option<Entity> := None;
        if !found {
          var e := Entity(newEnids[i], Some(records[i].name), None, Some(CompanyType), [], Some(records[i].externalId));
          entities := entities + [e];
          one := Some(e);
        }
        assert one == ImportOne(before, records[i], newEnids[i]);
        CreatedSnoc(results, one);
        ImportStep(before, records, newEnids, results, one);
        results := results + [one];
      }
      ImportResultsAre(before, records, newEnids, results);
      r := Ok(results);
    }
  }
}
