/** The event service's resolvers (msa/event_service/src/graphql.js): the
    check that entities exist, made over the entity service's reply, the
    filter of the `events` query, and the admin-only mutations on the event
    collection. */
module EventService {
  import opened Common
  import opened Lists
  import Store

  /** An event document; the optional fields are those `event.create` may
      leave out. Dates are kept as the text the client sent. */
  datatype Event = Event(evid: string, enabled: Option<bool>, name: string, description: Option<string>,
                         start: Option<string>, location: Option<string>, studentSubmitDeadline: Option<string>,
                         entities: seq<string>)

  function EvidOf(e: Event): string { e.evid }

  // ---------------------------------------------------------------------
  // checking that entities exist
  // ---------------------------------------------------------------------

  const CheckFailedMessage := "Unexpected error occured while checking if entities exist"

  function MissingMessage(enid: string): string
  {
    "Entity " + enid + " does not exist!"
  }

  /** Whether the entity service returned `enid`; each returned entry is an
      entity's enid or null. */
  predicate Known(returned: seq<Option<string>>, enid: string)
  {
    Some(enid) in returned
  }

  /** What `checkEntitiesExist(entities)` does with the reply to its
      `entities(enids)` query: a reply with errors fails as a whole; otherwise
      the first requested enid that was not returned is reported. */
  function ExistenceCheck(entities: seq<string>, reply: Reply<seq<Option<string>>>): (r: Outcome)
    ensures reply.Failed? ==> r == Fail(CheckFailedMessage)
    ensures reply.Answered? ==> (r.Pass? <==> forall i :: 0 <= i < |entities| ==> Known(reply.data, entities[i]))
    ensures reply.Answered? && r.Fail? ==>
      exists k :: 0 <= k < |entities| && r.message == MissingMessage(entities[k]) && !Known(reply.data, entities[k])
                  && forall j :: 0 <= j < k ==> Known(reply.data, entities[j])
  {
    match reply
    case Failed(_) => Fail(CheckFailedMessage)
    case Answered(returned) =>
      match Store.IndexOf(entities, (e: string) => Known(returned, e), false)
      case None => Pass
      case Some(k) => Fail(MissingMessage(entities[k]))
  }

  /** `checkEntitiesExist`: the loop over the requested enids with its early
      throw. */
  method CheckEntitiesExist(entities: seq<string>, reply: Reply<seq<Option<string>>>) returns (r: Outcome)
    ensures r == ExistenceCheck(entities, reply)
  {
    if reply.Failed? {
      return Fail(CheckFailedMessage);
    }
    var enids := reply.data;
    for i := 0 to |entities|
      invariant forall j :: 0 <= j < i ==> Known(enids, entities[j])
    {
      if Some(entities[i]) !in enids {
        ghost var found := Store.IndexOf(entities, (e: string) => Known(enids, e), false);
        assert found == Some(i) by {
          Store.IndexOfFirst(entities, (e: string) => Known(enids, e), false, i);
        }
        return Fail(MissingMessage(entities[i]));
      }
    }
    assert Store.IndexOf(entities, (e: string) => Known(enids, e), false).None?;
    r := Pass;
  }

  /** Asking about more entities can only add missing ones: a check that
      passes for `a + b` passes for `a` and for `b`. */
  lemma ExistenceCheckSplit(a: seq<string>, b: seq<string>, returned: seq<Option<string>>)
    requires ExistenceCheck(a + b, Answered(returned)).Pass?
    ensures ExistenceCheck(a, Answered(returned)).Pass? && ExistenceCheck(b, Answered(returned)).Pass?
  {
    forall i | 0 <= i < |a|
      ensures Known(returned, a[i])
    {
      assert (a + b)[i] == a[i];
    }
    forall i | 0 <= i < |b|
      ensures Known(returned, b[i])
    {
      assert (a + b)[|a| + i] == b[i];
    }
  }

  // ---------------------------------------------------------------------
  // the events query
  // ---------------------------------------------------------------------

  /** The filter object `events` builds: `enabled: true` unless `all`, and
      for a representative `entities: { $in: enid }`. */
  datatype Filter = Filter(enabledOnly: bool, entity: Option<string>)

  function EventsFilter(caller: Claims, all: Option<bool>): (f: Filter)
    ensures f.enabledOnly <==> all != Some(true)
    ensures f.entity.Some? <==> caller.IsRepresentative() && caller.enid.Some?
    ensures f.entity.Some? ==> f.entity == caller.enid
  {
    Filter(all != Some(true), if caller.kind == Some("r") then caller.enid else None)
  }

  /** Whether `Event.find(filter)` returns the event. */
  predicate Matches(e: Event, f: Filter)
    ensures !f.enabledOnly && f.entity.None? ==> Matches(e, f)
    ensures Matches(e, f) && f.enabledOnly ==> e.enabled == Some(true)
    ensures Matches(e, f) && f.entity.Some? ==> f.entity.value in e.entities
  {
    (!f.enabledOnly || e.enabled == Some(true)) && (f.entity.None? || f.entity.value in e.entities)
  }

  /** `events(all)`: the permission check, then `Event.find(filter)`. */
  function Events(events: seq<Event>, caller: Claims, all: Option<bool>, permission: Outcome): (r: Result<seq<Event>>)
    ensures permission.Fail? ==> r == Err(permission.message)
    ensures permission.Pass? ==> r.Ok? && |r.value| <= |events|
    ensures r.Ok? ==> forall i :: 0 <= i < |r.value| ==> r.value[i] in events
    ensures r.Ok? ==> forall i :: 0 <= i < |events| ==>
      (events[i] in r.value <==> Matches(events[i], EventsFilter(caller, all)))
  {
    if permission.Fail? then Err(permission.message)
    else
      var f := EventsFilter(caller, all);
      var found := Store.Where(events, (e: Event) => Matches(e, f));
      assert forall i :: 0 <= i < |found| ==> Matches(found[i], f);
      Ok(found)
  }

  /** A representative only ever sees events listing its entity, and without
      `all` only enabled ones; other callers see every event `all` selects. */
  lemma EventsVisibility(events: seq<Event>, caller: Claims, all: Option<bool>)
    ensures var r := Events(events, caller, all, Pass);
      && (caller.IsRepresentative() && caller.enid.Some? ==>
            forall i :: 0 <= i < |r.value| ==> caller.enid.value in r.value[i].entities)
      && (all != Some(true) ==> forall i :: 0 <= i < |r.value| ==> r.value[i].enabled == Some(true))
      && (!caller.IsRepresentative() && all == Some(true) ==> forall i :: 0 <= i < |events| ==> events[i] in r.value)
  {
    var r := Events(events, caller, all, Pass);
    forall i | 0 <= i < |r.value|
      ensures Matches(r.value[i], EventsFilter(caller, all))
    {
      var k :| 0 <= k < |events| && events[k] == r.value[i];
    }
  }

  /** `event(evid)`: a missing event is null without any check; a found one
      passes the permission check first. */
  function EventById(events: seq<Event>, evid: string, permission: Outcome): (r: Result<Option<Event>>)
    ensures (forall i :: 0 <= i < |events| ==> events[i].evid != evid) ==> r == Ok(None)
    ensures r.Ok? && r.value.Some? ==> r.value.value in events && r.value.value.evid == evid
    ensures r.Err? <==> permission.Fail? && exists i :: 0 <= i < |events| && events[i].evid == evid
  {
    match Store.FindBy(events, EvidOf, evid)
    case None => Ok(None)
    case Some(e) => if permission.Fail? then Err(permission.message) else Ok(Some(e))
  }

  // ---------------------------------------------------------------------
  // mutations
  // ---------------------------------------------------------------------

  const CreateDenied := "UNAUTHORIZED create a new event"
  const UpdateDenied := "UNAUTHORIZED update an event"
  const DeleteDenied := "UNAUTHORIZED create delete an event"
  const AddEntityDenied := "UNAUTHORIZED add an entity to an event"
  const DelEntityDenied := "UNAUTHORIZED delete an entity from an event"
  const EntityCheckFailedMessage := "Unexpected error while checking if entity exists"
  const NoSuchEntityMessage := "Could not find an entity with that enid"

  /** The arguments of `event.create`. */
  datatype NewEvent = NewEvent(enabled: Option<bool>, name: string, description: Option<string>, start: Option<string>,
                               location: Option<string>, studentSubmitDeadline: Option<string>, entities: Option<seq<string>>)

  /** The arguments of `event.update` other than `evid`; `None` is an
      argument not supplied. */
  datatype EventPatch = EventPatch(enabled: Option<bool>, name: Option<string>, description: Option<string>, start: Option<string>,
                                   location: Option<string>, studentSubmitDeadline: Option<string>, entities: Option<seq<string>>)

  /** The event after `$set: args`: the id is kept and every field not
      supplied is unchanged. */
  function PatchEvent(e: Event, p: EventPatch): (v: Event)
    ensures v.evid == e.evid
    ensures v.enabled == OverrideOpt(e.enabled, p.enabled) && v.name == Override(e.name, p.name)
    ensures v.description == OverrideOpt(e.description, p.description) && v.start == OverrideOpt(e.start, p.start)
    ensures v.location == OverrideOpt(e.location, p.location)
    ensures v.studentSubmitDeadline == OverrideOpt(e.studentSubmitDeadline, p.studentSubmitDeadline)
    ensures v.entities == Override(e.entities, p.entities)
    ensures p == EventPatch(None, None, None, None, None, None, None) ==> v == e
  {
    Event(e.evid, OverrideOpt(e.enabled, p.enabled), Override(e.name, p.name), OverrideOpt(e.description, p.description),
          OverrideOpt(e.start, p.start), OverrideOpt(e.location, p.location),
          OverrideOpt(e.studentSubmitDeadline, p.studentSubmitDeadline), Override(e.entities, p.entities))
  }

  /** Patching twice is patching once with the later arguments winning. */
  lemma PatchEventTwice(e: Event, p: EventPatch, q: EventPatch)
    ensures PatchEvent(PatchEvent(e, p), q) == PatchEvent(e, EventPatch(
      OverrideOpt(p.enabled, q.enabled), OverrideOpt(p.name, q.name), OverrideOpt(p.description, q.description),
      OverrideOpt(p.start, q.start), OverrideOpt(p.location, q.location),
      OverrideOpt(p.studentSubmitDeadline, q.studentSubmitDeadline), OverrideOpt(p.entities, q.entities)))
  {
  }

  /** The entities check of `create` and `update`, made only when `entities`
      is supplied (an empty list included). */
  function EntitiesCheck(entities: Option<seq<string>>, reply: Reply<seq<Option<string>>>): (r: Outcome)
    ensures entities.None? ==> r == Pass
    ensures entities.Some? ==> r == ExistenceCheck(entities.value, reply)
    ensures entities == Some([]) ==> r == (if reply.Failed? then Fail(CheckFailedMessage) else Pass)
  {
    if entities.Some? then ExistenceCheck(entities.value, reply) else Pass
  }

  /** The entity list after `$push` or `$pull` of one enid. */
  function WithEntity(e: Event, enid: string, add: bool): (v: Event)
    ensures add ==> v.entities == e.entities + [enid]
    ensures !add ==> enid !in v.entities && |v.entities| == |e.entities| - Count(e.entities, enid)
    ensures v == e.(entities := v.entities)
  {
    e.(entities := if add then e.entities + [enid] else Pull(e.entities, enid))
  }

  /** Removing an entity keeps every other entity, as often as it was there. */
  lemma WithoutEntityKeepsOthers(e: Event, enid: string, other: string)
    requires other != enid
    ensures Count(WithEntity(e, enid, false).entities, other) == Count(e.entities, other)
  {
    PullKeepsOthers(e.entities, enid, other);
  }

  /** The event collection. */
  class EventDb {
    var events: seq<Event>

    constructor (events: seq<Event>)
      ensures this.events == events
    {
      this.events := events;
    }

    /** `event.create`: admins only; the entities are checked when given;
        `newEvid` is the id the database assigns. */
    method Create(caller: Claims, args: NewEvent, reply: Reply<seq<Option<string>>>, newEvid: string) returns (r: Result<Event>)
      modifies this
      ensures !caller.IsAdmin() ==> r == Err(CreateDenied) && events == old(events)
      ensures caller.IsAdmin() && EntitiesCheck(args.entities, reply).Fail? ==>
        r == Err(EntitiesCheck(args.entities, reply).message) && events == old(events)
      ensures caller.IsAdmin() && EntitiesCheck(args.entities, reply).Pass? ==>
        && r == Ok(Event(newEvid, args.enabled, args.name, args.description, args.start, args.location,
                         args.studentSubmitDeadline, Override([], args.entities)))
        && events == old(events) + [r.value]
    {
      if caller.kind != Some("a") {
        return Err(CreateDenied);
      }
      if args.entities.Some? {
        var check := CheckEntitiesExist(args.entities.value, reply);
        if check.Fail? {
          return Err(check.message);
        }
      }
      var e := Event(newEvid, args.enabled, args.name, args.description, args.start, args.location,
                     args.studentSubmitDeadline, Override([], args.entities));
      events := events + [e];
      r := Ok(e);
    }

    /** `event.update`: admins only; the entities are checked when given;
        then `$set` on the event with that id, `null` when there is none. */
    method Update(caller: Claims, evid: string, patch: EventPatch, reply: Reply<seq<Option<string>>>) returns (r: Result<Option<Event>>)
      modifies this
      ensures !caller.IsAdmin() ==> r == Err(UpdateDenied) && events == old(events)
      ensures caller.IsAdmin() && EntitiesCheck(patch.entities, reply).Fail? ==>
        r == Err(EntitiesCheck(patch.entities, reply).message) && events == old(events)
      ensures caller.IsAdmin() && EntitiesCheck(patch.entities, reply).Pass? ==>
        match Store.IndexOf(old(events), EvidOf, evid)
        case None => r == Ok(None) && events == old(events)
        case Some(i) => r == Ok(Some(PatchEvent(old(events)[i], patch))) && events == old(events)[i := r.value.value]
    {
      if caller.kind != Some("a") {
        return Err(UpdateDenied);
      }
      if patch.entities.Some? {
        var check := CheckEntitiesExist(patch.entities.value, reply);
        if check.Fail? {
          return Err(check.message);
        }
      }
      var found := Store.IndexOf(events, EvidOf, evid);
      if found.None? {
        return Ok(None);
      }
      var v := PatchEvent(events[found.value], patch);
      events := events[found.value := v];
      r := Ok(Some(v));
    }

    /** `event.delete`: admins only; removes the event with that id and
        returns it. */
    method Delete(caller: Claims, evid: string) returns (r: Result<Option<Event>>)
      modifies this
      ensures !caller.IsAdmin() ==> r == Err(DeleteDenied) && events == old(events)
      ensures caller.IsAdmin() ==>
        match Store.IndexOf(old(events), EvidOf, evid)
        case None => r == Ok(None) && events == old(events)
        case Some(i) => r == Ok(Some(old(events)[i])) && events == Store.RemoveAt(old(events), i)
    {
      if caller.kind != Some("a") {
        return Err(DeleteDenied);
      }
      var found := Store.IndexOf(events, EvidOf, evid);
      if found.None? {
        return Ok(None);
      }
      r := Ok(Some(events[found.value]));
      events := Store.RemoveAt(events, found.value);
    }

    /** `event.entity.add`: admins only; the entity service must answer
        without errors and know the entity; the enid is then appended, even
        when the event already lists it. `reply` is the entity it returned,
        or null. */
    method AddEntity(caller: Claims, evid: string, enid: string, reply: Reply<Option<string>>) returns (r: Result<Option<Event>>)
      modifies this
      ensures !caller.IsAdmin() ==> r == Err(AddEntityDenied) && events == old(events)
      ensures caller.IsAdmin() && reply.Failed? ==> r == Err(EntityCheckFailedMessage) && events == old(events)
      ensures caller.IsAdmin() && reply == Answered(None) ==> r == Err(NoSuchEntityMessage) && events == old(events)
      ensures caller.IsAdmin() && reply.Answered? && reply.data.Some? ==>
        match Store.IndexOf(old(events), EvidOf, evid)
        case None => r == Ok(None) && events == old(events)
        case Some(i) => r == Ok(Some(WithEntity(old(events)[i], enid, true))) && events == old(events)[i := r.value.value]
    {
      if caller.kind != Some("a") {
        return Err(AddEntityDenied);
      }
      if reply.Failed? {
        return Err(EntityCheckFailedMessage);
      }
      if reply.data.None? {
        return Err(NoSuchEntityMessage);
      }
      var found := Store.IndexOf(events, EvidOf, evid);
      if found.None? {
        return Ok(None);
      }
      var v := WithEntity(events[found.value], enid, true);
      events := events[found.value := v];
      r := Ok(Some(v));
    }

    /** `event.entity.del`: admins only; every occurrence of the enid is
        pulled from the event's list. */
    method DelEntity(caller: Claims, evid: string, enid: string) returns (r: Result<Option<Event>>)
      modifies this
      ensures !caller.IsAdmin() ==> r == Err(DelEntityDenied) && events == old(events)
      ensures caller.IsAdmin() ==>
        match Store.IndexOf(old(events), EvidOf, evid)
        case None => r == Ok(None) && events == old(events)
        case Some(i) => r == Ok(Some(WithEntity(old(events)[i], enid, false))) && events == old(events)[i := r.value.value]
    {
      if caller.kind != Some("a") {
        return Err(DelEntityDenied);
      }
      var found := Store.IndexOf(events, EvidOf, evid);
      if found.None? {
        return Ok(None);
      }
      var v := WithEntity(events[found.value], enid, false);
      events := events[found.value := v];
      r := Ok(Some(v));
    }
  }
}
