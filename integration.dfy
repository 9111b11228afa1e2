/** How the pieces meet across service boundaries: the header the client
    library sends and the token the gateway verifies, and the entity
    service's `entities` query as the event service's existence check reads
    it. */
module Integration {
  import opened Common
  import ApiClient
  import GatewayAuth
  import EventService
  import EntityService

  /** The gateway verifies exactly the client's token; a client without one
      sends `Bearer null`, and the text `null` is what gets verified. */
  lemma ClientTokenReachesVerifier(apiToken: Option<string>, query: Option<string>,
                                   parse: string -> Result<Claims>, verify: string -> GatewayAuth.Verification)
    ensures GatewayAuth.Authenticate(false, query, parse, Some(ApiClient.AuthorizationHeader(apiToken)), verify).verifiedToken
         == Some(if apiToken.Some? then apiToken.value else "null")
  {
    var h := ApiClient.AuthorizationHeader(apiToken);
    assert GatewayAuth.StartsWithBearer(h);
  }

  /** The entries of the `entities` reply that `checkEntitiesExist` reads:
      the enid of each returned entity. */
  function ReplyEnids(found: seq<EntityService.Entity>): (r: seq<Option<string>>)
    ensures |r| == |found| && forall i :: 0 <= i < |found| ==> r[i] == Some(found[i].enid)
  {
    seq(|found|, i requires 0 <= i < |found| => Some(found[i].enid))
  }

  /** Over a reply without errors, the event service's check passes exactly
      when every requested entity is stored in the entity service. */
  lemma ExistenceCheckMatchesStore(store: seq<EntityService.Entity>, enids: seq<string>)
    ensures var reply := Answered(ReplyEnids(EntityService.EntitiesById(store, enids)));
      EventService.ExistenceCheck(enids, reply).Pass? <==>
      forall i :: 0 <= i < |enids| ==> EntityService.EntityById(store, enids[i]).Some?
  {
    var found := EntityService.EntitiesById(store, enids);
    var returned := ReplyEnids(found);
    forall i | 0 <= i < |enids|
      ensures EventService.Known(returned, enids[i]) <==> EntityService.EntityById(store, enids[i]).Some?
    {
      if EventService.Known(returned, enids[i]) {
        var k :| 0 <= k < |returned| && returned[k] == Some(enids[i]);
        assert found[k].enid == enids[i] && found[k] in store;
      }
      if EntityService.EntityById(store, enids[i]).Some? {
        var e := EntityService.EntityById(store, enids[i]).value;
        var j :| 0 <= j < |store| && store[j] == e;
        assert e.enid in enids;
        var k :| 0 <= k < |found| && found[k] == e;
        assert returned[k] == Some(enids[i]);
      }
    }
  }
}
