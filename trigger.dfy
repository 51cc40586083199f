/** The trigger client (pkg/gencosmosdb/cosmosdb/trigger.go): a client for the
    triggers of one collection, sharing the database client's credential,
    whose requests all live under the collection's path. */
module TriggerClient {
  import opened Protocol
  import opened Service
  import opened Pagination
  import DatabaseClient

  /** The trigger's operation and type travel as their string values. */
  datatype Trigger = Trigger(
    id: string,
    resourceId: string,
    timestamp: int,
    self: string,
    etag: string,
    body: string,
    triggerOperation: string,
    triggerType: string)

  type Triggers = Page<Trigger>

  /** The two things a trigger client takes from the collection client it is
      built from: the shared credential and the database's path. */
  datatype CollectionClient = CollectionClient(db: DatabaseClient.Client, path: string)

  /** `path` is the collection's own path, the parent of every trigger. */
  datatype Client = Client(db: DatabaseClient.Client, path: string)

  /** The server the trigger requests go to. */
  type TriggerServer = ScriptedServer<Trigger, Triggers>

  function NewTriggerClient(collc: CollectionClient, collid: string): (c: Client)
    ensures c.db == collc.db
    ensures c.path == collc.path + "/colls/" + collid
  {
    Client(collc.db, collc.path + "/colls/" + collid)
  }

  /** URL path, and resource link, of one trigger of the collection. */
  function TriggerPath(c: Client, id: string): (path: string)
  {
    c.path + "/triggers/" + id
  }

  /** Where the trigger listing goes: the collection's triggers, signed
      against the collection itself. */
  function TriggerListing(c: Client): (target: ListTarget)
  {
    ListTarget(c.path + "/triggers", "triggers", c.path)
  }

  function Create(c: Client, newtrigger: Trigger): (r: Request<Trigger>)
    ensures r.verb == POST && r.expectedStatus == StatusCreated && r.body == Some(newtrigger)
    ensures r.path == c.path + "/triggers" && r.resourceType == "triggers" && r.resourceLink == c.path
    ensures r.headers == map[]
  {
    Request(POST, c.path + "/triggers", "triggers", c.path, StatusCreated, Some(newtrigger), map[])
  }

  function Get(c: Client, id: string): (r: Request<Trigger>)
    ensures r.verb == GET && r.expectedStatus == StatusOK && r.body == None
    ensures r.path == r.resourceLink == c.path + "/triggers/" + id && r.resourceType == "triggers"
    ensures r.headers == map[]
  {
    Request(GET, TriggerPath(c, id), "triggers", TriggerPath(c, id), StatusOK, None, map[])
  }

  /** The request a delete sends, or the error it returns without sending
      anything: a trigger without an entity tag cannot be deleted. */
  function Delete(c: Client, trigger: Trigger): (r: Result<Request<Trigger>>)
    ensures r.Err? <==> trigger.etag == ""
    ensures r.Err? ==> r.error == ETagRequired
    ensures r.Ok? ==>
      && r.value.verb == DELETE && r.value.expectedStatus == StatusNoContent && r.value.body == None
      && r.value.path == r.value.resourceLink == c.path + "/triggers/" + trigger.id
      && r.value.resourceType == "triggers"
      && r.value.headers.Keys == {IfMatchHeader} && r.value.headers[IfMatchHeader] == trigger.etag
  {
    if trigger.etag == "" then Err(ETagRequired)
    else Ok(Request(DELETE, TriggerPath(c, trigger.id), "triggers", TriggerPath(c, trigger.id),
                    StatusNoContent, None, IfMatchHeaders(trigger.etag)))
  }

  /** Replace as the client writes it: a POST to the trigger's own path,
      expecting 201, with no entity-tag check and no `If-Match` header. */
  function Replace(c: Client, newtrigger: Trigger): (r: Request<Trigger>)
    ensures r.verb == POST && r.expectedStatus == StatusCreated && r.body == Some(newtrigger)
    ensures r.path == r.resourceLink == c.path + "/triggers/" + newtrigger.id
    ensures r.resourceType == "triggers"
    ensures IfMatchHeader !in r.headers
  {
    Request(POST, TriggerPath(c, newtrigger.id), "triggers", TriggerPath(c, newtrigger.id),
            StatusCreated, Some(newtrigger), map[])
  }

  /** How the trigger requests relate: the entity operations all address the
      collection's trigger path followed by "/" and the trigger's id, which
      determines the id; create and listing share the collection's trigger
      path and are signed against the collection; and a trigger client's
      paths are the collection client's path with the collection added. */
  lemma {:induction false} TriggerAddressing(collc: CollectionClient, collid: string, t: Trigger, a: string, b: string)
    ensures var c := NewTriggerClient(collc, collid);
      && Get(c, a).path == Create(c, t).path + "/" + a
      && (Get(c, a).path == Get(c, b).path <==> a == b)
      && Replace(c, t).path == Get(c, t.id).path
      && (Delete(c, t).Ok? ==> Delete(c, t).value.path == Get(c, t.id).path)
      && TriggerListing(c).path == Create(c, t).path
      && TriggerListing(c).resourceLink == Create(c, t).resourceLink == c.path
      && Get(c, a).path == collc.path + "/colls/" + collid + "/triggers/" + a
  {
    var c := NewTriggerClient(collc, collid);
    var prefix := c.path + "/triggers/";
    assert "/triggers/" == "/triggers" + "/";
    if Get(c, a).path == Get(c, b).path {
      assert a == Get(c, a).path[|prefix|..] && b == Get(c, b).path[|prefix|..];
    }
  }

  /** A new, fresh iterator over the collection's triggers. */
  method List(c: Client, server: TriggerServer) returns (it: ListIterator<Trigger>)
    ensures fresh(it)
    ensures it.server == server && it.target == TriggerListing(c)
    ensures it.continuation == "" && !it.done
  {
    it := new ListIterator(server, TriggerListing(c));
  }

  /** Lists every trigger of the collection: a fresh iterator, drained. */
  method ListAll(c: Client, server: TriggerServer) returns (r: Result<Triggers>)
    modifies server
    ensures var (s, result) := Collect(TriggerListing(c), Session(Fresh, old(server.script), old(server.log)), EmptyPage());
      r == result && server.script == s.script && server.log == s.log
  {
    var it := List(c, server);
    r := CollectAll(it);
  }

  /** Every request the trigger listing sends, from a fresh iterator: GET on
      the collection's trigger path, signed against the collection, expecting
      200; the first carries no continuation header, request i carries one
      exactly when reply i - 1 issued a non-empty token. */
  lemma TriggerListingRequests(c: Client, replies: seq<Reply<Triggers>>, i: nat)
    requires forall j | 0 <= j < |replies| :: replies[j].Answered?
    requires i < |replies|
    ensures var r := ListingRequests(TriggerListing(c), "", replies)[i];
      && r.verb == GET && r.expectedStatus == StatusOK
      && r.path == c.path + "/triggers" && r.resourceType == "triggers" && r.resourceLink == c.path
      && (ContinuationHeader in r.headers <==> i > 0 && TokenOf(replies[i - 1]) != "")
  {
    ListingRequestsCarryTokens(TriggerListing(c), "", replies, i);
  }
}
