/** The database client (pkg/gencosmosdb/cosmosdb/database.go): the account
    credential, the requests its operations hand to the executor, and its
    listing, which is the generic iterator aimed at "dbs". */
module DatabaseClient {
  import opened Protocol
  import opened Service
  import opened Pagination

  datatype Database = Database(
    id: string,
    resourceId: string,
    timestamp: int,
    self: string,
    etag: string,
    collections: string,
    users: string)

  type Databases = Page<Database>

  /** The credential every request of this client and of the clients built
      on it is signed with. */
  datatype Client = Client(account: string, masterKey: seq<bv8>)

  /** The server the database requests go to. */
  type DatabaseServer = ScriptedServer<Database, Databases>

  /** Builds a client from the account name and the base64 master key; the
      key is decoded once, here, by `decode` (standard base64). */
  function NewDatabaseClient(decode: string -> Option<seq<bv8>>, account: string, masterKey: string): (r: Result<Client>)
    ensures r.Err? <==> decode(masterKey).None?
    ensures r.Err? ==> r.error == BadMasterKey
    ensures r.Ok? ==> r.value.account == account && Some(r.value.masterKey) == decode(masterKey)
  {
    match decode(masterKey)
    case None => Err(BadMasterKey)
    case Some(key) => Ok(Client(account, key))
  }

  /** URL path, and resource link, of one database. */
  function DatabasePath(id: string): (path: string)
  {
    "dbs/" + id
  }

  /** Where the database listing goes. */
  const DatabaseListing: ListTarget := ListTarget("dbs", "dbs", "")

  function Create(newdb: Database): (r: Request<Database>)
    ensures r.verb == POST && r.expectedStatus == StatusCreated && r.body == Some(newdb)
    ensures r.path == "dbs" && r.resourceType == "dbs" && r.resourceLink == ""
    ensures r.headers == map[]
  {
    Request(POST, "dbs", "dbs", "", StatusCreated, Some(newdb), map[])
  }

  function Get(id: string): (r: Request<Database>)
    ensures r.verb == GET && r.expectedStatus == StatusOK && r.body == None
    ensures r.path == r.resourceLink == "dbs/" + id && r.resourceType == "dbs"
    ensures r.headers == map[]
  {
    Request(GET, DatabasePath(id), "dbs", DatabasePath(id), StatusOK, None, map[])
  }

  /** The request a delete sends, or the error it returns without sending
      anything: a database without an entity tag cannot be deleted. */
  function Delete(db: Database): (r: Result<Request<Database>>)
    ensures r.Err? <==> db.etag == ""
    ensures r.Err? ==> r.error == ETagRequired
    ensures r.Ok? ==>
      && r.value.verb == DELETE && r.value.expectedStatus == StatusNoContent && r.value.body == None
      && r.value.path == r.value.resourceLink == "dbs/" + db.id && r.value.resourceType == "dbs"
      && r.value.headers.Keys == {IfMatchHeader} && r.value.headers[IfMatchHeader] == db.etag
  {
    if db.etag == "" then Err(ETagRequired)
    else Ok(Request(DELETE, DatabasePath(db.id), "dbs", DatabasePath(db.id), StatusNoContent, None,
                    IfMatchHeaders(db.etag)))
  }

  /** Distinct ids address distinct databases, and a delete addresses the
      database that a get of its id reads. */
  lemma {:induction false} DatabaseAddressing(a: string, b: string, db: Database)
    ensures Get(a).path == Get(b).path <==> a == b
    ensures Delete(db).Ok? ==>
      Delete(db).value.path == Get(db.id).path && Delete(db).value.resourceLink == Get(db.id).resourceLink
  {
    if Get(a).path == Get(b).path {
      assert a == Get(a).path[4..] && b == Get(b).path[4..];
    }
  }

  /** A new, fresh iterator over all databases. */
  method List(server: DatabaseServer) returns (it: ListIterator<Database>)
    ensures fresh(it)
    ensures it.server == server && it.target == DatabaseListing
    ensures it.continuation == "" && !it.done
  {
    it := new ListIterator(server, DatabaseListing);
  }

  /** Every request the database listing sends, from a fresh iterator: GET
      "dbs" with an empty resource link, expecting 200; the first carries no
      continuation header, request i carries one exactly when reply i - 1
      issued a non-empty token. */
  lemma DatabaseListingRequests(replies: seq<Reply<Databases>>, i: nat)
    requires forall j | 0 <= j < |replies| :: replies[j].Answered?
    requires i < |replies|
    ensures var r := ListingRequests(DatabaseListing, "", replies)[i];
      && r.verb == GET && r.expectedStatus == StatusOK
      && r.path == "dbs" && r.resourceType == "dbs" && r.resourceLink == ""
      && (ContinuationHeader in r.headers <==> i > 0 && TokenOf(replies[i - 1]) != "")
  {
    ListingRequestsCarryTokens(DatabaseListing, "", replies, i);
  }
}
