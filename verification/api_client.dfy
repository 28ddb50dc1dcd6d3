/** The browser API client: the request hook that attaches the bearer token,
    the response hook that refreshes an expired access token once and resends
    the request, and the token bookkeeping of login and logout. The server
    and the refresh endpoint are parameters: pure functions from what is sent
    to what comes back. */
module ApiClient {
  import opened Wrappers

  const AccessKey := "access_token"
  const RefreshKey := "refresh_token"

  /** Local storage, as string keys and values. */
  type Storage = map<string, string>

  /** A request config: its Authorization header (None while unset) and the
      `_retry` mark the response hook puts on it. */
  datatype Request = Request(path: string, authorization: Option<string>, retried: bool)

  /** A status code, or no response at all (a network failure). */
  datatype Reply = Response(status: int) | NoResponse

  /** The refresh endpoint: a new access token, or the error it failed with. */
  datatype RefreshReply = Refreshed(access: string) | RefreshFailed(error: Reply)

  /** How the caller's promise settles. */
  datatype Settled = Fulfilled(reply: Reply) | Rejected(reply: Reply)

  /** The settled promise, the storage afterwards, whether the page was sent
      to /login, and how many refreshes and sends the call made. */
  datatype Outcome = Outcome(settled: Settled, storage: Storage, toLogin: bool, refreshes: nat, sends: nat)

  /** The client's default status check: 2xx resolves, anything else rejects. */
  predicate IsSuccess(r: Reply)
  {
    r.Response? && 200 <= r.status < 300
  }

  function Bearer(token: string): string
  {
    "Bearer " + token
  }

  /** A token is attached only when one is stored and it is not the empty
      string (the hook tests the stored value for truthiness). */
  predicate HasAccessToken(storage: Storage)
  {
    AccessKey in storage && storage[AccessKey] != ""
  }

  /** The request hook. */
  function AttachBearer(storage: Storage, req: Request): (r: Request)
    ensures r.path == req.path && r.retried == req.retried
    ensures HasAccessToken(storage) ==> r.authorization == Some(Bearer(storage[AccessKey]))
    ensures !HasAccessToken(storage) ==> r.authorization == req.authorization
  {
    if HasAccessToken(storage) then req.(authorization := Some(Bearer(storage[AccessKey]))) else req
  }

  function StoredRefreshToken(storage: Storage): Option<string>
  {
    if RefreshKey in storage then Some(storage[RefreshKey]) else None
  }

  /** Whether the response hook starts a refresh for this reply to this request. */
  predicate TriggersRefresh(sent: Request, reply: Reply)
  {
    reply == Response(401) && !sent.retried
  }

  /** One call through the client: request hook, transport, response hook. */
  function Send(storage: Storage, req: Request, server: Request -> Reply,
                refresh: Option<string> -> RefreshReply): (o: Outcome)
    decreases if req.retried then 0 else 1
    ensures o.refreshes <= 1 && 1 <= o.sends <= 2
    ensures o.refreshes == 1 <==> TriggersRefresh(req, server(AttachBearer(storage, req)))
    ensures o.sends == 2 ==> o.refreshes == 1
    ensures req.retried ==> o.refreshes == 0 && o.sends == 1 && o.storage == storage && !o.toLogin
    ensures o.toLogin ==> AccessKey !in o.storage && RefreshKey !in o.storage && o.settled.Rejected?
  {
    var sent := AttachBearer(storage, req);
    var reply := server(sent);
    if IsSuccess(reply) then Outcome(Fulfilled(reply), storage, false, 0, 1)
    else if TriggersRefresh(sent, reply) then
      var marked := sent.(retried := true);
      match refresh(StoredRefreshToken(storage))
      case Refreshed(access) =>
        var again := Send(storage[AccessKey := access], marked.(authorization := Some(Bearer(access))),
                          server, refresh);
        again.(refreshes := again.refreshes + 1, sends := again.sends + 1)
      case RefreshFailed(err) =>
        Outcome(Rejected(err), storage - {AccessKey, RefreshKey}, true, 1, 1)
    else Outcome(Rejected(reply), storage, false, 0, 1)
  }

  /** `authAPI.login` after the login call succeeded: keep both tokens. */
  function Login(storage: Storage, access: string, refresh: string): (r: Storage)
    ensures AccessKey in r && r[AccessKey] == access
    ensures RefreshKey in r && r[RefreshKey] == refresh
    ensures forall k :: k in storage && k != AccessKey && k != RefreshKey ==> k in r && r[k] == storage[k]
    ensures r.Keys == storage.Keys + {AccessKey, RefreshKey}
  {
    storage[AccessKey := access][RefreshKey := refresh]
  }

  /** `authAPI.logout`: drop both tokens. */
  function Logout(storage: Storage): (r: Storage)
    ensures AccessKey !in r && RefreshKey !in r
    ensures r.Keys == storage.Keys - {AccessKey, RefreshKey}
    ensures forall k :: k in r ==> r[k] == storage[k]
  {
    storage - {AccessKey, RefreshKey}
  }
}
