/** Laws of the API client's refresh protocol and token bookkeeping. */
module ApiClientLaws {
  import opened Wrappers
  import opened ApiClient

  /** How a reply settles the caller's promise when the hook lets it through. */
  function SettleDirect(reply: Reply): Settled
  {
    if IsSuccess(reply) then Fulfilled(reply) else Rejected(reply)
  }

  /** A first 401 with a working refresh token: the new access token is
      stored, written into the request's header, and the request, now marked
      as retried, is sent once more; its reply is what the caller gets. */
  lemma RefreshThenResend(storage: Storage, req: Request, server: Request -> Reply,
                          refresh: Option<string> -> RefreshReply, access: string)
    requires !req.retried
    requires server(AttachBearer(storage, req)) == Response(401)
    requires refresh(StoredRefreshToken(storage)) == Refreshed(access)
    ensures var o := Send(storage, req, server, refresh);
            var resent := Request(req.path, Some(Bearer(access)), true);
            o.settled == SettleDirect(server(resent)) &&
            o.storage == storage[AccessKey := access] &&
            o.refreshes == 1 && o.sends == 2 && !o.toLogin
  {
    var marked := AttachBearer(storage, req).(retried := true);
    var retry := marked.(authorization := Some(Bearer(access)));
    assert AttachBearer(storage[AccessKey := access], retry) == Request(req.path, Some(Bearer(access)), true);
  }

  /** A first 401 whose refresh fails: both tokens are dropped, the page goes
      to /login, and the caller gets the refresh error. */
  lemma RefreshFailureLogsOut(storage: Storage, req: Request, server: Request -> Reply,
                              refresh: Option<string> -> RefreshReply, err: Reply)
    requires !req.retried
    requires server(AttachBearer(storage, req)) == Response(401)
    requires refresh(StoredRefreshToken(storage)) == RefreshFailed(err)
    ensures Send(storage, req, server, refresh) ==
              Outcome(Rejected(err), Logout(storage), true, 1, 1)
  {
  }

  /** Every reply other than a first 401 reaches the caller unchanged, with
      storage untouched and no refresh. */
  lemma OtherRepliesPassThrough(storage: Storage, req: Request, server: Request -> Reply,
                                refresh: Option<string> -> RefreshReply)
    requires !TriggersRefresh(req, server(AttachBearer(storage, req)))
    ensures Send(storage, req, server, refresh) ==
              Outcome(SettleDirect(server(AttachBearer(storage, req))), storage, false, 0, 1)
  {
  }

  /** A server that answers 401 to everything: one refresh, one resend, and
      the second 401 is handed to the caller. The failing resend does not
      clear the tokens or leave the page. */
  lemma PersistentUnauthorized(storage: Storage, path: string, access: string)
    ensures var o := Send(storage, Request(path, None, false),
                          (r: Request) => Response(401), (t: Option<string>) => Refreshed(access));
            o.settled == Rejected(Response(401)) &&
            o.refreshes == 1 && o.sends == 2 && !o.toLogin &&
            o.storage == storage[AccessKey := access]
  {
    var server := (r: Request) => Response(401);
    var refresh := (t: Option<string>) => Refreshed(access);
    RefreshThenResend(storage, Request(path, None, false), server, refresh, access);
  }

  /** After logout no token is attached; after login with a non-empty access
      token, that token is. */
  lemma LoginLogoutHeaders(storage: Storage, req: Request, access: string, refresh: string)
    ensures AttachBearer(Logout(storage), req) == req
    ensures access != "" ==> AttachBearer(Login(storage, access, refresh), req).authorization == Some(Bearer(access))
    ensures StoredRefreshToken(Login(storage, access, refresh)) == Some(refresh)
    ensures StoredRefreshToken(Logout(storage)) == None
  {
  }
}
