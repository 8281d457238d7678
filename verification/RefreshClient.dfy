/** The clients' side of rotation: one refresh in flight at a time, shared by every request that
    saw a 401, and each request retried once (`mobile/src/api/client.ts`, `client/src/lib/api.ts`). */
module RefreshClient {
  import opened Common
  import opened RefreshTokens

  datatype Progress =
    | InFlight             // sent, no answer yet
    | Waiting              // saw a 401, awaits the shared refresh
    | Resumed(ok: bool)    // the refresh has settled; this request has not run on yet
    | Finished(ok: bool)

  datatype Call = Call(authPath: bool, retried: bool, sends: nat, progress: Progress)

  /** `refreshing` is the module variable `refreshPromise` being set. */
  datatype Client = Client(stored: Token, refreshing: bool, calls: map<nat, Call>)

  function Submit(c: Client, i: nat, authPath: bool): Client {
    c.(calls := c.calls[i := Call(authPath, false, 1, InFlight)])
  }

  /** The response interceptor: a first 401 outside the auth endpoints joins the shared refresh,
      starting it when none is in flight. */
  function OnResponse(c: Client, i: nat, unauthorized: bool): Client
    requires i in c.calls
  {
    var call := c.calls[i];
    if !unauthorized then c.(calls := c.calls[i := call.(progress := Finished(true))])
    else if call.retried || call.authPath then c.(calls := c.calls[i := call.(progress := Finished(false))])
    else c.(refreshing := true, calls := c.calls[i := call.(retried := true, progress := Waiting)])
  }

  function Woken(call: Call, ok: bool): Call {
    if call.progress.Waiting? then call.(progress := Resumed(ok)) else call
  }

  /** The refresh settles: the rotated token is stored, the promise is cleared, waiters resume. */
  function OnSettled(c: Client, rotated: Option<Token>): Client {
    Client(
      if rotated.Some? then rotated.value else c.stored,
      false,
      map i | i in c.calls :: Woken(c.calls[i], rotated.Some?))
  }

  function OnResume(c: Client, i: nat): Client
    requires i in c.calls && c.calls[i].progress.Resumed?
  {
    var call := c.calls[i];
    c.(calls := c.calls[i :=
      if call.progress.ok then call.(sends := call.sends + 1, progress := InFlight)
      else call.(progress := Finished(false))])
  }

  /** The same client with its state in place. */
  class ApiClient {
    var stored: Token
    var refreshing: bool
    var calls: map<nat, Call>

    ghost function View(): Client
      reads this
    {
      Client(stored, refreshing, calls)
    }

    constructor (token: Token)
      ensures View() == Client(token, false, map[])
    {
      stored, refreshing, calls := token, false, map[];
    }

    /** A new request goes out. */
    method Request(i: nat, authPath: bool)
      requires i !in calls
      modifies this`calls
      ensures View() == Submit(old(View()), i, authPath)
    {
      calls := calls[i := Call(authPath, false, 1, InFlight)];
    }

    /** A request whose refresh has settled goes out again, or fails. */
    method Resume(i: nat)
      requires i in calls && calls[i].progress.Resumed?
      modifies this`calls
      ensures View() == OnResume(old(View()), i)
    {
      var call := calls[i];
      if call.progress.ok {
        calls := calls[i := call.(sends := call.sends + 1, progress := InFlight)];
      } else {
        calls := calls[i := call.(progress := Finished(false))];
      }
    }

    method HandleResponse(i: nat, unauthorized: bool) returns (startRefresh: bool)
      requires i in calls
      modifies this
      ensures View() == OnResponse(old(View()), i, unauthorized)
      ensures startRefresh <==> !old(refreshing) && refreshing
    {
      startRefresh := false;
      var call := calls[i];
      if unauthorized && !call.retried && !call.authPath {
        calls := calls[i := call.(retried := true, progress := Waiting)];
        if !refreshing {
          refreshing := true;
          startRefresh := true;
        }
      } else {
        calls := calls[i := call.(progress := Finished(!unauthorized))];
      }
    }

    method HandleSettled(rotated: Option<Token>)
      modifies this
      ensures View() == OnSettled(old(View()), rotated)
    {
      if rotated.Some? {
        stored := rotated.value;
      }
      refreshing := false;
      var todo := calls.Keys;
      ghost var before := calls;
      while todo != {}
        invariant todo <= before.Keys && calls.Keys == before.Keys
        invariant forall i :: i in todo ==> calls[i] == before[i]
        invariant forall i :: i in before && i !in todo ==> calls[i] == Woken(before[i], rotated.Some?)
        modifies this`calls
        decreases todo
      {
        var i :| i in todo;
        if calls[i].progress.Waiting? {
          calls := calls[i := calls[i].(progress := Resumed(rotated.Some?))];
        }
        todo := todo - {i};
      }
    }
  }
}
