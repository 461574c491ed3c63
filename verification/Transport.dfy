/** The request engine's retry loop. */
module Transport {
  import opened Session
  import Refresh
  import RefreshTheorems

  datatype Request = Request(isGet: bool, authenticated: bool, retryOnUnauthorized: bool)

  /** One attempt ends with a status or fails. */
  datatype Attempt = Status(code: nat) | Failure(error: Error)

  const UNAUTHORIZED: nat := 401

  /** Why an answer of the token source cannot be sent. */
  function NoBearer(answer: Result<string>): Error {
    if answer.Err? then answer.error else NotAuthenticated
  }

  /** Two requests to one token provider in a run of any number of clients: caller `first` had ended
      by the world `middle`, and then `second` began by reporting `rejected`. */
  datatype Provider = Provider(
    start: Refresh.World, before: seq<Refresh.Label>, middle: Refresh.World, client: nat, first: nat,
    second: nat, after: seq<Refresh.Label>, end: Refresh.World)
  {
    ghost predicate Answers(token: string, refreshed: string) {
      && Refresh.Init(start) && Refresh.Run(start, before) == Some(middle)
      && RefreshTheorems.Ended(middle, client, first, token)
      && Refresh.Run(middle, [Refresh.Inside(client, Refresh.Begin(second, Refresh.Request(true, token)))] + after) == Some(end)
      && RefreshTheorems.Ended(end, client, second, refreshed)
    }
  }

  /** `token` is what the client's token source answers first, `refreshed` what it answers when told
      that `token` was rejected. `sent` lists the bearer of every attempt, "" for none. When both
      answers come from the session's provider, a replay never carries the refused bearer. */
  method Do(req: Request, token: Result<string>, refreshed: Result<string>, attempts: seq<Attempt>, ghost provider: Provider)
    returns (r: Result<nat>, sent: seq<string>)
    requires |attempts| == 2
    ensures sent == [] <==> req.authenticated && (token.Err? || token.value == "")
    ensures sent != [] ==> if req.authenticated then token == Ok(sent[0]) && sent[0] != "" else sent[0] == ""
    ensures |sent| <= 2
    ensures |sent| == 2 <==>
      && req.isGet && req.authenticated && req.retryOnUnauthorized && sent != []
      && attempts[0] == Status(401) && refreshed.Ok? && refreshed.value != ""
    ensures |sent| == 2 ==> refreshed == Ok(sent[1])
    ensures token.Ok? && refreshed.Ok? && provider.Answers(token.value, refreshed.value) && |sent| == 2 ==> sent[1] != sent[0]
    ensures r.Ok? ==> sent != [] && attempts[|sent| - 1] == Status(r.value)
    ensures r == Ok(401) ==> |sent| == 2 || !(req.isGet && req.authenticated && req.retryOnUnauthorized)
    ensures r.Err? ==>
      if sent == [] then r == Err(NoBearer(token))
      else attempts[|sent| - 1] == Failure(r.error)
           || (|sent| == 1 && attempts[0] == Status(401) && r == Err(NoBearer(refreshed))
               && req.isGet && req.authenticated && req.retryOnUnauthorized)
  {
    if token.Ok? && refreshed.Ok? && provider.Answers(token.value, refreshed.value) {
      var Provider(start, before, middle, client, first, second, after, end) := provider;
      RefreshTheorems.RejectedTokenIsNotServedAgain(
        start, before, middle, client, first, token.value, second, after, end, refreshed.value);
    }
    sent := [];
    var bearer := "";
    if req.authenticated {
      if token.Err? { return Err(token.error), sent; }
      if token.value == "" { return Err(NotAuthenticated), sent; }
      bearer := token.value;
    }
    var maximumAttempts := if req.authenticated && req.retryOnUnauthorized && req.isGet then 2 else 1;
    var status: nat := 0;
    var attempt := 1;
    while attempt <= maximumAttempts
      invariant 1 <= attempt <= maximumAttempts
      invariant |sent| == attempt - 1
      invariant req.authenticated ==> bearer != ""
      invariant !req.authenticated ==> bearer == ""
      invariant attempt == 1 && req.authenticated ==> token == Ok(bearer)
      invariant attempt == 2 ==> refreshed == Ok(bearer) && token == Ok(sent[0]) && attempts[0] == Status(UNAUTHORIZED)
      decreases maximumAttempts - attempt
    {
      sent := sent + [bearer];
      match attempts[attempt - 1] {
        case Failure(e) => return Err(e), sent;
        case Status(code) => status := code;
      }
      if status != UNAUTHORIZED || attempt == maximumAttempts { return Ok(status), sent; }
      if refreshed.Err? { return Err(refreshed.error), sent; }
      if refreshed.value == "" { return Err(NotAuthenticated), sent; }
      bearer := refreshed.value;
      attempt := attempt + 1;
    }
    return Ok(status), sent;
  }
}
