/**
 * The session side of the v16 client: `_refresh_token` logs in and stores the
 * token, `fetch_data` logs in when there is no token, requests the controller
 * payload and, once, logs in again and retries when the payload has no
 * `frontdata`. The HTTP session is an abstract scripted server that hands out
 * the next reply and records each request it receives.
 */
module Client {
  import opened Wrappers
  import opened Json
  import opened Telemetry

  const BaseUrl := "http://www.stokercloud.dk/"
  const LoginUrl := BaseUrl + "v2/dataout2/login.php"
  const DataUrl := BaseUrl + "v16bckbeta/dataout2/controllerdata2.php"

  /** The fixed `screen` layout descriptor sent with every data request. */
  const Screen := "b1,17,b2,5,b3,4,b4,6,b5,12,b6,14,b7,15,b8,16,b9,9,b10,7,d1,3,d2,4,d3,4,d4,0,d5,0,d6,0,d7,0,d8,0,d9,0,d10,0,h1,2,h2,3,h3,5,h4,13,h5,4,h6,1,h7,9,h8,10,h9,7,h10,8,w1,2,w2,3,w3,9,w4,4,w5,5"

  /** A GET request: the URL and its query parameters. */
  datatype Request = Request(url: string, params: seq<(string, Json)>)

  /** The decoded body of a reply, or a timeout, connection error or undecodable body. */
  datatype Reply = Body(json: Json) | NoReply

  /**
   * The HTTP session seen from the client: the replies still to come for login
   * and for data requests, and the requests received so far. A server that has
   * run out of replies no longer answers.
   */
  datatype Server = Server(
    loginReplies: seq<Reply>,
    dataReplies: seq<Reply>,
    logins: seq<Request>,
    fetches: seq<Request>)
  {
    function AnswerLogin(q: Request): (e: Exchange)
      ensures e.server.logins == logins + [q] && e.server.fetches == fetches
      ensures e.server.dataReplies == dataReplies
    {
      if loginReplies == [] then Exchange(NoReply, this.(logins := logins + [q]))
      else Exchange(loginReplies[0], this.(loginReplies := loginReplies[1..], logins := logins + [q]))
    }

    function AnswerData(q: Request): (e: Exchange)
      ensures e.server.fetches == fetches + [q] && e.server.logins == logins
      ensures e.server.loginReplies == loginReplies
      ensures dataReplies != [] ==> e.reply == dataReplies[0] && e.server.dataReplies == dataReplies[1..]
    {
      if dataReplies == [] then Exchange(NoReply, this.(fetches := fetches + [q]))
      else Exchange(dataReplies[0], this.(dataReplies := dataReplies[1..], fetches := fetches + [q]))
    }
  }

  datatype Exchange = Exchange(reply: Reply, server: Server)

  /** The client's state: its credentials, `self.token` and its session. */
  datatype State = State(username: string, password: string, token: Json, server: Server)

  /**
   * A value aiohttp accepts as a query parameter: a str, an int or a float
   * (and, in this model, a list). A bool or a dict is refused with TypeError
   * before any request is sent.
   */
  predicate QueryValue(j: Json)
  {
    j.Str? || j.Int? || j.Float? || j.List?
  }

  /** A result together with the state it leaves behind. */
  datatype Step<+T> = Step(out: T, next: State)

  function LoginRequest(s: State): Request
  {
    Request(LoginUrl, [("user", Str(s.username)), ("pass", Str(s.password))])
  }

  function DataRequest(s: State): Request
  {
    Request(DataUrl, [("screen", Str(Screen)), ("token", s.token)])
  }

  /**
   * `_refresh_token()`: a reply that is not a dict, or no reply, raises before
   * `self.token` is assigned; a dict reply always overwrites `self.token` with
   * `data.get('token')`, and the login fails unless that is truthy.
   */
  function Login(s: State): (r: Step<Outcome<Fault>>)
    ensures r.out.Pass? ==> Truthy(r.next.token)
    ensures r.out.Fail? && r.out.error == LoginRejected ==> !Truthy(r.next.token)
    ensures r.out.Fail? ==> r.out.error in {Transport, AttributeError, LoginRejected}
  {
    var ex := s.server.AnswerLogin(LoginRequest(s));
    var s1 := s.(server := ex.server);
    match ex.reply
    case NoReply => Step(Fail(Transport), s1)
    case Body(j) =>
      if !j.Object? then Step(Fail(AttributeError), s1)
      else
        var t := Get(j.fields, "token", Null);
        Step(if Truthy(t) then Pass else Fail(LoginRejected), s1.(token := t))
  }

  /** `fetch_data(retry)`. */
  function Fetch(s: State, retry: bool): (r: Step<Result<Snapshot, Fault>>)
    ensures r.out.Success? ==> Truthy(r.next.token) && QueryValue(r.next.token)
    ensures r.out.Failure? && r.out.error == LoginRejected ==> !Truthy(r.next.token)
    ensures r.next.username == s.username && r.next.password == s.password
    decreases if retry then 1 else 0
  {
    var entry := if Truthy(s.token) then Step(Pass, s) else Login(s);
    if entry.out.Fail? then Step(Failure(entry.out.error), entry.next)
    else
      var s1 := entry.next;
      if !QueryValue(s1.token) then Step(Failure(TypeError), s1)  // the query string cannot be built
      else
        var ex := s1.server.AnswerData(DataRequest(s1));
        var s2 := s1.(server := ex.server);
        match ex.reply
        case NoReply => Step(Failure(Transport), s2)
        case Body(raw) =>
          if !raw.Object? then Step(Failure(AttributeError), s2)  // `raw_data.get` on a non-dict
          else if !Truthy(Get(raw.fields, "frontdata", Null)) && retry then
            var again := Login(s2);
            if again.out.Fail? then Step(Failure(again.out.error), again.next)
            else Fetch(again.next, false)
          else Step(ParseResponse(raw.fields), s2)
  }

  // ---------------------------------------------------------------------------
  // Properties of the state machine
  // ---------------------------------------------------------------------------

  /** A login sends the credentials, and only `self.token` and the session change. */
  lemma LoginRequestSent(s: State)
    ensures var n := Login(s).next;
      && n.server.logins == s.server.logins + [LoginRequest(s)]
      && n.server.fetches == s.server.fetches
      && n.server.dataReplies == s.server.dataReplies
      && n.username == s.username && n.password == s.password
  {
  }

  /**
   * A login succeeds exactly when the reply is a dict with a truthy `token`,
   * which then is `self.token`; a dict reply without one leaves `self.token`
   * falsy; any other failure leaves `self.token` as it was.
   */
  lemma LoginOutcome(s: State)
    requires s.server.loginReplies != []
    ensures var r := s.server.loginReplies[0];
      var st := Login(s);
      && (st.out.Pass? <==> r.Body? && r.json.Object? && "token" in r.json.fields && Truthy(r.json.fields["token"]))
      && (st.out.Pass? ==> st.next.token == r.json.fields["token"])
      && (r.Body? && r.json.Object? && st.out.Fail? ==> st.out.error == LoginRejected && !Truthy(st.next.token))
      && (!(r.Body? && r.json.Object?) ==> st.out.Fail? && st.next.token == s.token)
  {
  }

  function LoginsMade(s: State, t: State): int
  {
    |t.server.logins| - |s.server.logins|
  }

  function FetchesMade(s: State, t: State): int
  {
    |t.server.fetches| - |s.server.fetches|
  }

  /**
   * The nested `fetch_data(retry=False)` after a successful login: no login,
   * and exactly one data request carrying the token when it can be sent;
   * otherwise TypeError and no request.
   */
  lemma NestedFetch(s: State)
    requires Truthy(s.token)
    ensures LoginsMade(s, Fetch(s, false).next) == 0
    ensures FetchesMade(s, Fetch(s, false).next) == (if QueryValue(s.token) then 1 else 0)
    ensures Fetch(s, false).next.server.fetches ==
      s.server.fetches + (if QueryValue(s.token) then [DataRequest(s)] else [])
    ensures !QueryValue(s.token) ==> Fetch(s, false).out == Failure(TypeError)
  {
  }

  /**
   * One top-level `fetch_data()` logs in at most twice: once at entry when
   * there is no token, once on retry; it makes at most two data requests, so
   * the recursion is at most one level deep.
   */
  lemma FetchBounds(s: State, retry: bool)
    ensures var n := Fetch(s, retry).next;
      && 0 <= LoginsMade(s, n) <= (if Truthy(s.token) then 0 else 1) + (if retry then 1 else 0)
      && 0 <= FetchesMade(s, n) <= (if retry then 2 else 1)
  {
    var entry := if Truthy(s.token) then Step(Pass, s) else Login(s);
    if entry.out.Pass? {
      var s1 := entry.next;
      var ex := s1.server.AnswerData(DataRequest(s1));
      var s2 := s1.(server := ex.server);
      if ex.reply.Body? && ex.reply.json.Object? && !Truthy(Get(ex.reply.json.fields, "frontdata", Null)) && retry {
        var again := Login(s2);
        if again.out.Pass? {
          NestedFetch(again.next);
        }
      }
    }
  }

  /** A data request for the fixed screen whose `token` parameter is truthy. */
  predicate CarriesToken(q: Request)
  {
    && q.url == DataUrl
    && |q.params| == 2
    && q.params[0] == ("screen", Str(Screen))
    && q.params[1].0 == "token"
    && Truthy(q.params[1].1)
    && QueryValue(q.params[1].1)
  }

  /** `now` extends `before` with data requests that each carry a truthy, sendable token. */
  ghost predicate SentWithTokens(before: seq<Request>, now: seq<Request>)
  {
    && |before| <= |now|
    && now[..|before|] == before
    && forall i :: |before| <= i < |now| ==> CarriesToken(now[i])
  }

  lemma SentWithTokensAppend(before: seq<Request>, now: seq<Request>, q: Request)
    requires SentWithTokens(before, now) && CarriesToken(q)
    ensures SentWithTokens(before, now + [q])
  {
    assert (now + [q])[..|before|] == now[..|before|];
  }

  /** Every data request carries a truthy token: the client never asks for data without one. */
  lemma FetchSendsTokens(s: State, retry: bool)
    ensures SentWithTokens(s.server.fetches, Fetch(s, retry).next.server.fetches)
  {
    var f := s.server.fetches;
    assert f[..|f|] == f;
    var entry := if Truthy(s.token) then Step(Pass, s) else Login(s);
    if entry.out.Pass? && QueryValue(entry.next.token) {
      var s1 := entry.next;
      var ex := s1.server.AnswerData(DataRequest(s1));
      var s2 := s1.(server := ex.server);
      assert s1.server.fetches == f;
      SentWithTokensAppend(f, f, DataRequest(s1));
      assert SentWithTokens(f, s2.server.fetches);
      if ex.reply.Body? && ex.reply.json.Object? && !Truthy(Get(ex.reply.json.fields, "frontdata", Null)) && retry {
        var again := Login(s2);
        if again.out.Pass? {
          NestedFetch(again.next);
          if QueryValue(again.next.token) {
            SentWithTokensAppend(f, s2.server.fetches, DataRequest(again.next));
          }
        }
      }
    }
  }

  /** With a token held and a reply that has truthy `frontdata`, no login happens and the reply is parsed. */
  lemma FetchWarm(s: State, retry: bool)
    requires Truthy(s.token) && QueryValue(s.token)
    requires s.server.dataReplies != [] && s.server.dataReplies[0].Body?
    requires s.server.dataReplies[0].json.Object?
    requires Truthy(Get(s.server.dataReplies[0].json.fields, "frontdata", Null))
    ensures LoginsMade(s, Fetch(s, retry).next) == 0
    ensures FetchesMade(s, Fetch(s, retry).next) == 1
    ensures Fetch(s, retry).out == ParseResponse(s.server.dataReplies[0].json.fields)
    ensures Fetch(s, retry).next.token == s.token
  {
  }

  /** A held bool or dict token: the data request is never sent and the call raises TypeError without logging in. */
  lemma FetchUnsendableToken(s: State, retry: bool)
    requires Truthy(s.token) && !QueryValue(s.token)
    ensures Fetch(s, retry) == Step(Failure(TypeError), s)
  {
  }

  /** Wrong credentials: without a token, a login reply with no token ends the call after one login and no data request. */
  lemma FetchRejectedLogin(s: State, retry: bool)
    requires !Truthy(s.token)
    requires s.server.loginReplies != [] && s.server.loginReplies[0].Body?
    requires s.server.loginReplies[0].json.Object?
    requires !Truthy(Get(s.server.loginReplies[0].json.fields, "token", Null))
    ensures Fetch(s, retry).out == Failure(LoginRejected)
    ensures LoginsMade(s, Fetch(s, retry).next) == 1
    ensures FetchesMade(s, Fetch(s, retry).next) == 0
    ensures !Truthy(Fetch(s, retry).next.token)
  {
  }

  /**
   * A reply without `frontdata` is retried once, with the token of the second
   * login; the second reply is parsed whatever it holds.
   */
  lemma FetchRetried(s: State)
    requires Truthy(s.token) && QueryValue(s.token)
    requires |s.server.dataReplies| >= 2 && s.server.dataReplies[0].Body?
    requires s.server.dataReplies[0].json.Object?
    requires !Truthy(Get(s.server.dataReplies[0].json.fields, "frontdata", Null))
    requires s.server.loginReplies != [] && s.server.loginReplies[0].Body?
    requires s.server.loginReplies[0].json.Object?
    requires Truthy(Get(s.server.loginReplies[0].json.fields, "token", Null))
    requires QueryValue(Get(s.server.loginReplies[0].json.fields, "token", Null))
    requires s.server.dataReplies[1].Body? && s.server.dataReplies[1].json.Object?
    ensures var st := Fetch(s, true);
      && st.out == ParseResponse(s.server.dataReplies[1].json.fields)
      && st.next.token == s.server.loginReplies[0].json.fields["token"]
      && LoginsMade(s, st.next) == 1 && FetchesMade(s, st.next) == 2
      && st.next.server.fetches[|s.server.fetches| + 1] == DataRequest(st.next)
  {
    var s1 := s.(server := s.server.AnswerData(DataRequest(s)).server);
    var again := Login(s1);
    assert again.out.Pass?;
    assert again.next.server.dataReplies == s.server.dataReplies[1..];
    NestedFetch(again.next);
  }

  // ---------------------------------------------------------------------------
  // The client object
  // ---------------------------------------------------------------------------

  /** `StokerCloudClientV16`: credentials, the session and the mutable `token`. */
  class StokerCloudClient {
    const username: string
    const password: string
    var token: Json
    var session: Server
    /** How many times `FetchData` has been entered, nested calls included. */
    ghost var calls: nat

    function Model(): State
      reads this
    {
      State(username, password, token, session)
    }

    constructor (username: string, password: string, session: Server)
      ensures Model() == State(username, password, Null, session)
      ensures calls == 0
    {
      this.username := username;
      this.password := password;
      this.session := session;
      this.token := Null;
      calls := 0;
    }

    method RefreshToken() returns (o: Outcome<Fault>)
      modifies this
      ensures Step(o, Model()) == Login(old(Model()))
      ensures calls == old(calls)
    {
      var ex := session.AnswerLogin(LoginRequest(Model()));
      session := ex.server;
      match ex.reply
      case NoReply =>
        return Fail(Transport);
      case Body(data) =>
        if !data.Object? {
          return Fail(AttributeError);
        }
        token := Get(data.fields, "token", Null);
        o := if Truthy(token) then Pass else Fail(LoginRejected);
    }

    method FetchData(retry: bool) returns (r: Result<Telemetry.Snapshot, Fault>)
      modifies this
      decreases if retry then 1 else 0
      ensures Step(r, Model()) == Fetch(old(Model()), retry)
      ensures calls <= old(calls) + (if retry then 2 else 1)
    {
      calls := calls + 1;
      if !Truthy(token) {
        var o := RefreshToken();
        if o.Fail? {
          return Failure(o.error);
        }
      }
      if !QueryValue(token) {
        return Failure(TypeError);
      }
      var ex := session.AnswerData(DataRequest(Model()));
      session := ex.server;
      match ex.reply
      case NoReply =>
        r := Failure(Transport);
      case Body(raw) =>
        if !raw.Object? {
          r := Failure(AttributeError);
        } else if !Truthy(Get(raw.fields, "frontdata", Null)) && retry {
          var o := RefreshToken();
          if o.Fail? {
            r := Failure(o.error);
          } else {
            r := FetchData(false);
          }
        } else {
          r := ParseResponse(raw.fields);
        }
    }
  }
}
