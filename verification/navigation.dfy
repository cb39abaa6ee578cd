/**
  The navigation commands of section 9 (Navigation) of W3C WebDriver Level 1:
  Navigate To, Get Current URL, Back, Forward, Refresh and Get Title.

  Every command is a function of the driver, so none of them can change the
  server URL or the session identifier.
 */
module Navigation {
  import opened Wrappers
  import opened Errors
  import opened RemoteDriver

  datatype GoResponse = GoResponse(state: string)
  datatype CurrentURLResponse = CurrentURLResponse(state: string, url: string)
  datatype BackResponse = BackResponse(state: string)
  datatype ForwardResponse = ForwardResponse(state: string)
  datatype RefreshResponse = RefreshResponse(state: string)
  datatype TitleResponse = TitleResponse(state: string, title: string)

  /** The collaborators a command needs: the transport and the two JSON decoders. */
  datatype Env = Env(
    transport: Transport,
    decodeState: Bytes -> Option<StateResponse>,
    decodeValue: Bytes -> Option<ValueResponse>)

  /** The URL of a session-scoped endpoint: `<server>/session/<id><suffix>`. */
  function SessionURL(d: Driver, suffix: string): string {
    d.seleniumURL + "/session/" + d.sessionID + suffix
  }

  /** Turns the helper's outcome into a command's outcome, passing errors through unchanged. */
  function Lift<T, U>(h: Outcome<T>, f: T -> U): (o: Outcome<U>)
    ensures o.calls == h.calls
    ensures o.result.Failure? <==> h.result.Failure?
    ensures h.result.Failure? ==> o.result.error == h.result.error
    ensures h.result.Success? ==> o.result.value == f(h.result.value)
  {
    match h.result
    case Failure(e) => Outcome(Failure(e), h.calls)
    case Success(v) => Outcome(Success(f(v)), h.calls)
  }

  /** The outcome of a command refused before any request is sent. */
  function Refused<T>(e: Error): Outcome<T> {
    Outcome(Failure(e), [])
  }

  /** `Go`: Navigate To. The session check comes first, then the target URL check. */
  function Go(d: Driver, goURL: string, env: Env): (o: Outcome<GoResponse>)
    ensures d.sessionID == "" ==> o == Refused(MissingSession("Go()"))
    ensures d.sessionID != "" && !HasHTTPScheme(goURL) ==>
              o == Refused(InvalidURL("Invalid URL in Go()", goURL))
    ensures d.sessionID != "" && HasHTTPScheme(goURL) ==>
              var h := SendRequest(Request(SessionURL(d, "/url"), POST, Some(map["url" := goURL]), "Go"),
                                   env.transport, env.decodeState);
              && o.calls == h.calls
              && (o.result.Failure? <==> h.result.Failure?)
              && (h.result.Failure? ==> o.result.error == h.result.error)
              && (h.result.Success? ==> o.result.value == GoResponse(h.result.value.state))
  {
    if d.sessionID == "" then Refused(MissingSession("Go()"))
    else if goURL == "" || !HasHTTPScheme(goURL) then Refused(InvalidURL("Invalid URL in Go()", goURL))
    else
      var params := map["url" := goURL];
      var h := SendRequest(Request(SessionURL(d, "/url"), POST, Some(params), "Go"),
                           env.transport, env.decodeState);
      Lift(h, (r: StateResponse) => GoResponse(r.state))
  }

  /** `CurrentURL`: Get Current URL, read through the value decoder. */
  function CurrentURL(d: Driver, env: Env): (o: Outcome<CurrentURLResponse>)
    ensures d.sessionID == "" ==> o == Refused(MissingSession("CurrentURL()"))
    ensures d.sessionID != "" ==>
              var h := SendRequest(Request(SessionURL(d, "/url"), GET, None, "CurrentURL"),
                                   env.transport, env.decodeValue);
              && o.calls == h.calls
              && (o.result.Failure? <==> h.result.Failure?)
              && (h.result.Failure? ==> o.result.error == h.result.error)
              && (h.result.Success? ==>
                    o.result.value == CurrentURLResponse(h.result.value.state, h.result.value.value))
  {
    if d.sessionID == "" then Refused(MissingSession("CurrentURL()"))
    else
      var h := SendRequest(Request(SessionURL(d, "/url"), GET, None, "CurrentURL"),
                           env.transport, env.decodeValue);
      Lift(h, (r: ValueResponse) => CurrentURLResponse(r.state, r.value))
  }

  /** `Back`: steps back in the page history. */
  function Back(d: Driver, env: Env): (o: Outcome<BackResponse>)
    ensures d.sessionID == "" ==> o == Refused(MissingSession("Back()"))
    ensures d.sessionID != "" ==>
              var h := SendRequest(Request(SessionURL(d, "/back"), POST, None, "Back"),
                                   env.transport, env.decodeState);
              && o.calls == h.calls
              && (o.result.Failure? <==> h.result.Failure?)
              && (h.result.Failure? ==> o.result.error == h.result.error)
              && (h.result.Success? ==> o.result.value == BackResponse(h.result.value.state))
  {
    if d.sessionID == "" then Refused(MissingSession("Back()"))
    else
      var h := SendRequest(Request(SessionURL(d, "/back"), POST, None, "Back"),
                           env.transport, env.decodeState);
      Lift(h, (r: StateResponse) => BackResponse(r.state))
  }

  /** `Forward`: steps forward in the page history. */
  function Forward(d: Driver, env: Env): (o: Outcome<ForwardResponse>)
    ensures d.sessionID == "" ==> o == Refused(MissingSession("Forward()"))
    ensures d.sessionID != "" ==>
              var h := SendRequest(Request(SessionURL(d, "/forward"), POST, None, "Forward"),
                                   env.transport, env.decodeState);
              && o.calls == h.calls
              && (o.result.Failure? <==> h.result.Failure?)
              && (h.result.Failure? ==> o.result.error == h.result.error)
              && (h.result.Success? ==> o.result.value == ForwardResponse(h.result.value.state))
  {
    if d.sessionID == "" then Refused(MissingSession("Forward()"))
    else
      var h := SendRequest(Request(SessionURL(d, "/forward"), POST, None, "Forward"),
                           env.transport, env.decodeState);
      Lift(h, (r: StateResponse) => ForwardResponse(r.state))
  }

  /** `Refresh`: reloads the current page. */
  function Refresh(d: Driver, env: Env): (o: Outcome<RefreshResponse>)
    ensures d.sessionID == "" ==> o == Refused(MissingSession("Refresh()"))
    ensures d.sessionID != "" ==>
              var h := SendRequest(Request(SessionURL(d, "/refresh"), POST, None, "Refresh"),
                                   env.transport, env.decodeState);
              && o.calls == h.calls
              && (o.result.Failure? <==> h.result.Failure?)
              && (h.result.Failure? ==> o.result.error == h.result.error)
              && (h.result.Success? ==> o.result.value == RefreshResponse(h.result.value.state))
  {
    if d.sessionID == "" then Refused(MissingSession("Refresh()"))
    else
      var h := SendRequest(Request(SessionURL(d, "/refresh"), POST, None, "Refresh"),
                           env.transport, env.decodeState);
      Lift(h, (r: StateResponse) => RefreshResponse(r.state))
  }

  /** `Title`: Get Title, read through the value decoder. */
  function Title(d: Driver, env: Env): (o: Outcome<TitleResponse>)
    ensures d.sessionID == "" ==> o == Refused(MissingSession("Title()"))
    ensures d.sessionID != "" ==>
              var h := SendRequest(Request(SessionURL(d, "/title"), GET, None, "Title"),
                                   env.transport, env.decodeValue);
              && o.calls == h.calls
              && (o.result.Failure? <==> h.result.Failure?)
              && (h.result.Failure? ==> o.result.error == h.result.error)
              && (h.result.Success? ==>
                    o.result.value == TitleResponse(h.result.value.state, h.result.value.value))
  {
    if d.sessionID == "" then Refused(MissingSession("Title()"))
    else
      var h := SendRequest(Request(SessionURL(d, "/title"), GET, None, "Title"),
                           env.transport, env.decodeValue);
      Lift(h, (r: ValueResponse) => TitleResponse(r.state, r.value))
  }

  /*
    A uniform view of the six commands, used to state the template they all
    follow in one place.
   */

  datatype Command = NavigateTo(target: string) | GetCurrentURL | GoBack | GoForward | RefreshPage | GetTitle

  /** The command's name as it appears in its errors. */
  function Name(c: Command): string {
    match c
    case NavigateTo(_) => "Go"
    case GetCurrentURL => "CurrentURL"
    case GoBack => "Back"
    case GoForward => "Forward"
    case RefreshPage => "Refresh"
    case GetTitle => "Title"
  }

  function Suffix(c: Command): string {
    match c
    case NavigateTo(_) => "/url"
    case GetCurrentURL => "/url"
    case GoBack => "/back"
    case GoForward => "/forward"
    case RefreshPage => "/refresh"
    case GetTitle => "/title"
  }

  /** Read-only queries are GETs; everything that changes the browser is a POST. */
  function Verb(c: Command): HttpMethod {
    if c.GetCurrentURL? || c.GetTitle? then GET else POST
  }

  function Body(c: Command): Option<Params> {
    if c.NavigateTo? then Some(map["url" := c.target]) else None
  }

  /** Commands whose reply carries a value use the `{state, value}` decoder. */
  predicate ReadsValue(c: Command) {
    c.GetCurrentURL? || c.GetTitle?
  }

  /** The only argument check a navigation command makes on its own input. */
  predicate ArgumentsValid(c: Command) {
    c.NavigateTo? ==> HasHTTPScheme(c.target)
  }

  /** The state and, for value-reading commands, the value of a command's typed response. */
  datatype Response = Response(state: string, value: Option<string>)

  /** Runs one command and forgets which response record it returned. */
  function Execute(d: Driver, c: Command, env: Env): Outcome<Response> {
    match c
    case NavigateTo(u) => Lift(Go(d, u, env), (r: GoResponse) => Response(r.state, None))
    case GetCurrentURL => Lift(CurrentURL(d, env), (r: CurrentURLResponse) => Response(r.state, Some(r.url)))
    case GoBack => Lift(Back(d, env), (r: BackResponse) => Response(r.state, None))
    case GoForward => Lift(Forward(d, env), (r: ForwardResponse) => Response(r.state, None))
    case RefreshPage => Lift(Refresh(d, env), (r: RefreshResponse) => Response(r.state, None))
    case GetTitle => Lift(Title(d, env), (r: TitleResponse) => Response(r.state, Some(r.title)))
  }

  /** What a reply decodes to under the decoder the command uses, if anything. */
  function Decoded(c: Command, env: Env, bytes: Bytes): Option<Response> {
    if ReadsValue(c) then
      match env.decodeValue(bytes)
      case None => None
      case Some(v) => Some(Response(v.state, Some(v.value)))
    else
      match env.decodeState(bytes)
      case None => None
      case Some(s) => Some(Response(s.state, None))
  }

  /**
    The template every navigation command follows: fail fast without a session,
    then check arguments, then issue exactly one call to the command's endpoint
    and classify its reply.
   */
  lemma CommandTemplate(d: Driver, c: Command, env: Env)
    ensures var o := Execute(d, c, env);
            d.sessionID == "" ==> o == Refused(MissingSession(Name(c) + "()"))
    ensures var o := Execute(d, c, env);
            d.sessionID != "" && !ArgumentsValid(c) ==>
              o == Refused(InvalidURL("Invalid URL in Go()", c.target))
    ensures var o := Execute(d, c, env);
            var url := SessionURL(d, Suffix(c));
            var reply := env.transport(url, Verb(c), Body(c));
            d.sessionID != "" && ArgumentsValid(c) ==>
              && o.calls == [Call(url, Verb(c), Body(c))]
              && (reply.failure.Some? ==>
                    o.result == Failure(Communication(reply.failure.value, Name(c), url, reply.bytes)))
              && (reply.failure.None? && Decoded(c, env, reply.bytes).None? ==>
                    o.result == Failure(Unmarshalling(Name(c), RawText(reply.bytes))))
              && (reply.failure.None? && Decoded(c, env, reply.bytes).Some? ==>
                    o.result == Success(Decoded(c, env, reply.bytes).value))
  {
    match c
    case NavigateTo(u) => assert Name(c) + "()" == "Go()";
    case GetCurrentURL => assert Name(c) + "()" == "CurrentURL()";
    case GoBack => assert Name(c) + "()" == "Back()";
    case GoForward => assert Name(c) + "()" == "Forward()";
    case RefreshPage => assert Name(c) + "()" == "Refresh()";
    case GetTitle => assert Name(c) + "()" == "Title()";
  }

  /**
    A command makes no transport call exactly when it fails locally, and never
    more than one.
   */
  lemma NoCallOnLocalFailure(d: Driver, c: Command, env: Env)
    ensures |Execute(d, c, env).calls| <= 1
    ensures Execute(d, c, env).calls == [] <==>
              Execute(d, c, env).result.Failure? && Execute(d, c, env).result.error.IsLocal()
  {
  }

  /** A freshly constructed driver has no session, so every command is refused without a call. */
  lemma FreshDriverRefusesCommands(serviceURL: string, browserName: string, c: Command, env: Env)
    requires NewSeleniumWebDriver(serviceURL, browserName).Success?
    ensures var d := NewSeleniumWebDriver(serviceURL, browserName).value;
            Execute(d, c, env) == Refused(MissingSession(Name(c) + "()"))
  {
    CommandTemplate(NewSeleniumWebDriver(serviceURL, browserName).value, c, env);
  }

  /*
    Reading a command URL back. The endpoint suffixes end in pairwise distinct
    characters, so a URL built by SessionURL names its session and endpoint
    unambiguously, whatever the session identifier contains.
   */

  const Suffixes: seq<string> := ["/url", "/back", "/forward", "/refresh", "/title"]

  predicate EndsWith(s: string, suffix: string) {
    |suffix| <= |s| && s[|s| - |suffix|..] == suffix
  }

  /** Finds the first candidate suffix of `rest` and splits `rest` around it. */
  function MatchSuffix(rest: string, candidates: seq<string>): (r: Option<(string, string)>)
    ensures r.Some? ==> r.value.1 in candidates && r.value.0 + r.value.1 == rest
  {
    if candidates == [] then None
    else if EndsWith(rest, candidates[0]) then
      Some((rest[..|rest| - |candidates[0]|], candidates[0]))
    else MatchSuffix(rest, candidates[1..])
  }

  /** Recovers the session identifier and the endpoint suffix from a command URL. */
  function ParseRoute(base: string, url: string): (r: Option<(string, string)>)
    ensures r.Some? ==> r.value.1 in Suffixes && base + "/session/" + r.value.0 + r.value.1 == url
  {
    var prefix := base + "/session/";
    if prefix <= url then MatchSuffix(url[|prefix|..], Suffixes) else None
  }

  lemma {:induction false} MatchFirstEnding(sid: string, suffix: string, candidates: seq<string>)
    requires suffix in candidates
    requires forall i :: 0 <= i < |candidates| ==> candidates[i] != "" 
    requires forall i :: 0 <= i < |candidates| && candidates[i] != suffix ==>
               candidates[i][|candidates[i]| - 1] != suffix[|suffix| - 1]
    ensures MatchSuffix(sid + suffix, candidates) == Some((sid, suffix))
    decreases |candidates|
  {
    var rest := sid + suffix;
    var c := candidates[0];
    if c == suffix {
      assert rest[|rest| - |suffix|..] == suffix;
      assert rest[..|rest| - |suffix|] == sid;
    } else {
      assert rest[|rest| - 1] == suffix[|suffix| - 1];
      if |c| <= |rest| {
        assert rest[|rest| - |c|..][|c| - 1] == rest[|rest| - 1];
      }
      MatchFirstEnding(sid, suffix, candidates[1..]);
    }
  }

  /** Building a command URL and parsing it back gives the session and endpoint that built it. */
  lemma RouteRoundTrip(d: Driver, c: Command)
    ensures ParseRoute(d.seleniumURL, SessionURL(d, Suffix(c))) == Some((d.sessionID, Suffix(c)))
  {
    var prefix := d.seleniumURL + "/session/";
    var url := SessionURL(d, Suffix(c));
    assert url == prefix + (d.sessionID + Suffix(c));
    assert url[|prefix|..] == d.sessionID + Suffix(c);
    MatchFirstEnding(d.sessionID, Suffix(c), Suffixes);
  }

  /**
    Two commands on one driver send the same request only when they are the same
    command: the endpoint and verb identify the command, and Go's body its target.
   */
  lemma RequestsIdentifyCommand(d: Driver, c1: Command, c2: Command)
    requires SessionURL(d, Suffix(c1)) == SessionURL(d, Suffix(c2))
    requires Verb(c1) == Verb(c2) && Body(c1) == Body(c2)
    ensures c1 == c2
  {
    RouteRoundTrip(d, c1);
    RouteRoundTrip(d, c2);
    if c1.NavigateTo? && c2.NavigateTo? {
      assert Body(c1).value["url"] == c1.target;
    }
  }

  /** Requests of one command for two drivers on the same server differ when their sessions do. */
  lemma SessionsHaveDistinctURLs(d1: Driver, d2: Driver, c: Command)
    requires d1.seleniumURL == d2.seleniumURL && d1.sessionID != d2.sessionID
    ensures SessionURL(d1, Suffix(c)) != SessionURL(d2, Suffix(c))
  {
    RouteRoundTrip(d1, c);
    RouteRoundTrip(d2, c);
  }
}
