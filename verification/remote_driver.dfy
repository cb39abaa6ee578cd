/**
  Driver construction, the `By`/`Timeout` value factories and the two request
  helpers that every command goes through.
 */
module RemoteDriver {
  import opened Wrappers
  import opened Errors

  /**
    The driver's state. The server URL is fixed at construction, an empty
    session identifier means "no session", and the capabilities descriptor is
    represented by its browser name alone.
   */
  datatype Driver = Driver(seleniumURL: string, sessionID: string, browserName: string)

  /** True when a URL begins with one of the two schemes the package accepts. */
  predicate HasHTTPScheme(u: string) {
    "http://" <= u || "https://" <= u
  }

  predicate EndsWithSlash(u: string) {
    |u| > 0 && u[|u| - 1] == '/'
  }

  /** `strings.TrimSuffix(u, "/")`: removes at most one trailing slash. */
  function TrimTrailingSlash(u: string): (r: string)
    ensures EndsWithSlash(u) ==> r + "/" == u
    ensures !EndsWithSlash(u) ==> r == u
  {
    if EndsWithSlash(u) then u[..|u| - 1] else u
  }

  const InvalidURLMessage := "Provided Selenium URL is invalid"
  const InvalidSchemeMessage := "Provided Selenium URL is invalid."
  const InvalidCapabilitiesMessage := "An invalid capabilities object was provided."

  /**
    `NewSeleniumWebDriver`: validates the server URL, then the browser name, and
    stores the URL without one trailing slash. The new driver has no session.
   */
  function NewSeleniumWebDriver(serviceURL: string, browserName: string): (r: Result<Driver, Error>)
    ensures r.Success? <==> serviceURL != "" && HasHTTPScheme(serviceURL) && browserName != ""
    ensures serviceURL == "" ==> r == Failure(Invalid(InvalidURLMessage))
    ensures serviceURL != "" && !HasHTTPScheme(serviceURL) ==> r == Failure(Invalid(InvalidSchemeMessage))
    ensures HasHTTPScheme(serviceURL) && browserName == "" ==> r == Failure(Invalid(InvalidCapabilitiesMessage))
    ensures r.Success? ==> r.value.sessionID == "" && r.value.browserName == browserName
    ensures r.Success? && EndsWithSlash(serviceURL) ==> r.value.seleniumURL + "/" == serviceURL
    ensures r.Success? && !EndsWithSlash(serviceURL) ==> r.value.seleniumURL == serviceURL
  {
    if serviceURL == "" then Failure(Invalid(InvalidURLMessage))
    else if !HasHTTPScheme(serviceURL) then Failure(Invalid(InvalidSchemeMessage))
    else if browserName == "" then Failure(Invalid(InvalidCapabilitiesMessage))
    else Success(Driver(TrimTrailingSlash(serviceURL), "", browserName))
  }

  /** `DriverURL`: the server URL the driver was built with. */
  function DriverURL(d: Driver): string {
    d.seleniumURL
  }

  /** `DriverURL` returns the constructor's input with one trailing slash, if any, removed. */
  lemma DriverURLAfterConstruction(serviceURL: string, browserName: string)
    requires NewSeleniumWebDriver(serviceURL, browserName).Success?
    ensures var url := DriverURL(NewSeleniumWebDriver(serviceURL, browserName).value);
            && (EndsWithSlash(serviceURL) ==> url + "/" == serviceURL)
            && (!EndsWithSlash(serviceURL) ==> url == serviceURL)
  {
  }

  /** Constructing with and without one trailing slash gives the same driver. */
  lemma TrailingSlashNormalised(u: string, browserName: string)
    requires !EndsWithSlash(u)
    ensures NewSeleniumWebDriver(u + "/", browserName).Success? ==>
              NewSeleniumWebDriver(u + "/", browserName) == NewSeleniumWebDriver(u, browserName)
              || u in {"http:/", "https:/"}
  {
  }

  /** Only one slash is trimmed: a doubled slash leaves one behind. */
  lemma OnlyOneSlashTrimmed(u: string, browserName: string)
    requires HasHTTPScheme(u) && browserName != ""
    ensures NewSeleniumWebDriver(u + "//", browserName).Success?
    ensures DriverURL(NewSeleniumWebDriver(u + "//", browserName).value) == u + "/"
  {
  }

  /**
    The stored URL keeps its scheme, except when the whole input was a bare
    scheme: trimming `"http://"` leaves `"http:/"`.
   */
  lemma StoredURLKeepsScheme(serviceURL: string, browserName: string)
    requires NewSeleniumWebDriver(serviceURL, browserName).Success?
    ensures HasHTTPScheme(DriverURL(NewSeleniumWebDriver(serviceURL, browserName).value))
            <==> serviceURL != "http://" && serviceURL != "https://"
  {
    var stored := NewSeleniumWebDriver(serviceURL, browserName).value.seleniumURL;
    if serviceURL == "http://" {
      assert stored == "http:/";
      assert !("http://" <= stored);
    } else if serviceURL == "https://" {
      assert stored == "https:/";
      assert stored[4] != "http://"[4];
    } else if EndsWithSlash(serviceURL) {
      assert stored + "/" == serviceURL;
      if "http://" <= serviceURL {
        assert |serviceURL| > 7 by {
          assert serviceURL[..7] == "http://";
        }
        assert stored[..7] == serviceURL[..7];
      } else {
        assert "https://" <= serviceURL;
        assert |serviceURL| > 8 by {
          assert serviceURL[..8] == "https://";
        }
        assert stored[..8] == serviceURL[..8];
      }
    }
  }

  /** `timeout`: the kind of a session timeout and its length in milliseconds, unchecked. */
  datatype Timeout = Timeout(timeoutType: string, timeout: int)

  /** `SessionScriptTimeout`. */
  function SessionScriptTimeout(to: int): (t: Timeout)
    ensures t.timeoutType == "script" && t.timeout == to
  {
    Timeout("script", to)
  }

  /** `SessionPageLoadTimeout`. */
  function SessionPageLoadTimeout(to: int): (t: Timeout)
    ensures t.timeoutType == "page load" && t.timeout == to
  {
    Timeout("page load", to)
  }

  /** `SessionImplicitWaitTimeout`. */
  function SessionImplicitWaitTimeout(to: int): (t: Timeout)
    ensures t.timeoutType == "implicit" && t.timeout == to
  {
    Timeout("implicit", to)
  }

  /**
    A timeout value identifies the constructor that built it and the argument
    it was given, negative arguments included.
   */
  lemma TimeoutsDetermineTheirOrigin(a: int, b: int)
    ensures SessionScriptTimeout(a) != SessionPageLoadTimeout(b)
    ensures SessionScriptTimeout(a) != SessionImplicitWaitTimeout(b)
    ensures SessionPageLoadTimeout(a) != SessionImplicitWaitTimeout(b)
    ensures SessionScriptTimeout(a) == SessionScriptTimeout(b) <==> a == b
    ensures SessionPageLoadTimeout(a) == SessionPageLoadTimeout(b) <==> a == b
    ensures SessionImplicitWaitTimeout(a) == SessionImplicitWaitTimeout(b) <==> a == b
  {
  }

  /** `by`: how the server should locate a frame or element, and the value to look for. */
  datatype By = By(t: string, value: Any)

  /** The frame-index ceiling of section 10.5 (Switch To Frame) of W3C WebDriver Level 1. */
  const MaxFrameIndex: nat := 65535

  /** `ByIndex`: accepts exactly the indices up to 2^16 - 1. */
  function ByIndex(index: nat): (r: Result<By, Error>)
    ensures r.Success? <==> index <= MaxFrameIndex
    ensures r.Failure? ==> r.error == InvalidArgument("Index out of range in ByIndex()", "index", Uint(index))
    ensures r.Success? ==> r.value.t == "index" && r.value.value == Uint(index)
  {
    if index > MaxFrameIndex then
      Failure(InvalidArgument("Index out of range in ByIndex()", "index", Uint(index)))
    else
      Success(By("index", Uint(index)))
  }

  /** `ByCSSSelector`: accepts any non-empty selector and stores it unchanged. */
  function ByCSSSelector(selector: string): (r: Result<By, Error>)
    ensures r.Success? <==> selector != ""
    ensures r.Failure? ==> r.error == InvalidArgument("Argument empty in ByCSSSelector()", "selector", Str(selector))
    ensures r.Success? ==> r.value.t == "css selector" && r.value.value == Str(selector)
  {
    if selector == "" then
      Failure(InvalidArgument("Argument empty in ByCSSSelector()", "selector", Str(selector)))
    else
      Success(By("css selector", Str(selector)))
  }

  /** A selector is stored verbatim: no class-name period is added in front of it. */
  lemma SelectorStoredVerbatim(name: string)
    requires name != "" && name[0] != '.'
    ensures ByCSSSelector(name).Success?
    ensures ByCSSSelector(name).value.value != Str("." + name)
  {
  }

  /** The HTTP verbs the navigation commands use. */
  datatype HttpMethod = GET | POST

  /** The parameter map a command sends as its JSON body. */
  type Params = map<string, string>

  /** `request`: one HTTP call and the name of the command that issued it. */
  datatype Request = Request(url: string, verb: HttpMethod, body: Option<Params>, callingMethod: string)

  /** The arguments handed to the transport for one call. */
  datatype Call = Call(url: string, verb: HttpMethod, body: Option<Params>)

  /** What the transport returns: the bytes read, and a failure if there was one. */
  datatype Reply = Reply(bytes: Bytes, failure: Option<string>)

  /** `apiService.performRequest`, supplied from outside the model. */
  type Transport = (string, HttpMethod, Option<Params>) -> Reply

  /** `stateResponse`: the `{state}` reply shape. */
  datatype StateResponse = StateResponse(state: string)

  /** `valueResponse`: the `{state, value}` reply shape. */
  datatype ValueResponse = ValueResponse(state: string, value: string)

  /** The result of a driver call together with every transport call it made, in order. */
  datatype Outcome<T> = Outcome(result: Result<T, Error>, calls: seq<Call>)

  /**
    `stateRequest` and `valueRequest`, which differ only in the decoder:
    call the transport once, classify a transport failure as a communication
    error and a decoding failure as an unmarshalling error.
   */
  function SendRequest<T>(req: Request, transport: Transport, decode: Bytes -> Option<T>): (o: Outcome<T>)
    ensures o.calls == [Call(req.url, req.verb, req.body)]
    ensures var reply := transport(req.url, req.verb, req.body);
            && (o.result.Failure? && o.result.error.Communication? <==> reply.failure.Some?)
            && (reply.failure.Some? ==>
                  o.result.error == Communication(reply.failure.value, req.callingMethod, req.url, reply.bytes))
            && (o.result.Failure? && o.result.error.Unmarshalling? <==>
                  reply.failure.None? && decode(reply.bytes).None?)
            && (o.result.Failure? && o.result.error.Unmarshalling? ==>
                  o.result.error == Unmarshalling(req.callingMethod, RawText(reply.bytes)))
            && (o.result.Success? <==> reply.failure.None? && decode(reply.bytes).Some?)
            && (o.result.Success? ==> Some(o.result.value) == decode(reply.bytes))
  {
    var reply := transport(req.url, req.verb, req.body);
    var calls := [Call(req.url, req.verb, req.body)];
    if reply.failure.Some? then
      Outcome(Failure(Communication(reply.failure.value, req.callingMethod, req.url, reply.bytes)), calls)
    else
      match decode(reply.bytes)
      case None => Outcome(Failure(Unmarshalling(req.callingMethod, RawText(reply.bytes))), calls)
      case Some(v) => Outcome(Success(v), calls)
  }

  /** After a transport failure the decoder is never consulted: any decoder gives the same outcome. */
  lemma TransportFailureSkipsDecoding<T>(req: Request, transport: Transport, d1: Bytes -> Option<T>, d2: Bytes -> Option<T>)
    requires transport(req.url, req.verb, req.body).failure.Some?
    ensures SendRequest(req, transport, d1) == SendRequest(req, transport, d2)
  {
  }

  /** An unmarshalling error carries the exact payload the transport returned. */
  lemma UnmarshallingKeepsPayload<T>(req: Request, transport: Transport, decode: Bytes -> Option<T>)
    requires SendRequest(req, transport, decode).result.Failure?
    requires SendRequest(req, transport, decode).result.error.Unmarshalling?
    ensures var raw := SendRequest(req, transport, decode).result.error.raw;
            && (forall i :: 0 <= i < |raw| ==> raw[i] as int < 256)
            && TextBytes(raw) == transport(req.url, req.verb, req.body).bytes
  {
  }
}
