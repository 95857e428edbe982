/**
 * The HTTP layer of the Microblink recognition client (class MicroblinkApi).
 *
 * The client keeps an endpoint, an authorization header value and the list
 * of transfers it has started. A recognition request is a JSON body with the
 * base64 image and either one recognizer name or a list of them, POSTed to
 * `<endpoint>/recognize/execute`. When the transfer reaches ready state 4 the
 * response text is parsed and turned into the observer's signals.
 *
 * Transfers are identified by abstract handle ids; aborting one is recorded
 * by returning its id. The network, JSON text and the observable machinery
 * are outside the model.
 */
module MicroblinkApiService {
  import opened Wrappers
  import opened Json

  const DefaultEndpoint: string := "https://api.microblink.com"
  const RecognizePath: string := "/recognize/execute"
  const BearerPrefix: string := "Bearer "
  const NotValidJsonMessage: string := "Result is not valid JSON"
  /** XMLHttpRequest's DONE ready state. */
  const Done: int := 4

  /** The status codes the client reports; only the one it uses is modelled. */
  datatype StatusCode = ResultIsNotValidJSON

  /** The recognizers argument: one name, or a list of names. */
  datatype Recognizers = One(name: string) | Many(names: seq<string>)

  // ---------------------------------------------------------------------------
  // Request construction
  // ---------------------------------------------------------------------------

  /** The request body: the image, plus `recognizer` or `recognizers` depending on the argument's shape. */
  function RequestBody(recognizers: Recognizers, imageBase64: string): (body: Json)
    ensures body.JObject?
    ensures Lookup(body.members, "imageBase64") == Some(JString(imageBase64))
    ensures recognizers.One? ==>
      && Lookup(body.members, "recognizer") == Some(JString(recognizers.name))
      && Lookup(body.members, "recognizers") == None
    ensures recognizers.Many? ==>
      && Lookup(body.members, "recognizers") == Some(JArray(Strings(recognizers.names)))
      && Lookup(body.members, "recognizer") == None
    ensures |body.members| == 2
  {
    var recognizerField :=
      match recognizers
      case One(name) => ("recognizer", JString(name))
      case Many(names) => ("recognizers", JArray(Strings(names)));
    JObject([("imageBase64", JString(imageBase64)), recognizerField])
  }

  /**
   * What a body in the wire format means: an image and exactly one of the two
   * recognizer fields. Anything else is not a well-formed request body.
   */
  function ReadBody(body: Json): Option<(Recognizers, string)>
  {
    if !body.JObject? then None
    else
      var image: Option<Json> := Lookup(body.members, "imageBase64");
      var single: Option<Json> := Lookup(body.members, "recognizer");
      var list: Option<Json> := Lookup(body.members, "recognizers");
      match (image, single, list)
      case (Some(JString(image)), Some(JString(name)), None) => Some((One(name), image))
      case (Some(JString(image)), None, Some(JArray(items))) =>
        (match AsStrings(items)
         case Some(names) => Some((Many(names), image))
         case None => None)
      case _ => None
  }

  /** The body always carries the recognizers and the image it was built from, in a shape ReadBody accepts. */
  lemma ReadRequestBody(recognizers: Recognizers, imageBase64: string)
    ensures ReadBody(RequestBody(recognizers, imageBase64)) == Some((recognizers, imageBase64))
  {
    if recognizers.Many? {
      AsStringsOfStrings(recognizers.names);
    }
  }

  /** The URL the request is opened on. */
  function RequestUrl(endpoint: string): (url: string)
    ensures |url| == |endpoint| + |RecognizePath|
    ensures url[..|endpoint|] == endpoint && url[|endpoint|..] == RecognizePath
  {
    endpoint + RecognizePath
  }

  /** Distinct endpoints give distinct URLs: the URL determines which endpoint a request went to. */
  lemma RequestUrlInjective(a: string, b: string)
    requires RequestUrl(a) == RequestUrl(b)
    ensures a == b
  {
  }

  /** The isAuthorizationHeaderValid getter: the stored value starts with "Bearer ". */
  function IsAuthorizationHeaderValid(authorizationHeader: string): (valid: bool)
    ensures valid <==> |authorizationHeader| >= |BearerPrefix| && authorizationHeader[..|BearerPrefix|] == BearerPrefix
  {
    BearerPrefix <= authorizationHeader
  }

  /** A header value is accepted exactly when it is "Bearer " followed by some token. */
  lemma AuthorizationValidIffBearerToken(authorizationHeader: string)
    ensures IsAuthorizationHeaderValid(authorizationHeader)
            <==> exists token :: authorizationHeader == BearerPrefix + token
  {
    if IsAuthorizationHeaderValid(authorizationHeader) {
      var token := authorizationHeader[|BearerPrefix|..];
      assert authorizationHeader == BearerPrefix + token;
    }
    if exists token :: authorizationHeader == BearerPrefix + token {
      var token :| authorizationHeader == BearerPrefix + token;
      assert authorizationHeader[..|BearerPrefix|] == BearerPrefix;
    }
  }

  /** The check is literal: the empty default, a missing space or a lower-case scheme are all rejected. */
  lemma AuthorizationPrefixIsLiteral(token: string)
    ensures !IsAuthorizationHeaderValid("")
    ensures !IsAuthorizationHeaderValid("Bearer")
    ensures !IsAuthorizationHeaderValid("bearer " + token)
    ensures IsAuthorizationHeaderValid("Bearer " + token)
  {
  }

  /** The request headers, in the order they are set. */
  function RequestHeaders(authorizationHeader: string): (headers: seq<(string, string)>)
    ensures Lookup(headers, "Content-Type") == Some("application/json")
    ensures Lookup(headers, "Authorization")
            == if IsAuthorizationHeaderValid(authorizationHeader) then Some(authorizationHeader) else None
    ensures |headers| == if IsAuthorizationHeaderValid(authorizationHeader) then 2 else 1
  {
    [("Content-Type", "application/json")]
    + if IsAuthorizationHeaderValid(authorizationHeader) then [("Authorization", authorizationHeader)] else []
  }

  /** An opened, configured transfer ready to be sent. */
  datatype HttpRequest = HttpRequest(
    verb: string,
    url: string,
    withCredentials: bool,
    headers: seq<(string, string)>,
    body: Json)

  /** Everything Recognize sets on the transfer before sending it. */
  function BuildRequest(endpoint: string, authorizationHeader: string, recognizers: Recognizers, imageBase64: string)
    : (request: HttpRequest)
    ensures request.verb == "POST" && request.withCredentials
    ensures |request.url| == |endpoint| + |RecognizePath|
    ensures request.url[..|endpoint|] == endpoint && request.url[|endpoint|..] == RecognizePath
    ensures Lookup(request.headers, "Content-Type") == Some("application/json")
    ensures Lookup(request.headers, "Authorization")
            == if IsAuthorizationHeaderValid(authorizationHeader) then Some(authorizationHeader) else None
    ensures ReadBody(request.body) == Some((recognizers, imageBase64))
  {
    ReadRequestBody(recognizers, imageBase64);
    HttpRequest("POST", RequestUrl(endpoint), true, RequestHeaders(authorizationHeader),
                RequestBody(recognizers, imageBase64))
  }

  // ---------------------------------------------------------------------------
  // Completion: from the readystatechange event to the observer's signals
  // ---------------------------------------------------------------------------

  /** The error object reported when the response text is not JSON. */
  datatype ParseError = ParseError(error: string, code: StatusCode, responseText: string)

  /** One call on the observer. */
  datatype Signal = Next(value: Json) | Complete | Error(reason: ParseError)

  predicate IsTerminal(s: Signal)
  {
    s.Complete? || s.Error?
  }

  /** Observer grammar: no signal follows a terminal one. */
  predicate WellFormed(signals: seq<Signal>)
  {
    forall i :: 0 <= i < |signals| - 1 ==> !IsTerminal(signals[i])
  }

  /** The number of terminal signals. */
  function Terminals(signals: seq<Signal>): nat
  {
    if signals == [] then 0
    else (if IsTerminal(signals[0]) then 1 else 0) + Terminals(signals[1..])
  }

  lemma {:induction false} TerminalsAppend(a: seq<Signal>, b: seq<Signal>)
    ensures Terminals(a + b) == Terminals(a) + Terminals(b)
  {
    if a == [] {
      assert a + b == b;
    } else {
      assert (a + b)[1..] == a[1..] + b;
      TerminalsAppend(a[1..], b);
    }
  }

  /**
   * The readystatechange listener: at ready state 4 the response text is
   * parsed (`parsed` is JSON.parse's outcome) and either the value is passed
   * on and the stream completes, or a parse error carrying the raw text ends
   * it. Any other ready state signals nothing.
   */
  function OnReadyStateChange(readyState: int, parsed: Option<Json>, responseText: string): (signals: seq<Signal>)
    ensures WellFormed(signals)
    ensures Terminals(signals) == if readyState == Done then 1 else 0
    ensures readyState != Done ==> signals == []
    ensures forall v :: Next(v) in signals <==> readyState == Done && parsed == Some(v)
    ensures |signals| == if readyState != Done then 0 else if parsed.Some? then 2 else 1
    ensures readyState == Done && parsed.Some? ==> signals[|signals| - 1] == Complete
    ensures forall e :: Error(e) in signals
                        <==> readyState == Done && parsed.None?
                             && e == ParseError(NotValidJsonMessage, ResultIsNotValidJSON, responseText)
  {
    if readyState != Done then []
    else match parsed
      case Some(value) =>
        assert [Next(value), Complete][1..] == [Complete];
        assert Terminals([Complete]) == 1 by { assert [Complete][1..] == []; }
        [Next(value), Complete]
      case None => [Error(ParseError(NotValidJsonMessage, ResultIsNotValidJSON, responseText))]
  }

  /** The signals of a transfer that passes through the given ready states in order. */
  function Emitted(readyStates: seq<int>, parsed: Option<Json>, responseText: string): seq<Signal>
  {
    if readyStates == [] then []
    else Emitted(readyStates[..|readyStates| - 1], parsed, responseText)
         + OnReadyStateChange(readyStates[|readyStates| - 1], parsed, responseText)
  }

  /** How many times a transfer was in the DONE state. */
  function DoneCount(readyStates: seq<int>): nat
  {
    if readyStates == [] then 0
    else DoneCount(readyStates[..|readyStates| - 1]) + if readyStates[|readyStates| - 1] == Done then 1 else 0
  }

  /** Each DONE event ends the stream once; no other event ends it. */
  lemma {:induction false} EmittedTerminals(readyStates: seq<int>, parsed: Option<Json>, responseText: string)
    ensures Terminals(Emitted(readyStates, parsed, responseText)) == DoneCount(readyStates)
  {
    if readyStates != [] {
      var init := readyStates[..|readyStates| - 1];
      EmittedTerminals(init, parsed, responseText);
      TerminalsAppend(Emitted(init, parsed, responseText),
                      OnReadyStateChange(readyStates[|readyStates| - 1], parsed, responseText));
    }
  }

  /** Events before DONE signal nothing. */
  lemma {:induction false} EmittedBeforeDone(readyStates: seq<int>, parsed: Option<Json>, responseText: string)
    requires forall i :: 0 <= i < |readyStates| ==> readyStates[i] != Done
    ensures Emitted(readyStates, parsed, responseText) == []
  {
    if readyStates != [] {
      EmittedBeforeDone(readyStates[..|readyStates| - 1], parsed, responseText);
    }
  }

  /**
   * A transfer whose ready states end in a single DONE (as XMLHttpRequest's
   * do) signals exactly what the DONE event signals: next then complete, or
   * one parse error.
   */
  lemma EmittedWhenDoneLast(readyStates: seq<int>, parsed: Option<Json>, responseText: string)
    requires |readyStates| > 0 && readyStates[|readyStates| - 1] == Done
    requires forall i :: 0 <= i < |readyStates| - 1 ==> readyStates[i] != Done
    ensures Emitted(readyStates, parsed, responseText) == OnReadyStateChange(Done, parsed, responseText)
    ensures WellFormed(Emitted(readyStates, parsed, responseText))
  {
    EmittedBeforeDone(readyStates[..|readyStates| - 1], parsed, responseText);
  }

  // ---------------------------------------------------------------------------
  // The client
  // ---------------------------------------------------------------------------

  class MicroblinkApi {
    var endpoint: string
    var authorizationHeader: string
    /** Handles of the transfers started and not yet terminated, in submission order. */
    var activeRequests: seq<nat>
    /** How many transfers were ever created; the next one gets this id (a new object). */
    var created: nat

    /** Handles are distinct: they are listed in creation order, and none is newer than `created`. */
    ghost predicate Valid()
      reads this
    {
      && (forall i, j :: 0 <= i < j < |activeRequests| ==> activeRequests[i] < activeRequests[j])
      && (forall i :: 0 <= i < |activeRequests| ==> activeRequests[i] < created)
    }

    constructor ()
      ensures Valid()
      ensures endpoint == DefaultEndpoint && authorizationHeader == "" && activeRequests == []
    {
      endpoint := DefaultEndpoint;
      authorizationHeader := "";
      activeRequests := [];
      created := 0;
    }

    /** Aborts every tracked transfer, in list order, then forgets them all. Returns the aborted handles. */
    method TerminateAll() returns (aborted: seq<nat>)
      requires Valid()
      modifies this`activeRequests
      ensures Valid()
      ensures aborted == old(activeRequests)
      ensures forall i, j :: 0 <= i < j < |aborted| ==> aborted[i] < aborted[j]
      ensures activeRequests == []
      ensures endpoint == old(endpoint) && authorizationHeader == old(authorizationHeader)
    {
      aborted := [];
      var i := 0;
      while i < |activeRequests|
        invariant 0 <= i <= |activeRequests|
        invariant aborted == activeRequests[..i]
      {
        aborted := aborted + [activeRequests[i]];  // activeRequest.abort()
        i := i + 1;
      }
      assert activeRequests[..i] == activeRequests;
      activeRequests := [];
    }

    method SetAuthorization(authorizationHeader: string)
      requires Valid()
      modifies this`authorizationHeader
      ensures Valid()
      ensures this.authorizationHeader == authorizationHeader
      ensures endpoint == old(endpoint) && activeRequests == old(activeRequests)
    {
      this.authorizationHeader := authorizationHeader;
    }

    method SetEndpoint(endpoint: string)
      requires Valid()
      modifies this`endpoint
      ensures Valid()
      ensures this.endpoint == endpoint
      ensures authorizationHeader == old(authorizationHeader) && activeRequests == old(activeRequests)
    {
      this.endpoint := endpoint;
    }

    /**
     * Subscribing to Recognize's observable: builds and sends the request with
     * the current endpoint and authorization, and appends the new transfer's
     * handle to the active list.
     */
    method Recognize(recognizers: Recognizers, imageBase64: string) returns (request: HttpRequest, handle: nat)
      requires Valid()
      modifies this`activeRequests, this`created
      ensures Valid()
      ensures request == BuildRequest(old(endpoint), old(authorizationHeader), recognizers, imageBase64)
      ensures handle !in old(activeRequests)
      ensures old(created) <= handle < created
      ensures activeRequests == old(activeRequests) + [handle]
      ensures endpoint == old(endpoint) && authorizationHeader == old(authorizationHeader)
    {
      request := BuildRequest(endpoint, authorizationHeader, recognizers, imageBase64);
      handle := created;  // new XMLHttpRequest()
      created := created + 1;
      activeRequests := activeRequests + [handle];
    }
  }

  /** A request keeps the URL it was built with when the endpoint changes afterwards. */
  method EndpointChangeAfterSubmission(recognizers: Recognizers, imageBase64: string, otherEndpoint: string)
    returns (before: string, after: string)
    ensures before == RequestUrl(DefaultEndpoint)
    ensures after == RequestUrl(otherEndpoint)
  {
    var api := new MicroblinkApi();
    var r0, h0 := api.Recognize(recognizers, imageBase64);
    api.SetEndpoint(otherEndpoint);
    var r1, h1 := api.Recognize(recognizers, imageBase64);
    before, after := r0.url, r1.url;
  }

  /** A handle is never reused, even after the list it was in has been cleared. */
  method HandleNotReusedAfterTerminate(recognizers: Recognizers, imageBase64: string)
    returns (before: nat, aborted: seq<nat>, after: nat)
    ensures aborted == [before]
    ensures after != before
  {
    var api := new MicroblinkApi();
    var r0;
    r0, before := api.Recognize(recognizers, imageBase64);
    aborted := api.TerminateAll();
    var r1;
    r1, after := api.Recognize(recognizers, imageBase64);
  }

  /**
   * Three submissions cancelled together: three distinct aborts, and a second
   * cancellation aborts nothing.
   */
  method ThreeRequestsThenTerminate(first: Recognizers, second: Recognizers, third: Recognizers, imageBase64: string)
    returns (aborted: seq<nat>, abortedAgain: seq<nat>)
    ensures |aborted| == 3 && aborted[0] != aborted[1] && aborted[1] != aborted[2] && aborted[0] != aborted[2]
    ensures abortedAgain == []
  {
    var api := new MicroblinkApi();
    var r0, h0 := api.Recognize(first, imageBase64);
    var r1, h1 := api.Recognize(second, imageBase64);
    var r2, h2 := api.Recognize(third, imageBase64);
    assert |api.activeRequests| == 3;
    aborted := api.TerminateAll();
    assert aborted[0] < aborted[1] < aborted[2];
    abortedAgain := api.TerminateAll();
  }
}
