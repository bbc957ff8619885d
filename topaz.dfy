/**
  The Angular service that talks to the SigWeb host: where its requests go,
  how it reads the host's text answers, how it turns a failed request into a
  message for the user, and how each action moves the status fields the page
  shows. Every network answer is an input (`Reply`); the requests an action
  issues are recorded in order in `sent`.
 */
module Topaz {
  import opened Wrappers
  import opened JsString

  // ---------------------------------------------------------------- where requests go

  /** `window.location` of the page; `None` stands for `typeof window === 'undefined'`. */
  datatype Location = Location(protocol: string, hostname: string, origin: string)

  const DirectOrigin: string := "http://localhost:47289"
  const BridgeOrigin: string := "https://localhost:9443"
  const ApiPrefix: string := "/sigweb"
  const HealthPath: string := "/health"

  predicate IsHttpsPage(w: Option<Location>) {
    w.Some? && w.value.protocol == "https:"
  }

  /** The page is served by the local bridge itself: HTTPS on `localhost`. */
  predicate OnLocalBridge(w: Option<Location>) {
    IsHttpsPage(w) && w.value.hostname == "localhost"
  }

  /**
    `baseUrl`: no window gives the direct HTTP address, an HTTPS page on
    localhost its own origin, any other HTTPS page the bridge on port 9443,
    and everything else the direct HTTP address. It always ends in `/sigweb`.
   */
  function BaseUrl(w: Option<Location>): (r: string)
    ensures EndsWith(r, ApiPrefix)
  {
    var origin :=
      if w.None? then DirectOrigin
      else if w.value.protocol == "https:" && w.value.hostname == "localhost" then w.value.origin
      else if w.value.protocol == "https:" && w.value.hostname != "localhost" then BridgeOrigin
      else DirectOrigin;
    EndsWithConcat(origin, ApiPrefix);
    origin + ApiPrefix
  }

  /** `bridgeOriginForDisplay` */
  function BridgeOriginForDisplay(w: Option<Location>): string {
    if OnLocalBridge(w) then w.value.origin else BridgeOrigin
  }

  /** `bridgeHealthUrl` */
  function BridgeHealthUrl(w: Option<Location>): string {
    if OnLocalBridge(w) then w.value.origin + HealthPath else BridgeOrigin + HealthPath
  }

  /**
    The three address getters agree: the health check goes to the origin that
    is displayed, and an HTTPS page sends its API calls to that same origin;
    only a plain-HTTP page or a missing window calls SigWeb directly.
   */
  lemma AddressesAgree(w: Option<Location>)
    ensures BridgeHealthUrl(w) == BridgeOriginForDisplay(w) + HealthPath
    ensures IsHttpsPage(w) ==> BaseUrl(w) == BridgeOriginForDisplay(w) + ApiPrefix
    ensures !IsHttpsPage(w) ==> BaseUrl(w) == DirectOrigin + ApiPrefix
    ensures BridgeOriginForDisplay(w) == (if OnLocalBridge(w) then w.value.origin else BridgeOrigin)
  {
  }

  // ---------------------------------------------------------------- reading answers

  predicate IsQuote(c: char) {
    c == '"' || c == '\''
  }

  /** `normalizeTextResponse`: trim, then drop one pair of matching outer quotes. */
  function NormalizeTextResponse(value: string): (r: string)
    ensures |r| <= |Trim(value)|
  {
    var t := Trim(value);
    if (StartsWith(t, "\"") && EndsWith(t, "\"")) || (StartsWith(t, "'") && EndsWith(t, "'")) then
      Slice(t, 1, -1)
    else
      t
  }

  /** Exactly one layer of matching quotes around a value comes off. */
  lemma NormalizeUnquotes(q: char, s: string)
    requires IsQuote(q)
    ensures NormalizeTextResponse([q] + s + [q]) == s
  {
    var x := [q] + s + [q];
    assert x[0] == q && x[|x| - 1] == q;
    TrimOfTrimmed(x);
    assert x[..1] == [q] && x[|x| - 1..] == [q];
    SliceOneEachEnd(x);
    assert x[1..|x| - 1] == s;
  }

  /** A trimmed value that is not wrapped in one kind of quote comes back unchanged, mismatched quotes included. */
  lemma NormalizeKeepsUnquoted(s: string)
    requires IsTrimmed(s)
    requires !(|s| >= 1 && IsQuote(s[0]) && s[|s| - 1] == s[0])
    ensures NormalizeTextResponse(s) == s
  {
    TrimOfTrimmed(s);
    if |s| >= 1 {
      assert StartsWith(s, "\"") ==> s[0] == '"';
      assert StartsWith(s, "'") ==> s[0] == '\'';
      assert EndsWith(s, "\"") ==> s[|s| - 1] == '"';
      assert EndsWith(s, "'") ==> s[|s| - 1] == '\'';
    }
  }

  /**
    Normalising is not idempotent: `""1""` reads as `"1"`, which a second
    pass reads as `1`.
   */
  lemma NormalizeNotIdempotent()
    ensures var x := ['"', '"', '1', '"', '"'];
      NormalizeTextResponse(x) == ['"', '1', '"']
      && NormalizeTextResponse(NormalizeTextResponse(x)) == ['1']
      && NormalizeTextResponse(NormalizeTextResponse(x)) != NormalizeTextResponse(x)
  {
    assert ['"', '"', '1', '"', '"'] == ['"'] + ['"', '1', '"'] + ['"'];
    NormalizeUnquotes('"', ['"', '1', '"']);
    assert ['"', '1', '"'] == ['"'] + ['1'] + ['"'];
    NormalizeUnquotes('"', ['1']);
  }

  // ---------------------------------------------------------------- error messages

  /** The `error` payload of an `HttpErrorResponse`: a string, or anything else. */
  datatype ErrorBody = TextBody(text: string) | OtherBody

  /** What a failed request reports: an `HttpErrorResponse`, or any other thrown value. */
  datatype Failure =
    | HttpError(status: int, statusText: string, body: ErrorBody)
    | OtherError

  function BaseMessage(action: string): string {
    "Failed to " + action + "."
  }

  const MixedContentAdvice: string :=
    " This page is running over HTTPS (GitHub Pages). Browsers block calls from an HTTPS page to "
    + "http://localhost (mixed content), so the request may never reach SigWeb.\n\n"
    + "Best options: run this app locally over HTTP (ng serve), or use a local bridge/proxy on localhost "
    + "that serves HTTPS and forwards to SigWeb.\n\n"
    + "If you tried https://localhost:47289 and DevTools shows ERR_SSL_PROTOCOL_ERROR, "
    + "it usually means SigWeb is HTTP-only on that port (no TLS)."

  const UnreachableAdvice: string :=
    " The request did not reach SigWeb (connection refused, CORS, or SigWeb not running). "
    + "Verify http://localhost:47289/sigweb/version in your browser."

  /** A string error body that is not blank. */
  predicate HasTextBody(e: Failure) {
    e.HttpError? && e.body.TextBody? && Trim(e.body.text) != []
  }

  /**
    `toHelpfulError`: status 0 explains mixed content on an HTTPS page and an
    unreachable host otherwise; another status shows the trimmed string body
    when there is one, else `HTTP <status> <statusText>` trimmed; a value that
    is not an `HttpErrorResponse` gives the bare `Failed to <action>.`
   */
  function ToHelpfulError(w: Option<Location>, action: string, e: Failure): (r: string)
    ensures StartsWith(r, BaseMessage(action))
    ensures e.OtherError? <==> r == BaseMessage(action)
  {
    var base := BaseMessage(action);
    match e
    case OtherError => base
    case HttpError(status, statusText, body) =>
      if status == 0 then
        (if IsHttpsPage(w) then base + MixedContentAdvice else base + UnreachableAdvice)
      else if HasTextBody(e) then
        base + " " + Trim(body.text)
      else
        StatusLineKeepsBase(action, status, statusText);
        Trim(base + " HTTP " + IntToString(status) + " " + statusText)
  }

  /** The bare status line always starts with `Failed to <action>. HTTP <status>`. */
  lemma StatusLineKeepsBase(action: string, status: int, statusText: string)
    ensures var r := Trim(BaseMessage(action) + " HTTP " + IntToString(status) + " " + statusText);
      StartsWith(r, BaseMessage(action) + " HTTP " + IntToString(status))
      && |r| > |BaseMessage(action)|
  {
    var p := BaseMessage(action) + " HTTP " + IntToString(status);
    var q := " " + statusText;
    var s := BaseMessage(action) + " HTTP " + IntToString(status) + " " + statusText;
    assert s == p + q;
    assert s[0] == 'F';
    TrimOfNonBlankStart(s);
    assert p[|p| - 1] == IntToString(status)[|IntToString(status)| - 1];
    TrimEndKeepsPrefix(p, q);
  }

  /** A non-blank string body from the host is passed on, trimmed, after the base message. */
  lemma HelpfulErrorShowsBody(w: Option<Location>, action: string, e: Failure)
    requires HasTextBody(e) && e.status != 0
    ensures ToHelpfulError(w, action, e) == BaseMessage(action) + " " + Trim(e.body.text)
  {
  }

  /** Whether the page is HTTPS matters only when the status is 0. */
  lemma HelpfulErrorPageMattersOnlyForStatusZero(w1: Option<Location>, w2: Option<Location>, action: string, e: Failure)
    requires !(e.HttpError? && e.status == 0) || IsHttpsPage(w1) == IsHttpsPage(w2)
    ensures ToHelpfulError(w1, action, e) == ToHelpfulError(w2, action, e)
  {
  }

  /** With status 0, the two pages get different advice. */
  lemma HelpfulErrorStatusZero(w: Option<Location>, action: string, statusText: string, body: ErrorBody)
    ensures var r := ToHelpfulError(w, action, HttpError(0, statusText, body));
      r == BaseMessage(action) + (if IsHttpsPage(w) then MixedContentAdvice else UnreachableAdvice)
    ensures MixedContentAdvice != UnreachableAdvice
  {
    assert |MixedContentAdvice| != |UnreachableAdvice|;
  }

  // ---------------------------------------------------------------- status and actions

  /** The outcome of one request: the response text, or the failure it reported. */
  datatype Reply = Ok(body: string) | Failed(error: Failure)

  /** A request the service issued. */
  datatype Request = Get(url: string) | Post(url: string, body: string)

  /** The answers to the three requests of `refreshStatus`: bridge health, version, tablet query. */
  datatype StatusReplies = StatusReplies(health: Reply, version: Reply, connect: Reply)

  /** The service's observable fields, the requests it has issued, and whether a listener is attached. */
  datatype Status = Status(
    bridgeDetected: Option<bool>,
    version: Option<string>,
    tabletConnected: Option<bool>,
    lastAction: Option<string>,
    lastError: Option<string>,
    sent: seq<Request>,
    listening: bool)

  const FormBody: string := "x="

  const EmptyImageMessage: string :=
    "SigWeb returned an empty image. This usually means no signature has been captured yet "
    + "or the tablet is not connected."

  /** `postNoBody`: a POST of the form body `x=` to a SigWeb path. */
  function PostNoBody(w: Option<Location>, path: string): Request {
    Post(BaseUrl(w) + path, FormBody)
  }

  /** `getText` */
  function GetText(w: Option<Location>, path: string): Request {
    Get(BaseUrl(w) + path)
  }

  /** `refreshBridgeStatus` */
  function AfterRefreshBridge(w: Option<Location>, st: Status, health: Reply): Status {
    if w.None? || w.value.protocol != "https:" then
      st.(bridgeDetected := None)
    else
      st.(sent := st.sent + [Get(BridgeHealthUrl(w))], bridgeDetected := Some(health.Ok?))
  }

  /** `refreshStatus` */
  function AfterRefreshStatus(w: Option<Location>, st: Status, r: StatusReplies): Status {
    var s1 := AfterRefreshBridge(w, st, r.health);
    var s2 := s1.(sent := s1.sent + [GetText(w, "/version")]);
    var s3 := s2.(version := if r.version.Ok? then Some(NormalizeTextResponse(r.version.body)) else None);
    var s4 := s3.(sent := s3.sent + [GetText(w, "/TabletConnectQuery")]);
    s4.(tabletConnected := if r.connect.Ok? then Some(NormalizeTextResponse(r.connect.body) == "1") else None)
  }

  /** What `startCapture` does before its status refresh: `OpenTablet/0`, then on success `TabletState/1`. */
  function StartCaptureSteps(w: Option<Location>, st: Status, open: Reply, state: Reply): Status {
    var s1 := st.(lastAction := Some("Start"), lastError := None);
    var s2 := s1.(sent := s1.sent + [PostNoBody(w, "/OpenTablet/0")]);
    if open.Ok? then
      var s3 := s2.(sent := s2.sent + [PostNoBody(w, "/TabletState/1")]);
      if state.Ok? then s3
      else s3.(lastError := Some(ToHelpfulError(w, "switch the tablet into capture mode (TabletState/1)", state.error)))
    else
      s2.(lastError := Some(ToHelpfulError(w, "open the tablet (OpenTablet/0)", open.error)))
  }

  /** `startCapture`: every branch ends with a status refresh. */
  function AfterStartCapture(w: Option<Location>, st: Status, open: Reply, state: Reply, r: StatusReplies): Status {
    AfterRefreshStatus(w, StartCaptureSteps(w, st, open, state), r)
  }

  /** What `clear` does before its status refresh: `ClearSignature`, and its error on failure. */
  function ClearSteps(w: Option<Location>, st: Status, reply: Reply): Status {
    var s1 := st.(lastAction := Some("Clear"), lastError := None);
    var s2 := s1.(sent := s1.sent + [GetText(w, "/ClearSignature")]);
    if reply.Ok? then s2
    else s2.(lastError := Some(ToHelpfulError(w, "clear the signature (ClearSignature)", reply.error)))
  }

  /** `clear`: both branches end with a status refresh. */
  function AfterClear(w: Option<Location>, st: Status, reply: Reply, r: StatusReplies): Status {
    AfterRefreshStatus(w, ClearSteps(w, st, reply), r)
  }

  /**
    `getImage`: `SigImage/0`; a non-empty normalised answer goes to the
    listener (the second component, when one is attached), an empty one
    sets the empty-image error.
   */
  function AfterGetImage(w: Option<Location>, st: Status, reply: Reply): (Status, Option<string>) {
    var s1 := st.(lastAction := Some("Save"), lastError := None);
    var s2 := s1.(sent := s1.sent + [GetText(w, "/SigImage/0")]);
    if reply.Ok? then
      var normalized := NormalizeTextResponse(reply.body);
      if normalized != [] then (s2, if s2.listening then Some(normalized) else None)
      else (s2.(lastError := Some(EmptyImageMessage)), None)
    else
      (s2.(lastError := Some(ToHelpfulError(w, "fetch the signature image (SigImage/0)", reply.error))), None)
  }

  // ---------------------------------------------------------------- what the actions promise

  /**
    `refreshBridgeStatus` without a window or on a page that is not HTTPS
    issues nothing and clears the flag; otherwise it asks the health URL and
    the flag records whether that answered.
   */
  lemma RefreshBridgeFacts(w: Option<Location>, st: Status, health: Reply)
    ensures var s := AfterRefreshBridge(w, st, health);
      && (!IsHttpsPage(w) ==> s.bridgeDetected == None && s.sent == st.sent)
      && (IsHttpsPage(w) ==> s.sent == st.sent + [Get(BridgeHealthUrl(w))] && s.bridgeDetected == Some(health.Ok?))
      && s == st.(bridgeDetected := s.bridgeDetected, sent := s.sent)
  {
  }

  /** The requests `refreshStatus` issues: the bridge health check on an HTTPS page, then the version and the tablet query. */
  function RefreshRequests(w: Option<Location>): seq<Request> {
    (if IsHttpsPage(w) then [Get(BridgeHealthUrl(w))] else [])
    + [GetText(w, "/version"), GetText(w, "/TabletConnectQuery")]
  }

  /** `refreshStatus` appends exactly its requests to the log. */
  lemma RefreshStatusSent(w: Option<Location>, st: Status, r: StatusReplies)
    ensures AfterRefreshStatus(w, st, r).sent == st.sent + RefreshRequests(w)
  {
    var v, q := GetText(w, "/version"), GetText(w, "/TabletConnectQuery");
    if IsHttpsPage(w) {
      assert st.sent + [Get(BridgeHealthUrl(w))] + [v] + [q] == st.sent + ([Get(BridgeHealthUrl(w))] + [v, q]);
    } else {
      assert st.sent + [v] + [q] == st.sent + ([] + [v, q]);
    }
  }

  /**
    After `refreshStatus` the tablet counts as connected exactly when the
    query answered `1` once normalised, is unknown exactly when the query
    failed, and the version is the normalised answer or unknown on failure.
    The action and error fields are left alone.
   */
  lemma RefreshStatusFacts(w: Option<Location>, st: Status, r: StatusReplies)
    ensures var s := AfterRefreshStatus(w, st, r);
      && (s.tabletConnected == Some(true) <==> r.connect.Ok? && NormalizeTextResponse(r.connect.body) == "1")
      && (s.tabletConnected == None <==> r.connect.Failed?)
      && (s.version == None <==> r.version.Failed?)
      && (r.version.Ok? ==> s.version == Some(NormalizeTextResponse(r.version.body)))
      && s.lastAction == st.lastAction && s.lastError == st.lastError && s.listening == st.listening
      && s.sent == st.sent + RefreshRequests(w)
  {
    RefreshStatusSent(w, st, r);
  }

  /** A status refresh leaves the action, the error and the listener as they were. */
  lemma RefreshKeepsOutcome(w: Option<Location>, st: Status, r: StatusReplies)
    ensures var s := AfterRefreshStatus(w, st, r);
      s.lastAction == st.lastAction && s.lastError == st.lastError && s.listening == st.listening
  {
  }

  /** A quoted `"1"` from the tablet query still counts as connected. */
  lemma QuotedOneCountsAsConnected(w: Option<Location>, st: Status, health: Reply, version: Reply)
    ensures AfterRefreshStatus(w, st, StatusReplies(health, version, Ok(['"', '1', '"']))).tabletConnected == Some(true)
  {
    assert ['"', '1', '"'] == ['"'] + ['1'] + ['"'];
    NormalizeUnquotes('"', ['1']);
    RefreshStatusFacts(w, st, StatusReplies(health, version, Ok(['"', '1', '"'])));
  }

  /**
    `startCapture` marks the action `Start` and ends with no error exactly
    when both posts succeeded; a failed open reports the open, a failed
    state switch reports the switch.
   */
  lemma StartCaptureOutcome(w: Option<Location>, st: Status, open: Reply, state: Reply, r: StatusReplies)
    ensures var s := AfterStartCapture(w, st, open, state, r);
      && s.lastAction == Some("Start")
      && (s.lastError == None <==> open.Ok? && state.Ok?)
      && (open.Failed? ==> s.lastError == Some(ToHelpfulError(w, "open the tablet (OpenTablet/0)", open.error)))
      && (open.Ok? && state.Failed? ==>
            s.lastError == Some(ToHelpfulError(w, "switch the tablet into capture mode (TabletState/1)", state.error)))
  {
    RefreshKeepsOutcome(w, StartCaptureSteps(w, st, open, state), r);
  }

  /** `startCapture` appends `OpenTablet/0`, `TabletState/1` when the open succeeded, and the refresh's requests. */
  lemma StartCaptureSent(w: Option<Location>, st: Status, open: Reply, state: Reply, r: StatusReplies)
    ensures AfterStartCapture(w, st, open, state, r).sent
      == st.sent + [PostNoBody(w, "/OpenTablet/0")]
         + (if open.Ok? then [PostNoBody(w, "/TabletState/1")] else []) + RefreshRequests(w)
  {
    RefreshStatusSent(w, StartCaptureSteps(w, st, open, state), r);
  }

  /**
    `startCapture` always posts `OpenTablet/0` first and posts
    `TabletState/1` only after the open succeeded.
   */
  lemma StartCaptureOrder(w: Option<Location>, st: Status, open: Reply, state: Reply, r: StatusReplies)
    ensures var s := AfterStartCapture(w, st, open, state, r);
      && |s.sent| > |st.sent|
      && s.sent[..|st.sent|] == st.sent
      && s.sent[|st.sent|] == PostNoBody(w, "/OpenTablet/0")
      && (PostNoBody(w, "/TabletState/1") in s.sent[|st.sent|..] <==> open.Ok?)
  {
    var s := AfterStartCapture(w, st, open, state, r);
    var openPost, statePost := PostNoBody(w, "/OpenTablet/0"), PostNoBody(w, "/TabletState/1");
    var middle := if open.Ok? then [statePost] else [];
    var added := [openPost] + middle + RefreshRequests(w);
    StartCaptureSent(w, st, open, state, r);
    assert s.sent == st.sent + added;
    assert s.sent[|st.sent|..] == added;
    if open.Failed? {
      OpenAndStatePathsDiffer(w);
      NoPostInRefresh(w);
      assert statePost !in RefreshRequests(w);
    }
  }

  /** The two capture posts go to different URLs. */
  lemma OpenAndStatePathsDiffer(w: Option<Location>)
    ensures PostNoBody(w, "/OpenTablet/0") != PostNoBody(w, "/TabletState/1")
  {
    var b := BaseUrl(w);
    assert (b + "/OpenTablet/0")[|b| + 1] == 'O';
    assert (b + "/TabletState/1")[|b| + 1] == 'T';
  }

  /** `refreshStatus` only issues GET requests. */
  lemma NoPostInRefresh(w: Option<Location>)
    ensures forall q :: q in RefreshRequests(w) ==> q.Get?
  {
  }

  /** `clear` marks the action `Clear` and ends with no error exactly when the host cleared. */
  lemma ClearFacts(w: Option<Location>, st: Status, reply: Reply, r: StatusReplies)
    ensures var s := AfterClear(w, st, reply, r);
      && s.lastAction == Some("Clear")
      && |s.sent| > |st.sent| && s.sent[|st.sent|] == GetText(w, "/ClearSignature")
      && (s.lastError == None <==> reply.Ok?)
      && (reply.Failed? ==> s.lastError == Some(ToHelpfulError(w, "clear the signature (ClearSignature)", reply.error)))
  {
    RefreshKeepsOutcome(w, ClearSteps(w, st, reply), r);
    RefreshStatusSent(w, ClearSteps(w, st, reply), r);
  }

  /**
    `getImage` marks the action `Save`; a payload reaches the listener only
    when the host answered with a non-empty normalised text, and it is that
    text; an empty answer sets the empty-image error and delivers nothing.
   */
  lemma GetImageFacts(w: Option<Location>, st: Status, reply: Reply)
    ensures var (s, delivered) := AfterGetImage(w, st, reply);
      && s.lastAction == Some("Save")
      && s.sent == st.sent + [GetText(w, "/SigImage/0")]
      && (delivered.Some? <==> st.listening && reply.Ok? && NormalizeTextResponse(reply.body) != [])
      && (delivered.Some? ==> delivered.value == NormalizeTextResponse(reply.body))
      && (reply.Ok? && NormalizeTextResponse(reply.body) == [] ==> s.lastError == Some(EmptyImageMessage))
      && (s.lastError == None <==> reply.Ok? && NormalizeTextResponse(reply.body) != [])
  {
  }

  // ---------------------------------------------------------------- the form body

  /** Every POST in a request log carries the non-empty form body `x=`. */
  predicate PostsCarryBody(sent: seq<Request>) {
    forall q :: q in sent && q.Post? ==> q.body == FormBody
  }

  lemma ConcatKeepsBody(a: seq<Request>, b: seq<Request>)
    requires PostsCarryBody(a) && PostsCarryBody(b)
    ensures PostsCarryBody(a + b)
  {
  }

  lemma RefreshKeepsBody(w: Option<Location>, st: Status, r: StatusReplies)
    requires PostsCarryBody(st.sent)
    ensures PostsCarryBody(AfterRefreshStatus(w, st, r).sent)
  {
    RefreshStatusSent(w, st, r);
    NoPostInRefresh(w);
    ConcatKeepsBody(st.sent, RefreshRequests(w));
  }

  lemma StartCaptureKeepsBody(w: Option<Location>, st: Status, open: Reply, state: Reply, r: StatusReplies)
    requires PostsCarryBody(st.sent)
    ensures PostsCarryBody(AfterStartCapture(w, st, open, state, r).sent)
  {
    StartCaptureSent(w, st, open, state, r);
    NoPostInRefresh(w);
    var posts := [PostNoBody(w, "/OpenTablet/0")] + (if open.Ok? then [PostNoBody(w, "/TabletState/1")] else []);
    ConcatKeepsBody(st.sent, posts);
    ConcatKeepsBody(st.sent + posts, RefreshRequests(w));
  }

  lemma ClearKeepsBody(w: Option<Location>, st: Status, reply: Reply, r: StatusReplies)
    requires PostsCarryBody(st.sent)
    ensures PostsCarryBody(AfterClear(w, st, reply, r).sent)
  {
    ConcatKeepsBody(st.sent, [GetText(w, "/ClearSignature")]);
    RefreshKeepsBody(w, ClearSteps(w, st, reply), r);
  }

  /** Each action keeps every POST body equal to `x=`, so none of them can draw a 411 for a missing length. */
  lemma ActionsKeepBody(w: Option<Location>, st: Status, open: Reply, state: Reply, reply: Reply, r: StatusReplies)
    requires PostsCarryBody(st.sent)
    ensures PostsCarryBody(AfterRefreshStatus(w, st, r).sent)
    ensures PostsCarryBody(AfterStartCapture(w, st, open, state, r).sent)
    ensures PostsCarryBody(AfterClear(w, st, reply, r).sent)
    ensures PostsCarryBody(AfterGetImage(w, st, reply).0.sent)
    ensures FormBody != []
  {
    RefreshKeepsBody(w, st, r);
    StartCaptureKeepsBody(w, st, open, state, r);
    ClearKeepsBody(w, st, reply, r);
    ConcatKeepsBody(st.sent, [GetText(w, "/SigImage/0")]);
  }

  // ---------------------------------------------------------------- the service object

  /** `TopazService`: the status fields, the stored listener flag and the request log. */
  class TopazService {
    const window: Option<Location>
    var bridgeDetected: Option<bool>
    var version: Option<string>
    var tabletConnected: Option<bool>
    var lastAction: Option<string>
    var lastError: Option<string>
    var sent: seq<Request>
    var listening: bool

    function State(): Status
      reads this
    {
      Status(bridgeDetected, version, tabletConnected, lastAction, lastError, sent, listening)
    }

    constructor(w: Option<Location>)
      ensures window == w
      ensures State() == Status(None, None, None, None, None, [], false)
    {
      window := w;
      bridgeDetected := None;
      version := None;
      tabletConnected := None;
      lastAction := None;
      lastError := None;
      sent := [];
      listening := false;
    }

    /** `connect`: store the listener. */
    method Connect()
      modifies this
      ensures State() == old(State()).(listening := true)
    {
      listening := true;
    }

    method RefreshBridgeStatus(health: Reply)
      modifies this
      ensures State() == AfterRefreshBridge(window, old(State()), health)
    {
      if window.None? {
        bridgeDetected := None;
        return;
      }
      if window.value.protocol != "https:" {
        bridgeDetected := None;
        return;
      }
      sent := sent + [Get(BridgeHealthUrl(window))];
      bridgeDetected := Some(health.Ok?);
    }

    method RefreshStatus(r: StatusReplies)
      modifies this
      ensures State() == AfterRefreshStatus(window, old(State()), r)
    {
      RefreshBridgeStatus(r.health);
      sent := sent + [GetText(window, "/version")];
      if r.version.Ok? {
        version := Some(NormalizeTextResponse(r.version.body));
      } else {
        version := None;
      }
      sent := sent + [GetText(window, "/TabletConnectQuery")];
      if r.connect.Ok? {
        tabletConnected := Some(NormalizeTextResponse(r.connect.body) == "1");
      } else {
        tabletConnected := None;
      }
    }

    method StartCapture(open: Reply, state: Reply, r: StatusReplies)
      modifies this
      ensures State() == AfterStartCapture(window, old(State()), open, state, r)
    {
      lastAction := Some("Start");
      lastError := None;
      sent := sent + [PostNoBody(window, "/OpenTablet/0")];
      if open.Ok? {
        sent := sent + [PostNoBody(window, "/TabletState/1")];
        if state.Ok? {
          RefreshStatus(r);
        } else {
          lastError := Some(ToHelpfulError(window, "switch the tablet into capture mode (TabletState/1)", state.error));
          RefreshStatus(r);
        }
      } else {
        lastError := Some(ToHelpfulError(window, "open the tablet (OpenTablet/0)", open.error));
        RefreshStatus(r);
      }
    }

    method Clear(reply: Reply, r: StatusReplies)
      modifies this
      ensures State() == AfterClear(window, old(State()), reply, r)
    {
      lastAction := Some("Clear");
      lastError := None;
      sent := sent + [GetText(window, "/ClearSignature")];
      if reply.Ok? {
        RefreshStatus(r);
      } else {
        lastError := Some(ToHelpfulError(window, "clear the signature (ClearSignature)", reply.error));
        RefreshStatus(r);
      }
    }

    /** Returns the payload handed to the listener, if any. */
    method GetImage(reply: Reply) returns (delivered: Option<string>)
      modifies this
      ensures (State(), delivered) == AfterGetImage(window, old(State()), reply)
    {
      lastAction := Some("Save");
      lastError := None;
      sent := sent + [GetText(window, "/SigImage/0")];
      delivered := None;
      if reply.Ok? {
        var normalized := NormalizeTextResponse(reply.body);
        if normalized != [] {
          if listening {
            delivered := Some(normalized);
          }
        } else {
          lastError := Some(EmptyImageMessage);
        }
      } else {
        lastError := Some(ToHelpfulError(window, "fetch the signature image (SigImage/0)", reply.error));
      }
    }
  }
}
