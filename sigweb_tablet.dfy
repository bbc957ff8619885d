/**
  The vendor's browser-side SigWeb client: where the SigWeb host lives, which
  browser is running, the XMLHttpRequest helpers that read and write tablet
  properties, and the few named wrappers the demo uses. The host's answers
  and the random digits are inputs; an `Xhr` object steps through the states
  the helpers inspect.
 */
module SigWebTablet {
  import opened Wrappers
  import opened JsString

  // ---------------------------------------------------------------- browser and base URI

  /** The two `navigator` fields the browser checks read. */
  datatype Navigator = Navigator(appName: string, userAgent: string)

  /** The line terminators that `.` in a JavaScript regular expression does not match. */
  predicate IsLineTerminator(c: char) {
    c == '\n' || c == '\r' || c == '\U{2028}' || c == '\U{2029}'
  }

  /** `/Trident\/.*rv:([0-9]{1,}[.0-9]{0,})/` finds a match somewhere in `ua`. */
  predicate TridentMatch(ua: string) {
    exists i | 0 <= i <= |ua| && HasAt(ua, "Trident/", i) ::
      exists j | i + 8 <= j < |ua| - 3 && HasAt(ua, "rv:", j) ::
        IsDigit(ua[j + 3]) && (forall k | i + 8 <= k < j :: !IsLineTerminator(ua[k]))
  }

  /** `isIE` */
  predicate IsIE(nav: Navigator) {
    nav.appName == "Microsoft Internet Explorer" || (nav.appName == "Netscape" && TridentMatch(nav.userAgent))
  }

  /** `isChrome`: the last `Chrome/` in the user agent lies after its first character. */
  predicate IsChrome(ua: string) {
    LastIndexOf(ua, "Chrome/") > 0
  }

  /** `isChrome` holds exactly when `Chrome/` occurs at some index other than 0. */
  lemma IsChromeIff(ua: string)
    ensures IsChrome(ua) <==> exists i :: 0 < i && HasAt(ua, "Chrome/", i)
  {
    var r := LastIndexOf(ua, "Chrome/");
    if r > 0 {
      assert HasAt(ua, "Chrome/", r);
    }
    if exists i :: 0 < i && HasAt(ua, "Chrome/", i) {
      var i :| 0 < i && HasAt(ua, "Chrome/", i);
      assert i <= |ua| - 7;
    }
  }

  const PlainHost: string := "//tablet.sigwebtablet.com:47289/SigWeb/"
  const SecureHost: string := "//tablet.sigwebtablet.com:47290/SigWeb/"

  /** `makeUri`, with its three browser branches as written. */
  function MakeUri(protocol: string, nav: Navigator): string {
    var prot := if protocol == "file:" then "http:" else protocol;
    if IsIE(nav) then
      (if prot == "https:" then prot + SecureHost else prot + PlainHost)
    else if IsChrome(nav.userAgent) then
      (if prot == "https:" then prot + SecureHost else prot + PlainHost)
    else
      (if prot == "https:" then prot + SecureHost else prot + PlainHost)
  }

  /** Where the SigWeb host is reached from a page served with `protocol`. */
  function SigWebUri(protocol: string): (r: string)
    ensures protocol == "https:" ==> r == "https:" + SecureHost
    ensures protocol == "file:" ==> r == "http:" + PlainHost
    ensures protocol != "https:" && protocol != "file:" ==> r == protocol + PlainHost
  {
    if protocol == "https:" then "https:" + SecureHost
    else if protocol == "file:" then "http:" + PlainHost
    else protocol + PlainHost
  }

  /** The browser branches of `makeUri` agree: the base URI depends on the protocol alone. */
  lemma MakeUriDependsOnlyOnProtocol(protocol: string, nav: Navigator)
    ensures MakeUri(protocol, nav) == SigWebUri(protocol)
  {
  }

  /** A secure page talks to port 47290 and any other page to port 47289. */
  lemma MakeUriPorts(protocol: string, a: Navigator, b: Navigator)
    ensures MakeUri(protocol, a) == MakeUri(protocol, b)
    ensures EndsWith(MakeUri(protocol, a), if protocol == "https:" then SecureHost else PlainHost)
  {
    MakeUriDependsOnlyOnProtocol(protocol, a);
    MakeUriDependsOnlyOnProtocol(protocol, b);
    if protocol == "https:" {
      EndsWithConcat("https:", SecureHost);
    } else if protocol == "file:" {
      EndsWithConcat("http:", PlainHost);
    } else {
      EndsWithConcat(protocol, PlainHost);
    }
  }

  // ---------------------------------------------------------------- requests

  /** One request as the helpers open and send it. */
  datatype Request = Request(
    verb: string,
    url: string,
    synchronous: bool,
    contentType: Option<string>,
    body: Option<string>)

  /** What the SigWeb host does with a request: answers with a status and text, or cannot be reached. */
  datatype Answer = Delivered(status: int, text: string) | NetworkFailure

  /** How a call ends: with a value, or with the exception a failed synchronous `send` throws. */
  datatype Call<T> = Returned(value: T) | Threw

  /** The state of one `XMLHttpRequest` that the helpers read. */
  class Xhr {
    var readyState: int
    var status: int
    var responseText: string
    var request: Option<Request>

    constructor()
      ensures readyState == 0 && status == 0 && responseText == [] && request == None
    {
      readyState := 0;
      status := 0;
      responseText := [];
      request := None;
    }

    /** `open(verb, url, async)` */
    method Open(verb: string, url: string, synchronous: bool)
      modifies this
      ensures readyState == 1 && status == 0 && responseText == []
      ensures request == Some(Request(verb, url, synchronous, None, None))
    {
      readyState := 1;
      status := 0;
      responseText := [];
      request := Some(Request(verb, url, synchronous, None, None));
    }

    /** `setRequestHeader("Content-Type", value)`, only allowed once opened. */
    method SetContentType(value: string)
      requires request.Some?
      modifies this
      ensures request == Some(old(request).value.(contentType := Some(value)))
      ensures readyState == old(readyState) && status == old(status) && responseText == old(responseText)
    {
      request := Some(request.value.(contentType := Some(value)));
    }

    /**
      `send(body)`. A synchronous request returns with the answer in place
      (`readyState` 4), and throws when the host cannot be reached; an
      asynchronous one returns at once with nothing received yet.
     */
    method Send(body: Option<string>, answer: Answer) returns (threw: bool)
      requires request.Some?
      modifies this
      ensures request == Some(old(request).value.(body := body))
      ensures !old(request).value.synchronous ==>
        !threw && readyState == old(readyState) && status == old(status) && responseText == old(responseText)
      ensures old(request).value.synchronous ==>
        && readyState == 4
        && (threw <==> answer.NetworkFailure?)
        && status == (if answer.Delivered? then answer.status else 0)
        && responseText == (if answer.Delivered? then answer.text else [])
    {
      request := Some(request.value.(body := body));
      threw := false;
      if request.value.synchronous {
        readyState := 4;
        if answer.Delivered? {
          status := answer.status;
          responseText := answer.text;
        } else {
          status := 0;
          responseText := [];
          threw := true;
        }
      }
    }
  }

  /** The helpers' result rule: the response text when the request is done with status 200, otherwise `""`. */
  function OkText(readyState: int, status: int, text: string): (r: string)
    ensures r != [] ==> readyState == 4 && status == 200 && r == text
    ensures readyState == 4 && status == 200 ==> r == text
  {
    if readyState == 4 && status == 200 then text else ""
  }

  /** What a synchronous helper returns for an answer. */
  function SyncReply(answer: Answer): (r: Call<string>)
    ensures r.Threw? <==> answer.NetworkFailure?
  {
    match answer
    case NetworkFailure => Threw
    case Delivered(status, text) => Returned(OkText(4, status, text))
  }

  /**
    A synchronous helper returns something other than `""` only when the host
    answered 200, and then returns the answer's text; any other status reads
    as `""`.
   */
  lemma SyncReplyOnlyOn200(answer: Answer)
    ensures answer.Delivered? && answer.status == 200 ==> SyncReply(answer) == Returned(answer.text)
    ensures answer.Delivered? && answer.status != 200 ==> SyncReply(answer) == Returned("")
    ensures SyncReply(answer).Returned? && SyncReply(answer).value != [] ==>
      answer == Delivered(200, SyncReply(answer).value)
  {
  }

  /** The URL of a property read: the cache-busting query carries a fresh identifier. */
  function GetUrl(baseUri: string, prop: string, uuid: string): string {
    baseUri + prop + "?noCache=" + uuid
  }

  /** `SigWebGetProperty`: a synchronous GET whose result follows the 200 rule. */
  method SigWebGetProperty(baseUri: string, prop: string, uuid: string, answer: Answer)
    returns (r: Call<string>, sent: Request)
    ensures sent == Request("GET", GetUrl(baseUri, prop, uuid), true, None, None)
    ensures r == SyncReply(answer)
  {
    var xhr := new Xhr();
    xhr.Open("GET", GetUrl(baseUri, prop, uuid), true);
    var threw := xhr.Send(None, answer);
    sent := xhr.request.value;
    if threw {
      return Threw, sent;
    }
    r := Returned(OkText(xhr.readyState, xhr.status, xhr.responseText));
  }

  /** `SigWebSetPropertySync`: a synchronous POST with no body, same result rule. */
  method SigWebSetPropertySync(baseUri: string, prop: string, answer: Answer)
    returns (r: Call<string>, sent: Request)
    ensures sent == Request("POST", baseUri + prop, true, None, None)
    ensures r == SyncReply(answer)
  {
    var xhr := new Xhr();
    xhr.Open("POST", baseUri + prop, true);
    var threw := xhr.Send(None, answer);
    sent := xhr.request.value;
    if threw {
      return Threw, sent;
    }
    r := Returned(OkText(xhr.readyState, xhr.status, xhr.responseText));
  }

  /**
    `SigWebSetProperty`: an asynchronous POST. Its status is read right after
    `send` returns, before anything has arrived, so it always returns `""`.
   */
  method SigWebSetProperty(baseUri: string, prop: string, answer: Answer)
    returns (r: Call<string>, sent: Request)
    ensures sent == Request("POST", baseUri + prop, false, None, None)
    ensures r == Returned("")
  {
    var xhr := new Xhr();
    xhr.Open("POST", baseUri + prop, false);
    var threw := xhr.Send(None, answer);
    sent := xhr.request.value;
    r := Returned(OkText(xhr.readyState, xhr.status, xhr.responseText));
  }

  /** `SigWebSetStreamProperty`: an asynchronous text POST whose result is never read. */
  method SigWebSetStreamProperty(baseUri: string, prop: string, stream: string, answer: Answer)
    returns (r: Call<string>, sent: Request)
    ensures sent == Request("POST", baseUri + prop, false, Some("text/plain"), Some(stream))
    ensures r == Returned("")
  {
    var xhr := new Xhr();
    xhr.Open("POST", baseUri + prop, false);
    xhr.SetContentType("text/plain");
    var threw := xhr.Send(Some(stream), answer);
    sent := xhr.request.value;
    r := Returned("");
  }

  /** The three synchronous stream writers differ only in the content type they declare. */
  method SyncStreamPost(baseUri: string, prop: string, contentType: string, stream: string, answer: Answer)
    returns (r: Call<string>, sent: Request)
    ensures sent == Request("POST", baseUri + prop, true, Some(contentType), Some(stream))
    ensures r == SyncReply(answer)
  {
    var xhr := new Xhr();
    xhr.Open("POST", baseUri + prop, true);
    xhr.SetContentType(contentType);
    var threw := xhr.Send(Some(stream), answer);
    sent := xhr.request.value;
    if threw {
      return Threw, sent;
    }
    r := Returned(OkText(xhr.readyState, xhr.status, xhr.responseText));
  }

  /** `SigWebSyncSetStreamProperty` */
  method SigWebSyncSetStreamProperty(baseUri: string, prop: string, stream: string, answer: Answer)
    returns (r: Call<string>, sent: Request)
    ensures sent == Request("POST", baseUri + prop, true, Some("text/plain"), Some(stream))
    ensures r == SyncReply(answer)
  {
    r, sent := SyncStreamPost(baseUri, prop, "text/plain", stream, answer);
  }

  /** `SigWebSetImageStreamProperty` */
  method SigWebSetImageStreamProperty(baseUri: string, prop: string, stream: string, answer: Answer)
    returns (r: Call<string>, sent: Request)
    ensures sent == Request("POST", baseUri + prop, true, Some("image/png"), Some(stream))
    ensures r == SyncReply(answer)
  {
    r, sent := SyncStreamPost(baseUri, prop, "image/png", stream, answer);
  }

  /** `SigWebSetImageBlobProperty` */
  method SigWebSetImageBlobProperty(baseUri: string, prop: string, stream: string, answer: Answer)
    returns (r: Call<string>, sent: Request)
    ensures sent == Request("POST", baseUri + prop, true, Some("blob"), Some(stream))
    ensures r == SyncReply(answer)
  {
    r, sent := SyncStreamPost(baseUri, prop, "blob", stream, answer);
  }

  // ---------------------------------------------------------------- installation probe

  /** The host counts as installed when its answer has a status other than 404 and 0. */
  predicate Installed(answer: Answer) {
    answer.Delivered? && answer.status != 404 && answer.status != 0
  }

  /**
    `IsSigWebInstalled`: a synchronous GET of the tablet state; an exception
    from `send` is caught, and the decision is taken on the status left behind.
   */
  method IsSigWebInstalled(baseUri: string, uuid: string, answer: Answer)
    returns (installed: bool, sent: Request)
    ensures sent == Request("GET", GetUrl(baseUri, "TabletState", uuid), true, None, None)
    ensures installed <==> Installed(answer)
  {
    var xhr := new Xhr();
    xhr.Open("GET", GetUrl(baseUri, "TabletState", uuid), true);
    var threw := xhr.Send(None, answer);
    sent := xhr.request.value;
    installed := xhr.status != 404 && xhr.status != 0;
  }

  /** A host whose property reads return text is one the installation probe accepts. */
  lemma ReadableHostIsInstalled(answer: Answer)
    requires SyncReply(answer).Returned? && SyncReply(answer).value != []
    ensures Installed(answer)
  {
    SyncReplyOnlyOn200(answer);
  }

  // ---------------------------------------------------------------- named wrappers

  /** `GetVersionString`'s trimming: `slice(1, length - 2)`. */
  function VersionText(s: string): (r: string)
    ensures |r| <= |s|
  {
    Slice(s, 1, |s| - 2)
  }

  /** The first character and the last two are dropped, whatever they are. */
  lemma VersionTextStrips(first: char, v: string, last1: char, last2: char)
    ensures VersionText([first] + v + [last1, last2]) == v
  {
    var s := [first] + v + [last1, last2];
    assert s[1..|s| - 2] == v;
  }

  /** Fewer than three characters leave nothing. */
  lemma VersionTextShort(s: string)
    requires |s| < 3
    ensures VersionText(s) == []
  {
  }

  /** `GetVersionString` */
  method GetVersionString(baseUri: string, uuid: string, answer: Answer)
    returns (r: Call<string>, sent: Request)
    ensures sent == Request("GET", GetUrl(baseUri, "Version", uuid), true, None, None)
    ensures r == (if SyncReply(answer).Threw? then Threw else Returned(VersionText(SyncReply(answer).value)))
  {
    var reply;
    reply, sent := SigWebGetProperty(baseUri, "Version", uuid, answer);
    if reply.Threw? {
      return Threw, sent;
    }
    r := Returned(VersionText(reply.value));
  }

  /** A failed or non-200 version read gives `""`. */
  lemma VersionOfFailedRead(answer: Answer)
    requires answer.Delivered? && answer.status != 200
    ensures SyncReply(answer).Returned? && VersionText(SyncReply(answer).value) == []
  {
    SyncReplyOnlyOn200(answer);
  }

  /** `ClearTablet` */
  method ClearTablet(baseUri: string, uuid: string, answer: Answer) returns (r: Call<string>, sent: Request)
    ensures sent == Request("GET", GetUrl(baseUri, "ClearSignature", uuid), true, None, None)
    ensures r == SyncReply(answer)
  {
    r, sent := SigWebGetProperty(baseUri, "ClearSignature", uuid, answer);
  }

  /** `TabletConnectQuery` */
  method TabletConnectQuery(baseUri: string, uuid: string, answer: Answer) returns (r: Call<string>, sent: Request)
    ensures sent == Request("GET", GetUrl(baseUri, "TabletConnectQuery", uuid), true, None, None)
    ensures r == SyncReply(answer)
  {
    r, sent := SigWebGetProperty(baseUri, "TabletConnectQuery", uuid, answer);
  }

  /** `GetTabletState` */
  method GetTabletState(baseUri: string, uuid: string, answer: Answer) returns (r: Call<string>, sent: Request)
    ensures sent == Request("GET", GetUrl(baseUri, "TabletState", uuid), true, None, None)
    ensures r == SyncReply(answer)
  {
    r, sent := SigWebGetProperty(baseUri, "TabletState", uuid, answer);
  }

  /** `OpenTablet(v)`: the write's result is dropped; only a failed `send` escapes. */
  method OpenTablet(baseUri: string, v: int, answer: Answer) returns (threw: bool, sent: Request)
    ensures sent == Request("POST", baseUri + "OpenTablet/" + IntToString(v), true, None, None)
    ensures threw <==> answer.NetworkFailure?
  {
    var r;
    r, sent := SigWebSetPropertySync(baseUri, "OpenTablet/" + IntToString(v), answer);
    threw := r.Threw?;
  }

  /** `SetRealTabletState(v)` */
  method SetRealTabletState(baseUri: string, v: int, answer: Answer) returns (threw: bool, sent: Request)
    ensures sent == Request("POST", baseUri + "TabletState/" + IntToString(v), true, None, None)
    ensures threw <==> answer.NetworkFailure?
  {
    var r;
    r, sent := SigWebSetPropertySync(baseUri, "TabletState/" + IntToString(v), answer);
    threw := r.Threw?;
  }

  /** `GetTabletState() != v` for a string reply and a number `v`: the reply is read as a number first. */
  predicate StateDiffers(reply: string, v: int) {
    ToNumber(reply) != Some(v)
  }

  /**
    `SetTabletState(v, ctx, tv)`: read the state, and write `v` only when the
    reply differs from it. When it returns, it returns `null`; `tv` only sets
    a delay that is never used.
   */
  method SetTabletState(baseUri: string, v: int, tv: int, uuid: string, readAnswer: Answer, writeAnswer: Answer)
    returns (threw: bool, sent: seq<Request>)
    ensures var read := Request("GET", GetUrl(baseUri, "TabletState", uuid), true, None, None);
      var write := Request("POST", baseUri + "TabletState/" + IntToString(v), true, None, None);
      && (readAnswer.NetworkFailure? ==> threw && sent == [read])
      && (SyncReply(readAnswer).Returned? && !StateDiffers(SyncReply(readAnswer).value, v) ==> !threw && sent == [read])
      && (SyncReply(readAnswer).Returned? && StateDiffers(SyncReply(readAnswer).value, v) ==>
            sent == [read, write] && (threw <==> writeAnswer.NetworkFailure?))
  {
    var delay := if tv != 0 then tv else 100;
    var current, read := GetTabletState(baseUri, uuid, readAnswer);
    if current.Threw? {
      return true, [read];
    }
    sent := [read];
    threw := false;
    if StateDiffers(current.value, v) {
      var write;
      if v == 1 {
        threw, write := SetRealTabletState(baseUri, v, writeAnswer);
        sent := sent + [write];
        return;
      } else {
        threw, write := SetRealTabletState(baseUri, v, writeAnswer);
        sent := sent + [write];
      }
    }
  }

  /** A tablet that already reports `v` is not written to. */
  lemma SetTabletStateSkipsWhenEqual(v: int)
    ensures !StateDiffers(IntToString(v), v)
  {
    ToNumberOfIntToString(v);
  }

  /** A read that failed with a non-200 status comes back as `""`, which compares equal to state 0. */
  lemma FailedReadLooksLikeStateZero(answer: Answer)
    requires answer.Delivered? && answer.status != 200
    ensures SyncReply(answer) == Returned("") && !StateDiffers("", 0)
    ensures StateDiffers("", 1)
  {
    SyncReplyOnlyOn200(answer);
  }

  // ---------------------------------------------------------------- identifiers

  /** A random hexadecimal digit: `(d + Math.random() * 16) % 16 | 0` for a non-negative clock `d`. */
  newtype Nibble = n: int | 0 <= n < 16

  const UuidTemplate: string :=
    "xxxxxxxx" + "-" + "xxxx" + "-" + "4" + "xxx" + "-" + "y" + "xxx" + "-" + "xxxxxxxxxxxx"

  predicate IsPlaceholder(c: char) {
    c == 'x' || c == 'y'
  }

  /** `n.toString(16)` for a single digit. */
  function HexChar(n: Nibble): (c: char)
    ensures IsHexDigit(c)
  {
    if n < 10 then ('0' as int + n as int) as char else ('a' as int + n as int - 10) as char
  }

  predicate IsHexDigit(c: char) {
    '0' <= c <= '9' || 'a' <= c <= 'f'
  }

  /** The digit a `y` becomes: `r & 0x3 | 0x8`, one of 8, 9, a, b. */
  function VariantDigit(n: Nibble): (r: Nibble)
    ensures 8 <= r < 12
  {
    ((n as bv4 & 3) | 8) as int as Nibble
  }

  /** How many placeholders a template holds. */
  function Placeholders(t: string): nat {
    if t == [] then 0
    else Placeholders(t[..|t| - 1]) + (if IsPlaceholder(t[|t| - 1]) then 1 else 0)
  }

  /** The template with its placeholders filled from `digits`, in order. */
  function Fill(t: string, digits: seq<Nibble>): string
    requires |digits| == Placeholders(t)
  {
    if t == [] then []
    else
      var c := t[|t| - 1];
      if IsPlaceholder(c) then
        var d := digits[|digits| - 1];
        Fill(t[..|t| - 1], digits[..|digits| - 1]) + [HexChar(if c == 'x' then d else VariantDigit(d))]
      else
        Fill(t[..|t| - 1], digits) + [c]
  }

  /** What a filled character may be, given the template character it replaces. */
  predicate ShapeAt(tc: char, c: char) {
    if tc == 'x' then IsHexDigit(c)
    else if tc == 'y' then c == '8' || c == '9' || c == 'a' || c == 'b'
    else c == tc
  }

  /**
    Filling keeps the template's length and its fixed characters, puts a hex
    digit on each `x` (the one drawn for it, in order) and one of 8, 9, a, b
    on each `y`.
   */
  lemma {:induction false} FillShape(t: string, digits: seq<Nibble>)
    requires |digits| == Placeholders(t)
    ensures |Fill(t, digits)| == |t|
    ensures forall i :: 0 <= i < |t| ==> ShapeAt(t[i], Fill(t, digits)[i])
    ensures forall i :: 0 <= i < |t| && t[i] == 'x' ==>
      Placeholders(t[..i]) < |digits| && Fill(t, digits)[i] == HexChar(digits[Placeholders(t[..i])])
  {
    if t != [] {
      var p := t[..|t| - 1];
      var c := t[|t| - 1];
      var ds := if IsPlaceholder(c) then digits[..|digits| - 1] else digits;
      FillShape(p, ds);
      var r := Fill(t, digits);
      assert r[..|p|] == Fill(p, ds);
      forall i | 0 <= i < |t|
        ensures ShapeAt(t[i], r[i])
        ensures t[i] == 'x' ==> Placeholders(t[..i]) < |digits| && r[i] == HexChar(digits[Placeholders(t[..i])])
      {
        if i < |p| {
          assert t[i] == p[i] && r[i] == Fill(p, ds)[i];
          assert t[..i] == p[..i];
          if t[i] == 'x' {
            assert digits[Placeholders(p[..i])] == ds[Placeholders(p[..i])];
          }
        } else {
          assert t[..i] == p;
          if c == 'y' {
            var v := VariantDigit(digits[|digits| - 1]);
            assert 8 <= v < 12;
          }
        }
      }
    }
  }

  /** The version-4 identifier shape `xxxxxxxx-xxxx-4xxx-yxxx-xxxxxxxxxxxx`. */
  predicate IsUuidV4(s: string) {
    && |s| == 36
    && s[8] == '-' && s[13] == '-' && s[18] == '-' && s[23] == '-'
    && s[14] == '4'
    && (s[19] == '8' || s[19] == '9' || s[19] == 'a' || s[19] == 'b')
    && (forall i | 0 <= i < 36 && i != 8 && i != 13 && i != 14 && i != 18 && i != 19 && i != 23 :: IsHexDigit(s[i]))
  }

  /** Where the template has its fixed characters and placeholders. */
  lemma TemplateLayout()
    ensures |UuidTemplate| == 36 && Placeholders(UuidTemplate) == 31
    ensures UuidTemplate[8] == '-' && UuidTemplate[13] == '-' && UuidTemplate[18] == '-' && UuidTemplate[23] == '-'
    ensures UuidTemplate[14] == '4' && UuidTemplate[19] == 'y'
    ensures forall i | 0 <= i < 36 && i != 8 && i != 13 && i != 14 && i != 18 && i != 19 && i != 23 :: UuidTemplate[i] == 'x'
  {
    var t := UuidTemplate;
    PlaceholdersAll("xxxxxxxx");
    PlaceholdersOne('-');
    PlaceholdersConcat("xxxxxxxx", "-");
    PlaceholdersAll("xxxx");
    PlaceholdersConcat("xxxxxxxx" + "-", "xxxx");
    PlaceholdersOne('-');
    PlaceholdersConcat("xxxxxxxx" + "-" + "xxxx", "-");
    PlaceholdersOne('4');
    PlaceholdersConcat("xxxxxxxx" + "-" + "xxxx" + "-", "4");
    PlaceholdersAll("xxx");
    PlaceholdersConcat("xxxxxxxx" + "-" + "xxxx" + "-" + "4", "xxx");
    PlaceholdersOne('-');
    PlaceholdersConcat("xxxxxxxx" + "-" + "xxxx" + "-" + "4" + "xxx", "-");
    PlaceholdersAll("y");
    PlaceholdersConcat("xxxxxxxx" + "-" + "xxxx" + "-" + "4" + "xxx" + "-", "y");
    PlaceholdersAll("xxx");
    PlaceholdersConcat("xxxxxxxx" + "-" + "xxxx" + "-" + "4" + "xxx" + "-" + "y", "xxx");
    PlaceholdersOne('-');
    PlaceholdersConcat("xxxxxxxx" + "-" + "xxxx" + "-" + "4" + "xxx" + "-" + "y" + "xxx", "-");
    PlaceholdersAll("xxxxxxxxxxxx");
    PlaceholdersConcat("xxxxxxxx" + "-" + "xxxx" + "-" + "4" + "xxx" + "-" + "y" + "xxx" + "-", "xxxxxxxxxxxx");
  }

  /** A string of placeholders only counts every character. */
  lemma {:induction false} PlaceholdersAll(s: string)
    requires forall i | 0 <= i < |s| :: IsPlaceholder(s[i])
    ensures Placeholders(s) == |s|
  {
    if s != [] {
      PlaceholdersAll(s[..|s| - 1]);
    }
  }

  /** A single character counts once if it is a placeholder. */
  lemma PlaceholdersOne(c: char)
    ensures Placeholders([c]) == if IsPlaceholder(c) then 1 else 0
  {
    assert [c][..0] == [];
  }

  /** Placeholders of two pieces add up. */
  lemma {:induction false} PlaceholdersConcat(a: string, b: string)
    ensures Placeholders(a + b) == Placeholders(a) + Placeholders(b)
    decreases |b|
  {
    if b != [] {
      assert (a + b)[..|a + b| - 1] == a + b[..|b| - 1];
      PlaceholdersConcat(a, b[..|b| - 1]);
    } else {
      assert a + b == a;
    }
  }

  /**
    `generateUUID`: the `replace` callback runs once per placeholder, left to
    right, and draws the next random digit.
   */
  method GenerateUuid(digits: seq<Nibble>) returns (r: string)
    requires |digits| == 31
    ensures Placeholders(UuidTemplate) == |digits| && r == Fill(UuidTemplate, digits)
    ensures IsUuidV4(r)
  {
    TemplateLayout();
    var t := UuidTemplate;
    r := [];
    var k := 0;
    for i := 0 to |t|
      invariant k == Placeholders(t[..i]) && k <= |digits|
      invariant r == Fill(t[..i], digits[..k])
    {
      assert t[..i + 1][..i] == t[..i];
      PlaceholdersPrefix(t, i + 1);
      var c := t[i];
      if IsPlaceholder(c) {
        var d := digits[k];
        r := r + [HexChar(if c == 'x' then d else VariantDigit(d))];
        assert digits[..k + 1][..k] == digits[..k];
        k := k + 1;
      } else {
        r := r + [c];
      }
    }
    assert t[..|t|] == t && digits[..k] == digits;
    FillShape(t, digits);
  }

  /** A prefix holds no more placeholders than the whole. */
  lemma {:induction false} PlaceholdersPrefix(t: string, n: nat)
    requires n <= |t|
    ensures Placeholders(t[..n]) <= Placeholders(t)
    decreases |t|
  {
    if n < |t| {
      assert t[..|t| - 1][..n] == t[..n];
      PlaceholdersPrefix(t[..|t| - 1], n);
    } else {
      assert t[..n] == t;
    }
  }
}
