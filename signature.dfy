/**
  The raw SigWeb endpoint catalogue of the signature page: a newline-separated
  list of endpoint strings is parsed into documentation items, each item is
  classified into a group by the first segment of its path, and the items are
  bucketed by group and the buckets ordered by a preferred-order table.
  The page component's small state machines (detail toggles, clear, save,
  SigString import) are the class `SignatureComponent` at the end.
 */
module Signature {
  import opened Wrappers
  import opened JsString
  import opened JsArray
  import Topaz

  /** The host flag that ends an endpoint line: `T` or `TU`. */
  datatype HostFlag = T | TU

  /** The HTTP method guessed from the host flag. */
  datatype MethodGuess = Get | Post | Varies

  datatype RawApiDocItem = RawApiDocItem(
    group: string,
    key: string,
    raw: string,
    suffix: Option<HostFlag>,
    methodGuess: MethodGuess,
    path: string,
    params: seq<string>,
    short: string,
    notes: seq<string>)

  datatype RawApiGroup = RawApiGroup(name: string, items: seq<RawApiDocItem>)

  // ---------------------------------------------------------------- lines

  /** A line split off before `\n` loses the `\r` of a `\r\n` separator. */
  function DropCarriageReturn(t: string): string {
    if |t| > 0 && t[|t| - 1] == '\r' then t[..|t| - 1] else t
  }

  /** `input.split(/\r?\n/g)` */
  function SplitLines(s: string): (r: seq<string>)
    ensures |r| > 0
    decreases |s|
  {
    match IndexOf(s, '\n')
    case None => [s]
    case Some(i) => [DropCarriageReturn(s[..i])] + SplitLines(s[i + 1..])
  }

  /** `.map((line) => line.trim()).filter((line) => line.length > 0)` */
  function TrimmedNonBlank(lines: seq<string>): (r: seq<string>)
    ensures |r| <= |lines|
    ensures forall x :: x in r ==> x != [] && IsTrimmed(x)
  {
    if lines == [] then []
    else
      var t := Trim(lines[0]);
      (if t == [] then [] else [t]) + TrimmedNonBlank(lines[1..])
  }

  /** The lines of the catalogue text that yield an item, trimmed, in input order. */
  function NonBlankLines(input: string): seq<string> {
    TrimmedNonBlank(SplitLines(input))
  }

  /** The catalogue text with the given lines, one per line. */
  function JoinLines(lines: seq<string>): string {
    if |lines| == 0 then ""
    else if |lines| == 1 then lines[0]
    else lines[0] + "\n" + JoinLines(lines[1..])
  }

  lemma SplitLinesAtFirstBreak(l: string, rest: string)
    requires '\n' !in l
    ensures SplitLines(l + "\n" + rest) == [DropCarriageReturn(l)] + SplitLines(rest)
  {
    var s := l + "\n" + rest;
    assert s[..|l|] == l;
    assert s[|l| + 1..] == rest;
    IndexOfFirst(s, '\n', |l|);
  }

  /** A trimmed, non-blank line survives the trim-and-filter step unchanged. */
  lemma TrimmedNonBlankKeeps(l: string, ls: seq<string>)
    requires l != [] && IsTrimmed(l)
    ensures TrimmedNonBlank([l] + ls) == [l] + TrimmedNonBlank(ls)
  {
    TrimOfTrimmed(l);
    assert ([l] + ls)[1..] == ls;
  }

  /**
    Every line that is already trimmed and non-blank comes back as exactly one
    item line, in order: one item per non-blank line.
   */
  lemma {:induction false} NonBlankLinesOfJoin(lines: seq<string>)
    requires forall l :: l in lines ==> l != [] && IsTrimmed(l) && '\n' !in l
    ensures NonBlankLines(JoinLines(lines)) == lines
  {
    if |lines| == 0 {
      assert SplitLines("") == [""];
    } else {
      var l := lines[0];
      assert l in lines;
      assert DropCarriageReturn(l) == l;
      if |lines| == 1 {
        assert SplitLines(l) == [l] by {
          assert IndexOf(l, '\n') == None;
        }
        TrimmedNonBlankKeeps(l, []);
      } else {
        var rest := lines[1..];
        assert forall x :: x in rest ==> x in lines;
        NonBlankLinesOfJoin(rest);
        SplitLinesAtFirstBreak(l, JoinLines(rest));
        TrimmedNonBlankKeeps(l, SplitLines(JoinLines(rest)));
      }
    }
  }

  // ---------------------------------------------------------------- host flag

  function FlagText(f: HostFlag): string {
    match f
    case T => "T"
    case TU => "TU"
  }

  /** The host flag at the end of a line (`TU` checked before `T`) and the path left when it is removed. */
  function SplitHostFlag(raw: string): (Option<HostFlag>, string) {
    if EndsWith(raw, "TU") then (Some(TU), Slice(raw, 0, -2))
    else if EndsWith(raw, "T") then (Some(T), Slice(raw, 0, -1))
    else (None, raw)
  }

  function GuessMethod(suffix: Option<HostFlag>): MethodGuess {
    match suffix
    case Some(TU) => Get
    case Some(T) => Post
    case None => Varies
  }

  /** The flag split off is exactly the end of the line, and the rest of the line is the path. */
  lemma HostFlagSplit(raw: string)
    ensures var (suffix, path) := SplitHostFlag(raw);
      && (suffix == Some(TU) <==> EndsWith(raw, "TU"))
      && (suffix == Some(T) <==> EndsWith(raw, "T"))
      && (suffix == None <==> !EndsWith(raw, "T") && !EndsWith(raw, "TU"))
      && raw == path + (if suffix.Some? then FlagText(suffix.value) else "")
      && (GuessMethod(suffix) == Get <==> suffix == Some(TU))
      && (GuessMethod(suffix) == Post <==> suffix == Some(T))
  {
    var (suffix, path) := SplitHostFlag(raw);
    // a line cannot end in both: the last character is either `U` or `T`
    assert EndsWith(raw, "TU") ==> raw[|raw| - 1] == 'U';
    assert EndsWith(raw, "T") ==> raw[|raw| - 1] == 'T';
    if EndsWith(raw, "TU") {
      assert path == raw[..|raw| - 2];
      assert raw == raw[..|raw| - 2] + raw[|raw| - 2..];
    } else if EndsWith(raw, "T") {
      assert path == raw[..|raw| - 1];
      assert raw == raw[..|raw| - 1] + raw[|raw| - 1..];
    }
  }

  // ---------------------------------------------------------------- path parameters

  /**
    The captures of `/\{([^}]+)\}/g` over `p`, left to right: at an opening
    brace, everything up to the first closing brace if that is non-empty,
    then scanning resumes after the closing brace; otherwise scanning resumes
    at the next character.
   */
  function PathParams(p: string): (r: seq<string>)
    ensures forall x :: x in r ==> x != [] && '}' !in x
    decreases |p|
  {
    if |p| == 0 then []
    else if p[0] == '{' then
      match IndexOf(p[1..], '}')
      case Some(k) =>
        if k > 0 then
          assert p[1..k + 1] == p[1..][..k];
          [p[1..k + 1]] + PathParams(p[k + 2..])
        else PathParams(p[1..])
      case None => PathParams(p[1..])
    else PathParams(p[1..])
  }

  /** `for (const match of path.matchAll(/\{([^}]+)\}/g)) params.push(match[1]);` */
  method ExtractParams(path: string) returns (params: seq<string>)
    ensures params == PathParams(path)
  {
    params := [];
    var i := 0;
    while i < |path|
      invariant 0 <= i <= |path|
      invariant params + PathParams(path[i..]) == PathParams(path)
    {
      var rest := path[i..];
      if rest[0] == '{' {
        match IndexOf(rest[1..], '}')
        case Some(k) =>
          if k > 0 {
            params := params + [rest[1..k + 1]];
            assert path[i..][k + 2..] == path[i + k + 2..];
            i := i + k + 2;
          } else {
            assert path[i..][1..] == path[i + 1..];
            i := i + 1;
          }
        case None =>
          assert path[i..][1..] == path[i + 1..];
          i := i + 1;
      } else {
        assert path[i..][1..] == path[i + 1..];
        i := i + 1;
      }
    }
  }

  /** A path template: literal text without `{`, and named `{placeholders}`. */
  datatype PathPiece = Literal(text: string) | Placeholder(name: string)

  predicate WellFormedPiece(piece: PathPiece) {
    match piece
    case Literal(text) => '{' !in text
    case Placeholder(name) => name != [] && '}' !in name
  }

  function Render(pieces: seq<PathPiece>): string {
    if pieces == [] then ""
    else
      (match pieces[0]
       case Literal(text) => text
       case Placeholder(name) => "{" + name + "}") + Render(pieces[1..])
  }

  function PlaceholderNames(pieces: seq<PathPiece>): seq<string> {
    if pieces == [] then []
    else (if pieces[0].Placeholder? then [pieces[0].name] else []) + PlaceholderNames(pieces[1..])
  }

  lemma {:induction false} ParamsSkipLiteral(text: string, rest: string)
    requires '{' !in text
    ensures PathParams(text + rest) == PathParams(rest)
    decreases |text|
  {
    if text != [] {
      assert text[0] in text;
      assert (text + rest)[0] == text[0];
      assert (text + rest)[1..] == text[1..] + rest;
      ParamsSkipLiteral(text[1..], rest);
    } else {
      assert text + rest == rest;
    }
  }

  lemma ParamsTakePlaceholder(name: string, rest: string)
    requires name != [] && '}' !in name
    ensures PathParams("{" + name + "}" + rest) == [name] + PathParams(rest)
  {
    var p := "{" + name + "}" + rest;
    var tail := p[1..];
    assert tail == name + "}" + rest;
    assert tail[..|name|] == name;
    IndexOfFirst(tail, '}', |name|);
    assert p[1..|name| + 1] == name;
    assert p[|name| + 2..] == rest;
  }

  /** The parameters extracted from a rendered template are its placeholder names, in order. */
  lemma {:induction false} ParamsOfRender(pieces: seq<PathPiece>)
    requires forall piece :: piece in pieces ==> WellFormedPiece(piece)
    ensures PathParams(Render(pieces)) == PlaceholderNames(pieces)
  {
    if pieces != [] {
      assert pieces[0] in pieces;
      assert forall x :: x in pieces[1..] ==> x in pieces;
      ParamsOfRender(pieces[1..]);
      match pieces[0]
      case Literal(text) =>
        ParamsSkipLiteral(text, Render(pieces[1..]));
      case Placeholder(name) =>
        assert Render(pieces) == "{" + name + "}" + Render(pieces[1..]);
        ParamsTakePlaceholder(name, Render(pieces[1..]));
    }
  }

  // ---------------------------------------------------------------- notes

  function HostFlagNote(f: HostFlag): string {
    "Host flag: " + FlagText(f) + " (extracted from local SigWeb installation)."
  }

  const ContentLengthNote: string :=
    "Many command endpoints require POST "
    + "with a non-empty body (e.g. x=) to avoid HTTP 411 (Content-Length required)."

  /** `params.join(', ')` */
  function JoinComma(xs: seq<string>): string {
    if |xs| == 0 then ""
    else if |xs| == 1 then xs[0]
    else xs[0] + ", " + JoinComma(xs[1..])
  }

  function ParamsNote(params: seq<string>): string {
    "Path parameters: " + JoinComma(params) + "."
  }

  /** The notes of an item: host flag, Content-Length advice, path parameters, each when it applies. */
  function ItemNotes(suffix: Option<HostFlag>, methodGuess: MethodGuess, params: seq<string>): seq<string> {
    (if suffix.Some? then [HostFlagNote(suffix.value)] else [])
    + (if methodGuess == Post then [ContentLengthNote] else [])
    + (if |params| > 0 then [ParamsNote(params)] else [])
  }

  // ---------------------------------------------------------------- groups

  const PreferredOrder: seq<string> := [
    "Tablet / capture",
    "Signature data",
    "LCD",
    "KeyPad",
    "Encryption / security",
    "Events",
    "Layout / justification",
    "Networking / SigSock",
    "Diagnostics / info",
    "Host / maintenance",
    "Other"
  ]

  /** `path.replace(/^\//, '').split('/')[0]` */
  function FirstSegment(path: string): string {
    var clean := if |path| > 0 && path[0] == '/' then path[1..] else path;
    match IndexOf(clean, '/')
    case None => clean
    case Some(i) => clean[..i]
  }

  /** The first-match-wins classification of an endpoint name. */
  function GroupForName(name: string): string {
    if StartsWith(name, "Tablet") || name == "OpenTablet" || name == "CloseTablet" || name == "CaptureMode" then
      "Tablet / capture"
    else if name == "SigImage" || name == "SigString" || name == "SigWindow" || name == "NumberOfStrokes"
      || name == "PointXValue" || name == "PointYValue" || name == "ClearSignature"
      || name == "ClearSigWindow" || name == "CompressionMode" then
      "Signature data"
    else if StartsWith(name, "Lcd") then
      "LCD"
    else if StartsWith(name, "KeyPad") || StartsWith(name, "Key") then
      "KeyPad"
    else if Includes(name, "Encryption") || name == "EncryptionMode" || name == "EnableTabletEncryption" then
      "Encryption / security"
    else if EndsWith(name, "Events") || name == "EnableEvents" || name == "DisableEvents" || name == "EventStatus" then
      "Events"
    else if StartsWith(name, "Justify") then
      "Layout / justification"
    else if StartsWith(name, "SigSock") then
      "Networking / SigSock"
    else if name == "SigWebVersion" || name == "DaysUntilCertificateExpires" || name == "TimeStamp"
      || name == "clientaccesspolicy.xml" then
      "Diagnostics / info"
    else if name == "Reload" || name == "Reset" || name == "ResetParameters" || name == "MaxLogFileSize"
      || name == "PortNumber" then
      "Host / maintenance"
    else
      "Other"
  }

  /** `groupForRawPath`: always one of the eleven preferred group names. */
  function GroupForRawPath(path: string): (r: string)
    ensures r in PreferredOrder
  {
    GroupForName(FirstSegment(path))
  }

  /** Only the first segment counts, with or without one leading slash. */
  lemma FirstSegmentOnly(name: string, rest: string)
    requires '/' !in name
    ensures FirstSegment("/" + name) == name
    ensures FirstSegment("/" + name + "/" + rest) == name
    ensures name != [] ==> FirstSegment(name + "/" + rest) == name
  {
    var p := "/" + name + "/" + rest;
    assert p[1..] == name + "/" + rest;
    assert ("/" + name)[1..] == name;
    var c := name + "/" + rest;
    assert c[..|name|] == name;
    IndexOfFirst(c, '/', |name|);
  }

  /**
    First match wins: a name that starts with `Tablet` is filed under the
    tablet even when it also mentions encryption or ends in `Events`
    (`TabletEncryptionMode`, `TabletEvents`).
   */
  lemma TabletPrefixWins(name: string, rest: string)
    requires '/' !in name && StartsWith(name, "Tablet")
    ensures GroupForRawPath("/" + name) == "Tablet / capture"
    ensures GroupForRawPath("/" + name + "/" + rest) == "Tablet / capture"
  {
    FirstSegmentOnly(name, rest);
  }

  // ---------------------------------------------------------------- descriptions

  const DefaultDescription: string := "Endpoint extracted from SigWeb host (purpose varies by device/version)."

  /** The `switch` of `describeRawEndpoint` on an endpoint name. */
  function DescriptionOf(name: string): string {
    match name
    case "CaptureMode" => "Set or query capture mode."
    case "ClearHotSpotPoints" => "Clear keypad/hotspot point list (keypad/tablet feature)."
    case "ClearSignature" => "Clear captured signature buffer."
    case "ClearSigWindow" => "Clear signature window/region (device-specific)."
    case "clientaccesspolicy.xml" => "Client access policy (legacy; used by older runtimes)."
    case "CloseTablet" => "Close the tablet session."
    case "CompressionMode" => "Set or query signature/image compression mode."
    case "DaysUntilCertificateExpires" => "Return days until the service certificate expires."
    case "DisableEvents" => "Disable event reporting/streaming."
    case "EnableEvents" => "Enable event reporting/streaming."
    case "EnableTabletEncryption" => "Enable encryption for tablet communications."
    case "EncryptionMode" => "Set or query encryption mode."
    case "EventStatus" => "Query current event status."
    case "JustifyMode" => "Set or query text/graphic justification mode."
    case "JustifyX" => "Set or query X justification offset."
    case "JustifyY" => "Set or query Y justification offset."
    case "KeyPadClearHotSpotList" => "Clear keypad hotspot list."
    case "KeyPadQueryHotSpot" => "Query keypad hotspot by keycode."
    case "KeyReceiptAscii" => "Get keypad receipt text (ASCII)."
    case "KeyString" => "Get keypad key string/value."
    case "LcdClear" => "Clear the tablet LCD."
    case "LcdCompressionMode" => "Set or query LCD image compression mode."
    case "LcdGetLcdSize" => "Get LCD dimensions."
    case "LcdRefresh" => "Refresh LCD area/window."
    case "LcdSendCmdData" => "Send raw command data to the LCD."
    case "LcdSendCmdDataParams" => "Send LCD command data with parameters."
    case "LcdSendCmdString" => "Send a command string to the LCD."
    case "LcdSendCmdStringParams" => "Send a command string with parameters to the LCD."
    case "LcdSetPixelDepth" => "Set LCD pixel depth."
    case "LcdSetWindow" => "Set the LCD drawing window."
    case "LcdWriteImage" => "Write/draw an image on the LCD."
    case "LcdWriteImageStream" => "Stream image bytes to the LCD."
    case "LcdZCompressionMode" => "Set or query LCD Z-compression mode."
    case "MaxLogFileSize" => "Set or query maximum log file size."
    case "NumberOfStrokes" => "Get number of strokes in the captured signature."
    case "OpenTablet" => "Open the tablet session."
    case "PointXValue" => "Get X coordinate for a raw signature point."
    case "PointYValue" => "Get Y coordinate for a raw signature point."
    case "PortNumber" => "Set or query service port number (host)."
    case "Reload" => "Reload host/service configuration."
    case "ResetParameters" => "Reset configuration parameters to defaults."
    case "Reset" => "Reset the service/device state."
    case "SavePressureData" => "Enable/disable saving pressure data."
    case "SaveSigInfo" => "Enable/disable saving signature metadata."
    case "SaveTimeData" => "Enable/disable saving timing data."
    case "SerialPortCloseDelay" => "Set/query serial port close delay."
    case "ServerTabletType" => "Set/query server tablet type."
    case "SetAutoKeyData" => "Configure automatic key data handling."
    case "SigGetScript" => "Retrieve a signature script by name."
    case "SigImage" => "Get rendered signature image."
    case "SigLiveImage" => "Get live signature image stream/snapshot."
    case "SigReceiptAscii" => "Get signature receipt text (ASCII)."
    case "SigSockClientName" => "Set/query signature socket client name."
    case "SigSockPortNumber" => "Set/query signature socket port number."
    case "SigSockServerPath" => "Set/query signature socket server path."
    case "SigString" => "Get signature as a string (often hex)."
    case "SigWebVersion" => "Get SigWeb version."
    case "SigWindow" => "Set signature capture window."
    case "TabletBaudRate" => "Set/query tablet baud rate."
    case "TabletComPort" => "Set/query tablet COM port."
    case "TabletComTest" => "Test tablet COM connection."
    case "TabletConnectQuery" => "Query whether a tablet is detected."
    case "TabletDataBytes" => "Get raw tablet data bytes."
    case "TabletData" => "Get tablet data payload."
    case "TabletEncryptionMode" => "Set/query tablet encryption mode."
    case "TabletEvents" => "Enable/disable tablet events."
    case "TabletFilterPoints" => "Set/query point filtering."
    case "TabletLocalIniFilePath" => "Set/query local INI file path used by the host."
    case "TabletLogicalXSize" => "Set/query logical X size."
    case "TabletLogicalYSize" => "Set/query logical Y size."
    case "TabletModel" => "Set/query tablet model."
    case "TabletModelNumber" => "Get tablet model number."
    case "TabletPortPath" => "Set/query tablet port path."
    case "TabletResolution" => "Set/query tablet resolution."
    case "TabletRotation" => "Set/query tablet rotation."
    case "TabletSerialNumber" => "Get tablet serial number."
    case "TabletState" => "Set/query tablet capture state."
    case "TabletTimingAdvance" => "Set/query tablet timing advance."
    case "TabletType" => "Set/query tablet type."
    case "TabletXStart" => "Set/query tablet X start."
    case "TabletXStop" => "Set/query tablet X stop."
    case "TabletYStart" => "Set/query tablet Y start."
    case "TabletYStop" => "Set/query tablet Y stop."
    case "TimeStamp" => "Get a timestamp value from the host."
    case _ => DefaultDescription
  }

  /** `describeRawEndpoint`: the text of the path's first segment. */
  function DescribeRawEndpoint(path: string): string {
    DescriptionOf(FirstSegment(path))
  }

  /**
    Only the endpoint name counts: the leading slash is optional, and
    parameters and deeper segments after the name do not change the text.
   */
  lemma DescribeByName(name: string, rest: string)
    requires '/' !in name
    ensures DescribeRawEndpoint("/" + name) == DescriptionOf(name)
    ensures DescribeRawEndpoint("/" + name + "/" + rest) == DescriptionOf(name)
    ensures name != [] ==> DescribeRawEndpoint(name + "/" + rest) == DescriptionOf(name)
  {
    FirstSegmentOnly(name, rest);
  }

  // ---------------------------------------------------------------- one line

  /** The item `parseRawApiDocs` builds from one trimmed, non-blank line. */
  function LineItem(raw: string): RawApiDocItem {
    var (suffix, path) := SplitHostFlag(raw);
    var methodGuess := GuessMethod(suffix);
    var params := PathParams(path);
    RawApiDocItem(
      GroupForRawPath(path), raw, raw, suffix, methodGuess, path, params,
      DescribeRawEndpoint(path), ItemNotes(suffix, methodGuess, params))
  }

  /** The flag test at the head of the `lines.map` callback, assigning `suffix` and `path`. */
  method SplitFlag(raw: string) returns (suffix: Option<HostFlag>, path: string)
    ensures (suffix, path) == SplitHostFlag(raw)
  {
    suffix := None;
    path := raw;
    if EndsWith(raw, "TU") {
      suffix := Some(TU);
      path := Slice(raw, 0, -2);
    } else if EndsWith(raw, "T") {
      suffix := Some(T);
      path := Slice(raw, 0, -1);
    }
  }

  /** The three conditional `notes.push` calls. */
  method CollectNotes(suffix: Option<HostFlag>, methodGuess: MethodGuess, params: seq<string>) returns (notes: seq<string>)
    ensures notes == ItemNotes(suffix, methodGuess, params)
  {
    notes := [];
    if suffix.Some? {
      notes := notes + [HostFlagNote(suffix.value)];
    }
    if methodGuess == Post {
      notes := notes + [ContentLengthNote];
    }
    if |params| > 0 {
      notes := notes + [ParamsNote(params)];
    }
  }

  /** The body of the `lines.map` callback: `params` and `notes` are filled by pushes. */
  method ParseLine(raw: string) returns (item: RawApiDocItem)
    ensures item == LineItem(raw)
  {
    var suffix, path := SplitFlag(raw);
    var params := ExtractParams(path);
    var methodGuess := if suffix == Some(TU) then Get else if suffix == Some(T) then Post else Varies;
    var short := DescribeRawEndpoint(path);
    var group := GroupForRawPath(path);
    var notes := CollectNotes(suffix, methodGuess, params);
    assert methodGuess == GuessMethod(suffix);
    item := RawApiDocItem(group, raw, raw, suffix, methodGuess, path, params, short, notes);
  }

  /** What one item says about its line: key, flag, method, parameters and group. */
  lemma LineItemFacts(raw: string)
    ensures var item := LineItem(raw);
      && item.key == raw && item.raw == raw
      && (item.suffix == Some(TU) <==> EndsWith(raw, "TU"))
      && (item.suffix == Some(T) <==> EndsWith(raw, "T"))
      && raw == item.path + (if item.suffix.Some? then FlagText(item.suffix.value) else "")
      && (item.methodGuess == Get <==> item.suffix == Some(TU))
      && (item.methodGuess == Post <==> item.suffix == Some(T))
      && (forall x :: x in item.params ==> x != [] && '}' !in x)
      && item.group in PreferredOrder
  {
    HostFlagSplit(raw);
  }

  /**
    The notes of an item: a host-flag note exactly when there is a flag, the
    Content-Length note exactly when the guess is POST, the parameter note
    exactly when there are parameters, in that order, so never more than three.
   */
  lemma ItemNotesFacts(suffix: Option<HostFlag>, params: seq<string>)
    ensures var notes := ItemNotes(suffix, GuessMethod(suffix), params);
      && |notes| <= 3
      && ((exists f :: HostFlagNote(f) in notes) <==> suffix.Some?)
      && (suffix.Some? ==> notes[0] == HostFlagNote(suffix.value))
      && (ContentLengthNote in notes <==> GuessMethod(suffix) == Post)
      && (ParamsNote(params) in notes <==> |params| > 0)
      && (|params| > 0 ==> notes[|notes| - 1] == ParamsNote(params))
  {
    var notes := ItemNotes(suffix, GuessMethod(suffix), params);
    // the three kinds of note differ in their first character
    assert HostFlagNote(T)[0] == 'H' && HostFlagNote(TU)[0] == 'H';
    assert ContentLengthNote[0] == 'M';
    assert ParamsNote(params)[0] == 'P';
    if exists f :: HostFlagNote(f) in notes {
      var f :| HostFlagNote(f) in notes;
      assert HostFlagNote(f) != ContentLengthNote && HostFlagNote(f) != ParamsNote(params);
    }
  }

  // ---------------------------------------------------------------- whole catalogue

  /** The items of the catalogue text. */
  function Catalogue(input: string): (items: seq<RawApiDocItem>)
    ensures |items| == |NonBlankLines(input)|
  {
    MapSeq(LineItem, NonBlankLines(input))
  }

  /** `parseRawApiDocs` */
  method ParseRawApiDocs(input: string) returns (items: seq<RawApiDocItem>)
    ensures items == Catalogue(input)
  {
    var lines := NonBlankLines(input);
    items := [];
    for i := 0 to |lines|
      invariant items == MapSeq(LineItem, lines[..i])
    {
      var item := ParseLine(lines[i]);
      MapSeqSnoc(LineItem, lines, i);
      items := items + [item];
    }
    assert lines[..|lines|] == lines;
  }

  /** One item per non-blank line, in input order, keyed by the trimmed line. */
  lemma CatalogueLines(input: string)
    ensures var items := Catalogue(input); var lines := NonBlankLines(input);
      forall i :: 0 <= i < |items| ==>
        items[i].key == lines[i] && items[i].raw == lines[i] && lines[i] != [] && IsTrimmed(lines[i])
  {
    var lines := NonBlankLines(input);
    MapSeqAt(LineItem, lines);
    forall i | 0 <= i < |lines| ensures lines[i] != [] && IsTrimmed(lines[i]) {
      assert lines[i] in lines;
    }
  }

  // ---------------------------------------------------------------- grouping

  /** The last position of `x` in `xs`: `orderIndex` is filled by `set` in order, so a later index wins. */
  function Position(xs: seq<string>, x: string): (r: Option<nat>)
    ensures r.None? <==> x !in xs
    ensures r.Some? ==> r.value < |xs| && xs[r.value] == x && x !in xs[r.value + 1..]
  {
    if xs == [] then None
    else if xs[|xs| - 1] == x then Some(|xs| - 1)
    else
      var r := Position(xs[..|xs| - 1], x);
      assert xs == xs[..|xs| - 1] + [xs[|xs| - 1]];
      r
  }

  /** `orderIndex.get(name) ?? 999` */
  function Rank(name: string): (r: nat)
    ensures r < |PreferredOrder| <==> name in PreferredOrder
    ensures r < |PreferredOrder| ==> PreferredOrder[r] == name
    ensures r >= |PreferredOrder| ==> r == 999
  {
    match Position(PreferredOrder, name)
    case Some(i) => i
    case None => 999
  }

  /** The comparator of the sort, as "`a` may come before `b`": lower rank first, then by name. */
  predicate GroupLe(a: RawApiGroup, b: RawApiGroup) {
    Rank(a.name) < Rank(b.name) || (Rank(a.name) == Rank(b.name) && !CodeUnitLess(b.name, a.name))
  }

  lemma GroupLeReflexive(a: RawApiGroup)
    ensures GroupLe(a, a)
  {
    CodeUnitLessIrreflexive(a.name);
  }

  lemma GroupLeTotal(a: RawApiGroup, b: RawApiGroup)
    ensures GroupLe(a, b) || GroupLe(b, a)
  {
    var ra, rb := Rank(a.name), Rank(b.name);
    if ra == rb {
      if a.name == b.name {
        CodeUnitLessIrreflexive(a.name);
      } else {
        CodeUnitLessTotal(a.name, b.name);
        if CodeUnitLess(a.name, b.name) {
          CodeUnitLessAsymmetric(a.name, b.name);
        } else {
          CodeUnitLessAsymmetric(b.name, a.name);
        }
      }
    }
  }

  lemma GroupLeTransitive(a: RawApiGroup, b: RawApiGroup, c: RawApiGroup)
    requires GroupLe(a, b) && GroupLe(b, c)
    ensures GroupLe(a, c)
  {
    // with equal ranks, `a <= b` leaves `a` equal to or below `b`, so `c` below `a` would put it below `b`
    var ra, rb, rc := Rank(a.name), Rank(b.name), Rank(c.name);
    if ra == rb == rc && a.name != b.name && CodeUnitLess(c.name, a.name) {
      CodeUnitLessTotal(a.name, b.name);
      CodeUnitLessTransitive(c.name, a.name, b.name);
    }
  }

  predicate Sorted(s: seq<RawApiGroup>) {
    forall i, j :: 0 <= i < j < |s| ==> GroupLe(s[i], s[j])
  }

  predicate DistinctNames(s: seq<RawApiGroup>) {
    forall i, j :: 0 <= i < j < |s| ==> s[i].name != s[j].name
  }

  /** One step of a stable sort: `x` goes before the first element it may precede. */
  function Insert(x: RawApiGroup, s: seq<RawApiGroup>): (r: seq<RawApiGroup>)
    ensures multiset(r) == multiset(s) + multiset{x}
    ensures forall y :: y in r <==> y == x || y in s
  {
    if s == [] then [x]
    else if GroupLe(x, s[0]) then [x] + s
    else
      var r := [s[0]] + Insert(x, s[1..]);
      assert s == [s[0]] + s[1..];
      r
  }

  /** `Array.prototype.sort` with the comparator above; it is stable, as insertion sort is. */
  function SortGroups(s: seq<RawApiGroup>): (r: seq<RawApiGroup>)
    ensures multiset(r) == multiset(s)
    ensures forall y :: y in r <==> y in s
  {
    if s == [] then []
    else
      var r := Insert(s[0], SortGroups(s[1..]));
      assert s == [s[0]] + s[1..];
      r
  }

  lemma SortedTail(s: seq<RawApiGroup>)
    requires Sorted(s) && s != []
    ensures Sorted(s[1..])
  {
    var t := s[1..];
    forall i, j | 0 <= i < j < |t| ensures GroupLe(t[i], t[j]) {
      assert t[i] == s[i + 1] && t[j] == s[j + 1];
    }
  }

  lemma SortedCons(x: RawApiGroup, s: seq<RawApiGroup>)
    requires Sorted(s)
    requires forall y :: y in s ==> GroupLe(x, y)
    ensures Sorted([x] + s)
  {
    var r := [x] + s;
    forall i, j | 0 <= i < j < |r| ensures GroupLe(r[i], r[j]) {
      assert r[j] == s[j - 1];
      if i > 0 {
        assert r[i] == s[i - 1];
      }
    }
  }

  lemma {:induction false} InsertSorted(x: RawApiGroup, s: seq<RawApiGroup>)
    requires Sorted(s)
    ensures Sorted(Insert(x, s))
  {
    if s == [] {
    } else if GroupLe(x, s[0]) {
      forall y | y in s ensures GroupLe(x, y) {
        if y != s[0] {
          var k :| 0 <= k < |s| && s[k] == y;
          GroupLeTransitive(x, s[0], y);
        }
      }
      SortedCons(x, s);
    } else {
      GroupLeTotal(x, s[0]);
      SortedTail(s);
      InsertSorted(x, s[1..]);
      var tail := Insert(x, s[1..]);
      forall y | y in tail ensures GroupLe(s[0], y) {
        if y != x {
          var k :| 0 <= k < |s[1..]| && s[1..][k] == y;
          assert s[k + 1] == y;
        }
      }
      SortedCons(s[0], tail);
    }
  }

  lemma {:induction false} SortGroupsSorted(s: seq<RawApiGroup>)
    ensures Sorted(SortGroups(s))
  {
    if s != [] {
      SortGroupsSorted(s[1..]);
      InsertSorted(s[0], SortGroups(s[1..]));
    }
  }

  lemma DistinctCons(x: RawApiGroup, s: seq<RawApiGroup>)
    requires DistinctNames(s)
    requires forall y :: y in s ==> y.name != x.name
    ensures DistinctNames([x] + s)
  {
    var r := [x] + s;
    forall i, j | 0 <= i < j < |r| ensures r[i].name != r[j].name {
      assert r[j] == s[j - 1];
      if i > 0 {
        assert r[i] == s[i - 1];
      }
    }
  }

  lemma DistinctTail(s: seq<RawApiGroup>)
    requires DistinctNames(s) && s != []
    ensures DistinctNames(s[1..])
    ensures forall y :: y in s[1..] ==> y.name != s[0].name
  {
    var t := s[1..];
    forall i, j | 0 <= i < j < |t| ensures t[i].name != t[j].name {
      assert t[i] == s[i + 1] && t[j] == s[j + 1];
    }
    forall y | y in t ensures y.name != s[0].name {
      var k :| 0 <= k < |t| && t[k] == y;
      assert s[k + 1] == y;
    }
  }

  lemma {:induction false} InsertDistinct(x: RawApiGroup, s: seq<RawApiGroup>)
    requires DistinctNames(s)
    requires forall y :: y in s ==> y.name != x.name
    ensures DistinctNames(Insert(x, s))
  {
    if s == [] {
    } else if GroupLe(x, s[0]) {
      DistinctCons(x, s);
    } else {
      DistinctTail(s);
      assert forall y :: y in s[1..] ==> y in s;
      InsertDistinct(x, s[1..]);
      assert s[0] in s;
      DistinctCons(s[0], Insert(x, s[1..]));
    }
  }

  lemma {:induction false} SortGroupsDistinct(s: seq<RawApiGroup>)
    requires DistinctNames(s)
    ensures DistinctNames(SortGroups(s))
  {
    if s != [] {
      DistinctTail(s);
      SortGroupsDistinct(s[1..]);
      InsertDistinct(s[0], SortGroups(s[1..]));
    }
  }

  /** The bucket names in order of first appearance, as a `Map` keeps its keys. */
  function GroupNames(docs: seq<RawApiDocItem>): (names: seq<string>)
    ensures |names| <= |docs|
  {
    if docs == [] then []
    else
      var names := GroupNames(docs[..|docs| - 1]);
      var g := docs[|docs| - 1].group;
      if g in names then names else names + [g]
  }

  /** The items of one group, in input order. */
  function ItemsOf(docs: seq<RawApiDocItem>, name: string): (r: seq<RawApiDocItem>)
    ensures |r| <= |docs|
  {
    if docs == [] then []
    else
      var last := docs[|docs| - 1];
      ItemsOf(docs[..|docs| - 1], name) + (if last.group == name then [last] else [])
  }

  /** The bucket names are the distinct groups of the items, each once. */
  lemma {:induction false} GroupNamesFacts(docs: seq<RawApiDocItem>)
    ensures forall n :: n in GroupNames(docs) <==> exists d :: d in docs && d.group == n
    ensures forall i, j :: 0 <= i < j < |GroupNames(docs)| ==> GroupNames(docs)[i] != GroupNames(docs)[j]
  {
    if docs != [] {
      var prefix := docs[..|docs| - 1];
      var last := docs[|docs| - 1];
      assert docs == prefix + [last];
      GroupNamesFacts(prefix);
      forall n ensures n in GroupNames(docs) <==> exists d :: d in docs && d.group == n {
        if n in GroupNames(docs) && n in GroupNames(prefix) {
          var d :| d in prefix && d.group == n;
          assert d in docs;
        }
        if exists d :: d in docs && d.group == n {
          var d :| d in docs && d.group == n;
          if d != last {
            assert d in prefix;
          }
        }
      }
    }
  }

  /** A bucket holds exactly the items of its group. */
  lemma {:induction false} ItemsOfMembers(docs: seq<RawApiDocItem>, name: string)
    ensures forall d :: d in ItemsOf(docs, name) <==> d in docs && d.group == name
  {
    if docs != [] {
      var prefix := docs[..|docs| - 1];
      var last := docs[|docs| - 1];
      assert docs == prefix + [last];
      ItemsOfMembers(prefix, name);
    }
  }

  /** Adding one item to the seen prefix appends its group to the names when the group is new. */
  lemma NamesStep(docs: seq<RawApiDocItem>, i: nat)
    requires i < |docs|
    ensures var names := GroupNames(docs[..i]);
      GroupNames(docs[..i + 1]) == if docs[i].group in names then names else names + [docs[i].group]
  {
    var p := docs[..i + 1];
    assert p[..|p| - 1] == docs[..i];
  }

  /** Adding one item to the seen prefix appends it to the bucket of its own group only. */
  lemma ItemsStep(docs: seq<RawApiDocItem>, i: nat, n: string)
    requires i < |docs|
    ensures docs[i].group == n ==> ItemsOf(docs[..i + 1], n) == ItemsOf(docs[..i], n) + [docs[i]]
    ensures docs[i].group != n ==> ItemsOf(docs[..i + 1], n) == ItemsOf(docs[..i], n)
  {
    var p := docs[..i + 1];
    assert p[..|p| - 1] == docs[..i];
    assert ItemsOf(docs[..i], n) + [] == ItemsOf(docs[..i], n);
  }

  /** The buckets before sorting: one per group name, in order of first appearance. */
  function Buckets(docs: seq<RawApiDocItem>): seq<RawApiGroup> {
    var names := GroupNames(docs);
    seq(|names|, i requires 0 <= i < |names| => RawApiGroup(names[i], ItemsOf(docs, names[i])))
  }

  /** What `groupRawApiDocs` returns. */
  function Grouped(docs: seq<RawApiDocItem>): seq<RawApiGroup> {
    SortGroups(Buckets(docs))
  }

  /** The bucket map and name list of a prefix of the items. */
  ghost predicate BucketsOfPrefix(docs: seq<RawApiDocItem>, names: seq<string>, buckets: map<string, seq<RawApiDocItem>>) {
    && names == GroupNames(docs)
    && (forall n :: n in buckets <==> n in names)
    && (forall n :: n in buckets ==> buckets[n] == ItemsOf(docs, n))
  }

  /** An item of a group already seen is appended to that group's bucket. */
  lemma BucketStepKnown(docs: seq<RawApiDocItem>, i: nat, names: seq<string>, buckets: map<string, seq<RawApiDocItem>>)
    requires i < |docs| && docs[i].group in buckets
    requires BucketsOfPrefix(docs[..i], names, buckets)
    ensures BucketsOfPrefix(docs[..i + 1], names, buckets[docs[i].group := buckets[docs[i].group] + [docs[i]]])
  {
    var name := docs[i].group;
    assert GroupNames(docs[..i + 1]) == names by {
      NamesStep(docs, i);
      assert name in names;
    }
    var after := buckets[name := buckets[name] + [docs[i]]];
    forall n | n in after ensures after[n] == ItemsOf(docs[..i + 1], n) {
      ItemsStep(docs, i, n);
    }
    assert forall n :: n in after <==> n in names;
  }

  /** An item of a new group opens a bucket of its own, and the group's name is appended. */
  lemma BucketStepNew(docs: seq<RawApiDocItem>, i: nat, names: seq<string>, buckets: map<string, seq<RawApiDocItem>>)
    requires i < |docs| && docs[i].group !in buckets
    requires BucketsOfPrefix(docs[..i], names, buckets)
    ensures BucketsOfPrefix(docs[..i + 1], names + [docs[i].group], buckets[docs[i].group := [docs[i]]])
  {
    var name := docs[i].group;
    NamesStep(docs, i);
    var after := buckets[name := [docs[i]]];
    forall n | n in after ensures after[n] == ItemsOf(docs[..i + 1], n) {
      ItemsStep(docs, i, n);
      if n == name {
        ItemsOfAbsent(docs[..i], n);
      }
    }
  }

  /** A group with no item among the items has an empty bucket. */
  lemma {:induction false} ItemsOfAbsent(docs: seq<RawApiDocItem>, n: string)
    requires n !in GroupNames(docs)
    ensures ItemsOf(docs, n) == []
  {
    if docs != [] {
      ItemsOfAbsent(docs[..|docs| - 1], n);
    }
  }

  /** The entries of the bucket map, read out in the order of `names`. */
  function Entries(names: seq<string>, buckets: map<string, seq<RawApiDocItem>>): (r: seq<RawApiGroup>)
    requires forall n :: n in names ==> n in buckets
    ensures |r| == |names|
  {
    seq(|names|, k requires 0 <= k < |names| => RawApiGroup(names[k], buckets[names[k]]))
  }

  /** A map holding each group's items, read out in first-appearance order, gives the buckets. */
  lemma EntriesAreBuckets(docs: seq<RawApiDocItem>, names: seq<string>, buckets: map<string, seq<RawApiDocItem>>)
    requires BucketsOfPrefix(docs, names, buckets)
    ensures Entries(names, buckets) == Buckets(docs)
  {
    var entries := Entries(names, buckets);
    var expected := Buckets(docs);
    forall k | 0 <= k < |names| ensures entries[k] == expected[k] {
      assert names[k] in names;
    }
  }

  /** `groupRawApiDocs`: a `Map` of buckets filled by `push`, its entries then sorted. */
  method GroupRawApiDocs(docs: seq<RawApiDocItem>) returns (groups: seq<RawApiGroup>)
    ensures groups == Grouped(docs)
  {
    var names: seq<string> := [];
    var buckets: map<string, seq<RawApiDocItem>> := map[];
    for i := 0 to |docs|
      invariant BucketsOfPrefix(docs[..i], names, buckets)
    {
      var name := docs[i].group;
      if name in buckets {
        BucketStepKnown(docs, i, names, buckets);
        buckets := buckets[name := buckets[name] + [docs[i]]];
      } else {
        BucketStepNew(docs, i, names, buckets);
        buckets := buckets[name := [docs[i]]];
        names := names + [name];
      }
    }
    assert docs[..|docs|] == docs;
    EntriesAreBuckets(docs, names, buckets);
    groups := SortGroups(Entries(names, buckets));
  }

  /**
    The groups partition the items: each item lies in the one group named by
    its `group` field, each group holds exactly its items in input order and
    is non-empty, names are distinct, and the groups are in comparator order.
   */
  lemma GroupedIsPartition(docs: seq<RawApiDocItem>)
    ensures var groups := Grouped(docs);
      && Sorted(groups)
      && DistinctNames(groups)
      && (forall g :: g in groups ==> g.items == ItemsOf(docs, g.name) && g.items != [])
      && (forall d :: d in docs ==> exists g :: g in groups && g.name == d.group)
      && (forall d, g :: d in docs && g in groups ==> (d in g.items <==> g.name == d.group))
  {
    var buckets := Buckets(docs);
    var names := GroupNames(docs);
    GroupNamesFacts(docs);
    assert DistinctNames(buckets) by {
      forall i, j | 0 <= i < j < |buckets| ensures buckets[i].name != buckets[j].name {
        assert buckets[i].name == names[i] && buckets[j].name == names[j];
      }
    }
    SortGroupsSorted(buckets);
    SortGroupsDistinct(buckets);
    var groups := Grouped(docs);
    forall g | g in groups ensures g.items == ItemsOf(docs, g.name) && g.items != [] {
      var k :| 0 <= k < |buckets| && buckets[k] == g;
      assert g.name == names[k] && names[k] in names;
      var d :| d in docs && d.group == g.name;
      ItemsOfMembers(docs, g.name);
      assert d in g.items;
    }
    forall d | d in docs ensures exists g :: g in groups && g.name == d.group {
      assert d.group in names;
      var k :| 0 <= k < |names| && names[k] == d.group;
      assert buckets[k] in groups;
    }
    forall d, g | d in docs && g in groups ensures d in g.items <==> g.name == d.group {
      ItemsOfMembers(docs, g.name);
    }
  }

  // ---------------------------------------------------------------- the page component

  /** `expanded === id ? null : id`: the open detail panel closes, any other opens. */
  function Toggle(current: Option<string>, id: string): (r: Option<string>)
    ensures r == None <==> current == Some(id)
    ensures r.Some? ==> r.value == id
  {
    if current == Some(id) then None else Some(id)
  }

  /** Toggling the same id twice restores the panel state exactly when it was closed or showed that id. */
  lemma ToggleTwice(current: Option<string>, id: string)
    ensures Toggle(Toggle(current, id), id) == current <==> current == None || current == Some(id)
  {
  }

  const EmptySigStringMessage: string := "SigString is empty. Paste a value first."

  /** What `importSigString` forwards to the service: the trimmed draft, or nothing for a blank one. */
  function ImportDecision(draft: string): (forwarded: Option<string>)
    ensures forwarded == None <==> AllWhitespace(draft)
  {
    var trimmed := Trim(draft);
    if trimmed == [] then None else Some(trimmed)
  }

  /** A forwarded SigString is the draft without surrounding whitespace, non-empty, and forwarded unchanged again. */
  lemma ImportDecisionFacts(draft: string)
    ensures var f := ImportDecision(draft);
      f.Some? ==> f.value == Trim(draft) && f.value != [] && IsTrimmed(f.value) && ImportDecision(f.value) == f
  {
    TrimIdempotent(draft);
  }

  /** The image source the listener installed by `ensureConnected` sets from a payload. */
  function DataUrl(payload: string): (r: string)
    ensures StartsWith(r, "data:image/png;base64,") && EndsWith(r, payload)
  {
    var prefix := "data:image/png;base64,";
    assert (prefix + payload)[..|prefix|] == prefix;
    assert (prefix + payload)[|prefix|..] == payload;
    prefix + payload
  }

  /**
    `save` after `ensureConnected`: the page shows the normalised image
    payload exactly when the host answered with a non-empty one.
   */
  lemma SaveShowsPayload(w: Option<Topaz.Location>, st: Topaz.Status, reply: Topaz.Reply)
    ensures var (_, delivered) := Topaz.AfterGetImage(w, st.(listening := true), reply);
      && (delivered.Some? <==> reply.Ok? && Topaz.NormalizeTextResponse(reply.body) != [])
      && (delivered.Some? ==> delivered.value == Topaz.NormalizeTextResponse(reply.body))
  {
    Topaz.GetImageFacts(w, st.(listening := true), reply);
  }

  /** The signature page: its image, the SigString draft and the two expanded-panel keys. */
  class SignatureComponent {
    const topaz: Topaz.TopazService
    var signatureImage: Option<string>
    var sigStringDraft: string
    var expandedApiId: Option<string>
    var expandedRawApiKey: Option<string>

    constructor(service: Topaz.TopazService)
      ensures topaz == service
      ensures signatureImage == None && sigStringDraft == []
      ensures expandedApiId == None && expandedRawApiKey == None
    {
      topaz := service;
      signatureImage := None;
      sigStringDraft := [];
      expandedApiId := None;
      expandedRawApiKey := None;
    }

    method ToggleApiDetails(id: string)
      modifies this
      ensures expandedApiId == Toggle(old(expandedApiId), id)
      ensures expandedRawApiKey == old(expandedRawApiKey) && signatureImage == old(signatureImage)
      ensures sigStringDraft == old(sigStringDraft)
    {
      expandedApiId := if expandedApiId == Some(id) then None else Some(id);
    }

    method ToggleRawApiDetails(key: string)
      modifies this
      ensures expandedRawApiKey == Toggle(old(expandedRawApiKey), key)
      ensures expandedApiId == old(expandedApiId) && signatureImage == old(signatureImage)
      ensures sigStringDraft == old(sigStringDraft)
    {
      expandedRawApiKey := if expandedRawApiKey == Some(key) then None else Some(key);
    }

    /** `ensureConnected`: attach the listener that turns a payload into the page's image. */
    method EnsureConnected()
      modifies topaz
      ensures topaz.State() == old(topaz.State()).(listening := true)
    {
      topaz.Connect();
    }

    /** `start` */
    method Start(open: Topaz.Reply, state: Topaz.Reply, r: Topaz.StatusReplies)
      modifies topaz
      ensures topaz.State() == Topaz.AfterStartCapture(topaz.window, old(topaz.State()).(listening := true), open, state, r)
    {
      EnsureConnected();
      topaz.StartCapture(open, state, r);
    }

    /** `clear`: the shown image goes away before the host is asked to clear. */
    method Clear(reply: Topaz.Reply, r: Topaz.StatusReplies)
      modifies this, topaz
      ensures signatureImage == None
      ensures sigStringDraft == old(sigStringDraft)
      ensures expandedApiId == old(expandedApiId) && expandedRawApiKey == old(expandedRawApiKey)
      ensures topaz.State() == Topaz.AfterClear(topaz.window, old(topaz.State()).(listening := true), reply, r)
    {
      EnsureConnected();
      signatureImage := None;
      topaz.Clear(reply, r);
    }

    /** `save`: the listener shows whatever payload `getImage` delivers. */
    method Save(reply: Topaz.Reply)
      modifies this, topaz
      ensures var (st, delivered) := Topaz.AfterGetImage(topaz.window, old(topaz.State()).(listening := true), reply);
        && topaz.State() == st
        && signatureImage == (if delivered.Some? then Some(DataUrl(delivered.value)) else old(signatureImage))
      ensures sigStringDraft == old(sigStringDraft)
      ensures expandedApiId == old(expandedApiId) && expandedRawApiKey == old(expandedRawApiKey)
    {
      EnsureConnected();
      var delivered := topaz.GetImage(reply);
      if delivered.Some? {
        signatureImage := Some(DataUrl(delivered.value));
      }
    }

    /**
      `importSigString`: a blank draft sets the service's error and forwards
      nothing; otherwise the trimmed draft is forwarded (returned here, as the
      service's import is not part of this model).
     */
    method ImportSigString() returns (forwarded: Option<string>)
      modifies topaz
      ensures forwarded == ImportDecision(sigStringDraft)
      ensures forwarded.None? ==> topaz.State() == old(topaz.State()).(lastError := Some(EmptySigStringMessage))
      ensures forwarded.Some? ==> topaz.State() == old(topaz.State())
    {
      var trimmed := Trim(sigStringDraft);
      if trimmed == [] {
        topaz.lastError := Some(EmptySigStringMessage);
        return None;
      }
      forwarded := Some(trimmed);
    }
  }
}
