/**
  `fetching(url, action, options)`: the fetch wrapper. It resolves its
  arguments into a file name, a destination path, a response action and the
  options handed to the HTTP client; in a dry run it stops there. Otherwise it
  checks the response's status text and dispatches on the action: a body
  representation, the headers, or a download that writes the body to a file
  while counting the bytes and comparing them with `content-length`.
  The verb helpers (`get`, `post`, ...) and `wget` only reshape arguments
  before calling `fetching`.
 */
module Fetch {
  import opened Js
  import opened Paths

  newtype byte = x: int | 0 <= x < 256

  /** Raw response headers, name to values. */
  type Headers = map<string, seq<string>>

  /** What the caller asks to get back. */
  datatype ResponseAction =
    | Header | ResponseObject | ArrayBuffer | Buffer | Blob | Json | Text | Converted | Stream
    | Download

  /** The nine response-type strings that keep their action. */
  const ResponseTypes: seq<string> :=
    ["header", "object", "array", "buffer", "blob", "json", "text", "converted", "stream"]

  function ActionName(a: ResponseAction): string {
    match a
    case Header => "header"
    case ResponseObject => "object"
    case ArrayBuffer => "array"
    case Buffer => "buffer"
    case Blob => "blob"
    case Json => "json"
    case Text => "text"
    case Converted => "converted"
    case Stream => "stream"
    case Download => "download"
  }

  function ParseResponseType(s: string): (r: Option<ResponseAction>)
    ensures r.Some? <==> s in ResponseTypes
    ensures r.Some? ==> r.value != Download && ActionName(r.value) == s
  {
    if s == "header" then Some(Header)
    else if s == "object" then Some(ResponseObject)
    else if s == "array" then Some(ArrayBuffer)
    else if s == "buffer" then Some(Buffer)
    else if s == "blob" then Some(Blob)
    else if s == "json" then Some(Json)
    else if s == "text" then Some(Text)
    else if s == "converted" then Some(Converted)
    else if s == "stream" then Some(Stream)
    else None
  }

  lemma ResponseTypeRoundTrip(a: ResponseAction)
    requires a != Download
    ensures ParseResponseType(ActionName(a)) == Some(a)
  {
  }

  /** `switch (action)` compares with `===`: only one of the nine strings
      selects a case; anything else, string or not, takes `default`. */
  function Dispatched(action: Value): (a: ResponseAction)
    ensures a != Download <==> action.Str? && action.s in ResponseTypes
    ensures a != Download ==> ActionName(a) == action.s
  {
    match action
    case Str(s) => (match ParseResponseType(s) case Some(a) => a case None => Download)
    case _ => Download
  }

  /** Each action's own name selects that action. */
  lemma DispatchedByName(a: ResponseAction)
    requires a != Download
    ensures Dispatched(Str(ActionName(a))) == a
  {
    ResponseTypeRoundTrip(a);
  }

  /** The second argument of `fetching`: omitted (or null), a string, or an
      object given by its own properties at the time of the call. */
  datatype Arg = NoArg | StrArg(s: string) | ObjArg(fields: map<string, Value>)

  /** Destination and action after the three-way classification. */
  datatype Classified = Classified(destination: string, action: Value)

  function Classify(arg: Arg): (c: Classified)
    ensures arg.StrArg? && arg.s in ResponseTypes ==>
      c.destination == "./" && ActionName(Dispatched(c.action)) == arg.s
    ensures arg.ObjArg? ==> c.destination == "./" && Dispatched(c.action) == Stream
    ensures !arg.ObjArg? && !(arg.StrArg? && arg.s in ResponseTypes) ==>
      && Dispatched(c.action) == Download
      && c.destination == (if arg.StrArg? && arg.s != "" then arg.s else "./")
  {
    match arg
    case StrArg(s) =>
      if s in ResponseTypes then Classified("./", Str(s))
      else Classified(if s == "" then "./" else s, Str("download"))
    case ObjArg(_) => Classified("./", Str("stream"))
    case NoArg => Classified("./", Str("download"))
  }

  /** The options after `Object.assign(options, action)` for an object argument. */
  function Merged(arg: Arg, options: map<string, Value>): map<string, Value> {
    if arg.ObjArg? then options + arg.fields else options
  }

  /** Everything `fetching` derives from its arguments before any I/O. */
  datatype Resolution = Resolution(
    file: string,
    destination: string,
    action: Value,
    options: map<string, Value>)

  function Resolve(url: string, arg: Arg, options: map<string, Value>): Resolution {
    var c := Classify(arg);
    var merged := Merged(arg, options);
    var overridden := Truthy(Get(merged, "action"));
    var file := FileName(url);
    Resolution(
      file,
      JoinDestination(c.destination, file),
      if overridden then merged["action"] else c.action,
      if overridden then merged - {"action"} else merged)
  }

  /** A truthy `options.action` replaces the inferred action and is removed
      from the options; every other property is left as the merge made it. */
  lemma ActionOverride(url: string, arg: Arg, options: map<string, Value>)
    ensures var merged := Merged(arg, options);
      var r := Resolve(url, arg, options);
      && (Truthy(Get(merged, "action")) ==> r.action == merged["action"] && "action" !in r.options)
      && (!Truthy(Get(merged, "action")) ==> r.action == Classify(arg).action && r.options == merged)
      && (forall k :: k != "action" ==> Get(r.options, k) == Get(merged, k))
      && (arg.ObjArg? ==> forall k :: k in arg.fields ==> k in merged && merged[k] == arg.fields[k])
  {
  }

  /** The destination is the classified one, with the file name appended
      exactly when it ends in `/`; the appended name is then the path's last
      segment. */
  lemma ResolvedDestination(url: string, arg: Arg, options: map<string, Value>)
    ensures var d := Classify(arg).destination;
      var r := Resolve(url, arg, options);
      && (EndsWithSlash(d) ==> r.destination == d + FileName(url) && LastSegment(r.destination) == FileName(url))
      && (!EndsWithSlash(d) ==> r.destination == d)
  {
    var d := Classify(arg).destination;
    if EndsWithSlash(d) {
      JoinedPathEndsWithFile(d, url);
    }
  }

  /** The HTTP response as the wrapper sees it: the status text, the
      `content-length` header if any, all headers, and the body as the chunks
      the stream delivers. */
  datatype Response = Response(
    statusText: string,
    contentLength: Option<string>,
    headers: Headers,
    body: seq<seq<byte>>)

  /** What the HTTP client's promise settles to. */
  datatype Reply = NetworkError(reason: string) | Answered(response: Response)

  datatype DownloadInfo = DownloadInfo(
    filepath: string,
    fileSize: nat,
    fileSizeMatch: bool,
    headers: Headers)

  /** How the promise returned by `fetching` settles. */
  datatype Outcome =
    | DryRun(filepath: string)
    | Rejected(reason: string)
    | RawHeaders(headers: Headers)
    /** resolved with what node-fetch makes of the response for this action */
    | Delivered(action: ResponseAction, response: Response)
    | Downloaded(info: DownloadInfo)

  function StatusMessage(url: string, statusText: string): string {
    "Fetch to " + url + " failed, with status text: " + statusText
  }

  predicate IsDigit(c: char) {
    '0' <= c <= '9'
  }

  predicate AllDigits(s: string) {
    forall i :: 0 <= i < |s| ==> IsDigit(s[i])
  }

  function DecimalValue(s: string): nat
    requires AllDigits(s)
  {
    if s == [] then 0
    else DecimalValue(s[..|s| - 1]) * 10 + (s[|s| - 1] as int - '0' as int)
  }

  function DigitChar(d: nat): char
    requires d < 10
  {
    ('0' as int + d) as char
  }

  /** The decimal notation of a byte count, as a server writes it into
      `content-length`. */
  function DecimalString(n: nat): (s: string)
    ensures s != [] && AllDigits(s)
  {
    if n < 10 then [DigitChar(n)] else DecimalString(n / 10) + [DigitChar(n % 10)]
  }

  lemma {:induction false} DecimalRoundTrip(n: nat)
    ensures DecimalValue(DecimalString(n)) == n
  {
    var s := DecimalString(n);
    if n >= 10 {
      DecimalRoundTrip(n / 10);
      assert s[..|s| - 1] == DecimalString(n / 10);
    }
  }

  /** `Number.isInteger(h - 0) ? parseInt(h) : 0`, where `None` stands for
      NaN. An absent header is `null`, and `null - 0` is the integer 0, so
      `parseInt(null)` gives NaN; the empty string does the same. A decimal
      string gives its value, any other string 0. */
  function DeclaredSize(contentLength: Option<string>): Option<int> {
    match contentLength
    case None => None
    case Some(h) =>
      if h == "" then None
      else if AllDigits(h) then Some(DecimalValue(h))
      else Some(0)
  }

  /** The bytes the file receives: the chunks in order. */
  function Concat(chunks: seq<seq<byte>>): seq<byte> {
    if chunks == [] then [] else Concat(chunks[..|chunks| - 1]) + chunks[|chunks| - 1]
  }

  /** What the `data` handler accumulates: the sum of the chunk lengths. */
  function SumLengths(chunks: seq<seq<byte>>): nat {
    if chunks == [] then 0 else SumLengths(chunks[..|chunks| - 1]) + |chunks[|chunks| - 1]|
  }

  lemma {:induction false} ConcatLength(chunks: seq<seq<byte>>)
    ensures |Concat(chunks)| == SumLengths(chunks)
  {
    if chunks != [] {
      ConcatLength(chunks[..|chunks| - 1]);
    }
  }

  function DownloadOutcome(destination: string, res: Response, writeError: Option<string>): Outcome {
    match writeError
    case Some(e) => Rejected(e)
    case None =>
      var downloadedSize := SumLengths(res.body);
      Downloaded(DownloadInfo(
        destination,
        downloadedSize,
        DeclaredSize(res.contentLength) == Some(downloadedSize),
        res.headers))
  }

  /** How the request settles once the arguments are resolved. The `.catch`
      passes a rejection on with its reason unchanged. */
  function Respond(url: string, destination: string, action: Value, reply: Reply, writeError: Option<string>): Outcome {
    match reply
    case NetworkError(reason) => Rejected(reason)
    case Answered(res) =>
      if res.statusText != "OK" then Rejected(StatusMessage(url, res.statusText))
      else
        var a := Dispatched(action);
        if a == Header then RawHeaders(res.headers)
        else if a == Download then DownloadOutcome(destination, res, writeError)
        else Delivered(a, res)
  }

  /** The settled value of `fetching(url, arg, options)`. */
  function Transfer(url: string, arg: Arg, options: map<string, Value>, reply: Reply, writeError: Option<string>): Outcome {
    var r := Resolve(url, arg, options);
    if Truthy(Get(r.options, "dry")) then DryRun(r.destination)
    else Respond(url, r.destination, r.action, reply, writeError)
  }

  /** The local file system, path to contents. */
  class Disk {
    var files: map<string, seq<byte>>

    constructor ()
      ensures files == map[]
    {
      files := map[];
    }

    /** A write stream opened with flag `w+` truncates the file; what is piped
        into it becomes its whole contents. */
    method Save(path: string, data: seq<byte>)
      modifies this
      ensures files == old(files)[path := data]
    {
      files := files[path := data];
    }
  }

  /** The file system after a call that settled with `outcome`: only a
      completed download writes, and it writes the response body. */
  ghost predicate DiskAfter(before: map<string, seq<byte>>, after: map<string, seq<byte>>, outcome: Outcome, reply: Reply) {
    if outcome.Downloaded? then
      reply.Answered? && after == before[outcome.info.filepath := Concat(reply.response.body)]
    else after == before
  }

  /** The body piped to the file chunk by chunk, with the running byte count
      kept by the `data` handler. */
  method Receive(chunks: seq<seq<byte>>) returns (downloadedSize: nat, written: seq<byte>)
    ensures written == Concat(chunks)
    ensures downloadedSize == SumLengths(chunks) == |written|
  {
    downloadedSize, written := 0, [];
    for i := 0 to |chunks|
      invariant written == Concat(chunks[..i])
      invariant downloadedSize == SumLengths(chunks[..i])
    {
      assert chunks[..i + 1][..i] == chunks[..i];
      written := written + chunks[i];
      downloadedSize := downloadedSize + |chunks[i]|;
    }
    assert chunks[..|chunks|] == chunks;
    ConcatLength(chunks);
  }

  /** The `default` branch: save the body to `destination` and report its size. */
  method SaveBody(destination: string, res: Response, writeError: Option<string>, disk: Disk) returns (outcome: Outcome)
    modifies disk
    ensures outcome == DownloadOutcome(destination, res, writeError)
    ensures DiskAfter(old(disk.files), disk.files, outcome, Answered(res))
  {
    var fileSize := DeclaredSize(res.contentLength);
    if writeError.Some? {
      outcome := Rejected(writeError.value);
      return;
    }
    var downloadedSize, written := Receive(res.body);
    disk.Save(destination, written);
    outcome := Downloaded(DownloadInfo(destination, downloadedSize, fileSize == Some(downloadedSize), res.headers));
  }

  /** The three-way test on the second argument; an object is copied into
      the options. */
  method ClassifyArgument(arg: Arg, options: JsObject) returns (destination: string, action: Value)
    modifies options
    ensures options.entries == Merged(arg, old(options.entries))
    ensures Classified(destination, action) == Classify(arg)
  {
    if arg.StrArg? && arg.s in ResponseTypes {
      destination, action := "./", Str(arg.s);
    } else if arg.ObjArg? {
      options.Assign(arg.fields);
      destination, action := "./", Str("stream");
    } else {
      destination := if arg.StrArg? && arg.s != "" then arg.s else "./";
      action := Str("download");
    }
  }

  /** The request and the `switch` on the action. */
  method Settle(url: string, destination: string, action: Value, reply: Reply, writeError: Option<string>, disk: Disk)
    returns (outcome: Outcome)
    modifies disk
    ensures outcome == Respond(url, destination, action, reply, writeError)
    ensures DiskAfter(old(disk.files), disk.files, outcome, reply)
  {
    match reply {
      case NetworkError(reason) =>
        outcome := Rejected(reason);
      case Answered(res) =>
        if res.statusText == "OK" {
          var kind := Dispatched(action);
          if kind == Header {
            outcome := RawHeaders(res.headers);
          } else if kind == Download {
            outcome := SaveBody(destination, res, writeError, disk);
          } else {
            outcome := Delivered(kind, res);
          }
        } else {
          outcome := Rejected(StatusMessage(url, res.statusText));
        }
    }
  }

  /** `fetching(url, action, options)`. `options` is the caller's object
      (a fresh empty one when the caller passes none); `reply` is what the
      HTTP client returns and `writeError` whether the file cannot be written. */
  method Fetching(url: string, arg: Arg, options: JsObject, reply: Reply, writeError: Option<string>, disk: Disk)
    returns (outcome: Outcome)
    modifies options, disk
    ensures options.entries == Resolve(url, arg, old(options.entries)).options
    ensures outcome == Transfer(url, arg, old(options.entries), reply, writeError)
    ensures DiskAfter(old(disk.files), disk.files, outcome, reply)
  {
    var file := FileName(url);
    var destination, action := ClassifyArgument(arg, options);

    if Truthy(Get(options.entries, "action")) {
      action := options.entries["action"];
      options.Delete("action");
    }

    if EndsWithSlash(destination) {
      destination := destination + file;
    }

    if Truthy(Get(options.entries, "dry")) {
      return DryRun(destination);
    }

    outcome := Settle(url, destination, action, reply, writeError, disk);
  }

  /** A dry run settles with the computed path alone, whatever the network or
      the file system would have done. */
  lemma DryRunIsPure(url: string, arg: Arg, options: map<string, Value>,
                     reply1: Reply, writeError1: Option<string>, reply2: Reply, writeError2: Option<string>)
    requires Truthy(Get(Resolve(url, arg, options).options, "dry"))
    ensures Transfer(url, arg, options, reply1, writeError1) == DryRun(Resolve(url, arg, options).destination)
    ensures Transfer(url, arg, options, reply1, writeError1) == Transfer(url, arg, options, reply2, writeError2)
  {
  }

  /** Any status text other than exactly `OK` rejects with the fixed message,
      and a client failure rejects with its own reason. */
  lemma FailedRequestRejects(url: string, arg: Arg, options: map<string, Value>, reply: Reply, writeError: Option<string>)
    requires !Truthy(Get(Resolve(url, arg, options).options, "dry"))
    ensures reply.NetworkError? ==> Transfer(url, arg, options, reply, writeError) == Rejected(reply.reason)
    ensures reply.Answered? && reply.response.statusText != "OK" ==>
      Transfer(url, arg, options, reply, writeError)
        == Rejected("Fetch to " + url + " failed, with status text: " + reply.response.statusText)
  {
  }

  /** A download reports the number of bytes written to the file and whether
      that equals the declared length; any action outside the nine response
      types downloads. */
  lemma DownloadReportsBytesWritten(url: string, arg: Arg, options: map<string, Value>, res: Response)
    requires !Truthy(Get(Resolve(url, arg, options).options, "dry"))
    requires res.statusText == "OK"
    requires !(Resolve(url, arg, options).action.Str? && Resolve(url, arg, options).action.s in ResponseTypes)
    ensures var bytes := |Concat(res.body)|;
      Transfer(url, arg, options, Answered(res), None) == Downloaded(DownloadInfo(
        Resolve(url, arg, options).destination,
        bytes,
        DeclaredSize(res.contentLength) == Some(bytes),
        res.headers))
  {
    ConcatLength(res.body);
  }

  /** The size check against the `content-length` header as the code
      computes it. */
  lemma {:induction false} FileSizeMatch(destination: string, res: Response)
    ensures var bytes := |Concat(res.body)|;
      var info := DownloadOutcome(destination, res, None).info;
      && info.fileSize == bytes
      && (res.contentLength.None? ==> !info.fileSizeMatch)
      && (res.contentLength == Some(DecimalString(bytes)) ==> info.fileSizeMatch)
      && (forall h :: res.contentLength == Some(h) && h != "" && AllDigits(h) ==>
            (info.fileSizeMatch <==> DecimalValue(h) == bytes))
      && (forall h :: res.contentLength == Some(h) && !AllDigits(h) ==>
            (info.fileSizeMatch <==> bytes == 0))
  {
    ConcatLength(res.body);
    DecimalRoundTrip(|Concat(res.body)|);
  }

  // ---- the verb helpers and `wget` ----

  /** What a helper built by `verbFunc(verb)` leaves in the caller's options. */
  function VerbParams(entries: map<string, Value>, verb: string, responseType: Value): map<string, Value> {
    entries["action" := if responseType == Undef then Str("header") else responseType]
           ["method" := Str(Upper(verb))]
  }

  /** What a helper built by `verbFuncBody(verb)` leaves in the caller's options. */
  function VerbBodyParams(entries: map<string, Value>, verb: string, body: Value, responseType: Value): map<string, Value> {
    entries["method" := Str(Upper(verb))]
           ["action" := if responseType == Undef then Str("text") else responseType]
           ["body" := body]
  }

  /** `verbFunc(verb)(uri, responseType, options)`: the options object is
      passed as the second argument of `fetching`, which copies it into a
      fresh options object. */
  method VerbCall(verb: string, uri: string, responseType: Value, options: JsObject,
                  reply: Reply, writeError: Option<string>, disk: Disk)
    returns (outcome: Outcome)
    modifies options, disk
    ensures options.entries == VerbParams(old(options.entries), verb, responseType)
    ensures outcome == Transfer(uri, ObjArg(options.entries), map[], reply, writeError)
    ensures DiskAfter(old(disk.files), disk.files, outcome, reply)
  {
    var httpMethod := Upper(verb);
    options.Set("action", if responseType == Undef then Str("header") else responseType);
    options.Set("method", Str(httpMethod));
    var defaults := new JsObject(map[]);
    outcome := Fetching(uri, ObjArg(options.entries), defaults, reply, writeError, disk);
  }

  /** `verbFuncBody(verb)(uri, body, responseType, options)`. */
  method VerbBodyCall(verb: string, uri: string, body: Value, responseType: Value, options: JsObject,
                      reply: Reply, writeError: Option<string>, disk: Disk)
    returns (outcome: Outcome)
    modifies options, disk
    ensures options.entries == VerbBodyParams(old(options.entries), verb, body, responseType)
    ensures outcome == Transfer(uri, ObjArg(options.entries), map[], reply, writeError)
    ensures DiskAfter(old(disk.files), disk.files, outcome, reply)
  {
    var httpMethod := Upper(verb);
    options.Set("method", Str(httpMethod));
    options.Set("action", if responseType == Undef then Str("text") else responseType);
    options.Set("body", body);
    var defaults := new JsObject(map[]);
    outcome := Fetching(uri, ObjArg(options.entries), defaults, reply, writeError, disk);
  }

  /** An object as second argument with no options of the caller's own:
      saved under `./`, streamed unless the object names a truthy action. */
  lemma ObjectArgument(uri: string, m: map<string, Value>)
    ensures Resolve(uri, ObjArg(m), map[]) == Resolution(
      FileName(uri),
      "./" + FileName(uri),
      if Truthy(Get(m, "action")) then m["action"] else Str("stream"),
      if Truthy(Get(m, "action")) then m - {"action"} else m)
  {
    assert Merged(ObjArg(m), map[]) == m;
  }

  /** A helper's request: the upper-cased verb as method, the given response
      type (or the default when it is omitted) as action, saved under `./`. */
  lemma VerbRequest(verb: string, uri: string, responseType: Value, entries: map<string, Value>)
    ensures var r := Resolve(uri, ObjArg(VerbParams(entries, verb, responseType)), map[]);
      && Get(r.options, "method") == Str(Upper(verb))
      && (responseType == Undef ==> Dispatched(r.action) == Header && "action" !in r.options)
      && (Truthy(responseType) ==> r.action == responseType && "action" !in r.options)
      && (responseType != Undef && !Truthy(responseType) ==> Dispatched(r.action) == Stream)
      && r.destination == "./" + FileName(uri)
      && (forall k :: k != "action" && k != "method" ==> Get(r.options, k) == Get(entries, k))
  {
    ObjectArgument(uri, VerbParams(entries, verb, responseType));
    DispatchedByName(Header);
    DispatchedByName(Stream);
  }

  /** A body helper's request: the response type (or `text` when it is
      omitted) as action, saved under `./`. */
  lemma VerbBodyRequest(verb: string, uri: string, body: Value, responseType: Value, entries: map<string, Value>)
    ensures var r := Resolve(uri, ObjArg(VerbBodyParams(entries, verb, body, responseType)), map[]);
      && (responseType == Undef ==> Dispatched(r.action) == Text && "action" !in r.options)
      && (Truthy(responseType) ==> r.action == responseType && "action" !in r.options)
      && (responseType != Undef && !Truthy(responseType) ==> Dispatched(r.action) == Stream)
      && r.destination == "./" + FileName(uri)
  {
    var m := VerbBodyParams(entries, verb, body, responseType);
    ObjectArgument(uri, m);
    assert Get(m, "action") == (if responseType == Undef then Str("text") else responseType);
    DispatchedByName(Text);
    DispatchedByName(Stream);
  }

  /** A body helper sends the upper-cased verb as method and the body, and
      keeps every other option of the caller. */
  lemma VerbBodyOptions(verb: string, uri: string, body: Value, responseType: Value, entries: map<string, Value>)
    ensures var r := Resolve(uri, ObjArg(VerbBodyParams(entries, verb, body, responseType)), map[]);
      && Get(r.options, "method") == Str(Upper(verb))
      && Get(r.options, "body") == body
      && (forall k :: k != "action" && k != "method" && k != "body" ==> Get(r.options, k) == Get(entries, k))
  {
    ObjectArgument(uri, VerbBodyParams(entries, verb, body, responseType));
  }

  /** The `fetching.<name>` helpers: the verb each is built from and whether
      it takes a body. */
  datatype Helper = Helper(verb: string, withBody: bool)

  function HelperNamed(name: string): Option<Helper> {
    if name == "get" || name == "head" || name == "options" then Some(Helper(name, false))
    else if name == "post" || name == "put" || name == "patch" then Some(Helper(name, true))
    else if name == "del" || name == "delete" then Some(Helper("delete", true))
    else None
  }

  /** The names in the helper table, and which of them take a body. */
  lemma HelperNames(name: string)
    ensures HelperNamed(name).Some? <==>
      name in {"get", "head", "options", "post", "put", "patch", "del", "delete"}
    ensures HelperNamed(name).Some? ==>
      (HelperNamed(name).value.withBody <==> name !in {"get", "head", "options"})
  {
  }

  /** Each helper sends its own name upper-cased as the HTTP method, except
      `del`, which sends the same method as `delete`. */
  lemma HelperMethod(name: string)
    requires HelperNamed(name).Some?
    ensures name != "del" ==> Upper(HelperNamed(name).value.verb) == Upper(name)
    ensures name == "del" ==> HelperNamed(name) == HelperNamed("delete")
  {
  }

  lemma UpperDelete(verb: string)
    requires verb == "delete"
    ensures Upper(verb) == "DELETE"
  {
    var u := Upper(verb);
    assert u[0] == 'D' && u[1] == 'E' && u[2] == 'L' && u[3] == 'E' && u[4] == 'T' && u[5] == 'E';
  }

  /** `fetching[name](...)` for a name in the helper table. The helpers built
      by `verbFuncBody` take `body` before the response type; the others take
      no body, and `body` is then not used. */
  method CallHelper(name: string, uri: string, body: Value, responseType: Value, options: JsObject,
                    reply: Reply, writeError: Option<string>, disk: Disk)
    returns (outcome: Outcome)
    requires HelperNamed(name).Some?
    modifies options, disk
    ensures options.entries == HelperParams(HelperNamed(name).value, old(options.entries), body, responseType)
    ensures outcome == Transfer(uri, ObjArg(options.entries), map[], reply, writeError)
    ensures DiskAfter(old(disk.files), disk.files, outcome, reply)
  {
    var helper := HelperNamed(name).value;
    if helper.withBody {
      outcome := VerbBodyCall(helper.verb, uri, body, responseType, options, reply, writeError, disk);
    } else {
      outcome := VerbCall(helper.verb, uri, responseType, options, reply, writeError, disk);
    }
  }

  /** The request a helper's options make: with body for the helpers that
      take one, without for the others. */
  function HelperParams(h: Helper, entries: map<string, Value>, body: Value, responseType: Value): map<string, Value> {
    if h.withBody then VerbBodyParams(entries, h.verb, body, responseType)
    else VerbParams(entries, h.verb, responseType)
  }

  /** What each named helper sends: the table's verb upper-cased as the
      method (by `HelperMethod`, the helper's own name, and `DELETE` for
      `del`), the body when it takes one, and the file under `./`. */
  lemma HelperRequest(name: string, uri: string, body: Value, responseType: Value, entries: map<string, Value>)
    requires HelperNamed(name).Some?
    ensures var h := HelperNamed(name).value;
      var r := Resolve(uri, ObjArg(HelperParams(h, entries, body, responseType)), map[]);
      && Get(r.options, "method") == Str(Upper(h.verb))
      && (h.withBody ==> Get(r.options, "body") == body)
      && r.destination == "./" + FileName(uri)
  {
    var h := HelperNamed(name).value;
    if h.withBody {
      VerbBodyRequest(h.verb, uri, body, responseType, entries);
      VerbBodyOptions(h.verb, uri, body, responseType, entries);
    } else {
      VerbRequest(h.verb, uri, responseType, entries);
    }
  }

  /** With the response type omitted, `get`, `head` and `options` return the
      headers and every other helper returns the text. */
  lemma HelperDefaultAction(name: string, uri: string, body: Value, entries: map<string, Value>)
    requires HelperNamed(name).Some?
    ensures var h := HelperNamed(name).value;
      var r := Resolve(uri, ObjArg(HelperParams(h, entries, body, Undef)), map[]);
      Dispatched(r.action) == if name in {"get", "head", "options"} then Header else Text
  {
    var h := HelperNamed(name).value;
    HelperNames(name);
    if h.withBody {
      VerbBodyRequest(h.verb, uri, body, Undef, entries);
    } else {
      VerbRequest(h.verb, uri, Undef, entries);
    }
  }

  /** `wget`'s folder argument as handed on to `fetching`. */
  function WgetFolder(folder: Arg): Arg {
    match folder
    case NoArg => StrArg("./")
    case ObjArg(_) => StrArg("./")
    case StrArg(s) => StrArg(s)
  }

  /** `wget`'s options as handed on to `fetching`. */
  function WgetParams(entries: map<string, Value>, folder: Arg): map<string, Value> {
    Merged(folder, entries)["action" := Str("download")]
  }

  /** `fetching.wget(url, folderFilename, options)`. */
  method Wget(url: string, folder: Arg, options: JsObject, reply: Reply, writeError: Option<string>, disk: Disk)
    returns (outcome: Outcome)
    modifies options, disk
    ensures options.entries == Resolve(url, WgetFolder(folder), WgetParams(old(options.entries), folder)).options
    ensures outcome == Transfer(url, WgetFolder(folder), WgetParams(old(options.entries), folder), reply, writeError)
    ensures DiskAfter(old(disk.files), disk.files, outcome, reply)
  {
    var folderFilename := if folder.StrArg? then folder else StrArg("./");
    if folder.ObjArg? {
      options.Assign(folder.fields);
    }
    options.Set("action", Str("download"));
    outcome := Fetching(url, folderFilename, options, reply, writeError, disk);
  }

  /** `wget` always downloads, whatever the folder argument names, and removes
      the `action` it set. */
  lemma {:induction false} WgetAlwaysDownloads(url: string, folder: Arg, entries: map<string, Value>)
    ensures var r := Resolve(url, WgetFolder(folder), WgetParams(entries, folder));
      && Dispatched(r.action) == Download
      && "action" !in r.options
      && r.destination == JoinDestination(
           if folder.StrArg? && folder.s != "" && folder.s !in ResponseTypes then folder.s else "./",
           FileName(url))
  {
    var m := WgetParams(entries, folder);
    assert Merged(WgetFolder(folder), m) == m;
    assert Get(m, "action") == Str("download");
  }
}
