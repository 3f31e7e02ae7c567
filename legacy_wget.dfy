/**
  The older `wget(url, action, options)`: the same path resolution as
  `fetching`, but it writes its results (`dest`, and `action` for a body type)
  into the caller's options object, takes the URL from `options` when `url` is
  falsy, knows only seven body types, never checks the status, and swallows
  every asynchronous error after logging it.
 */
module LegacyWget {
  import opened Js
  import opened Paths
  import Fetch

  /** The seven body types this variant knows; `header` and `object` are not among them. */
  const BodyTypes: seq<string> := ["array", "buffer", "blob", "json", "text", "converted", "stream"]

  /** How a call to the older `wget` ends. */
  datatype LegacyOutcome =
    | DryRun(filepath: string)
    /** a TypeError thrown synchronously by `split` or `substr` on a non-string */
    | Thrown
    /** the request is sent; the response handler settles the call later */
    | Pending
    /** resolved with what node-fetch makes of the response for this body type */
    | Delivered(bodyType: string, response: Fetch.Response)
    | Saved(filepath: string, headers: Fetch.Headers)
    /** the `.catch` logs the error and resolves with `undefined` */
    | Logged

  /** The options after `options.action` and `options.dest` are set from the
      second argument. */
  function Classified(arg: Fetch.Arg, options: map<string, Value>): map<string, Value> {
    match arg
    case StrArg(s) =>
      if s in BodyTypes then options["action" := Str(s)]["dest" := Str("./")]
      else options["dest" := Str(if s == "" then "./" else s)]
    case ObjArg(fields) => options["dest" := Dict(fields)]
    case NoArg => options["dest" := Str("./")]
  }

  /** `url || options.uri || options.url || options.href` */
  function Source(url: Value, options: map<string, Value>): Value {
    if Truthy(url) then url
    else if Truthy(Get(options, "uri")) then options["uri"]
    else if Truthy(Get(options, "url")) then options["url"]
    else Get(options, "href")
  }

  /** The options object and the outcome of one call, or of its synchronous
      part when the outcome is `Pending`. */
  datatype LegacyRun = LegacyRun(options: map<string, Value>, outcome: LegacyOutcome)

  /** Lines 16-41, up to the request: `dest` and `action` written back, then a
      dry run, a throw, or a request whose response is still to come. */
  function Started(url: Value, arg: Fetch.Arg, options: map<string, Value>): LegacyRun {
    var classified := Classified(arg, options);
    var src := Source(url, classified);
    var dest := Get(classified, "dest");
    if !src.Str? || !dest.Str? then LegacyRun(classified, Thrown)
    else
      var path := JoinDestination(dest.s, FileName(src.s));
      var final := classified["dest" := Str(path)];
      if Truthy(Get(final, "dry")) then LegacyRun(final, DryRun(path))
      else LegacyRun(final, Pending)
  }

  /** Lines 42-76, the response handler: it reads `options.action` and
      `options.dest` from the caller's object as that object is when the
      response arrives. A `dest` that is not a string makes
      `createWriteStream` throw, which the `.catch` logs. */
  function Handled(options: map<string, Value>, reply: Fetch.Reply, writeError: Option<string>): LegacyOutcome {
    match reply
    case NetworkError(_) => Logged
    case Answered(res) =>
      var action := Get(options, "action");
      var dest := Get(options, "dest");
      if action.Str? && action.s in BodyTypes then Delivered(action.s, res)
      else if !dest.Str? || writeError.Some? then Logged
      else Saved(dest.s, res.headers)
  }

  /** One call whose response arrives before anything else touches its
      options object. */
  function Run(url: Value, arg: Fetch.Arg, options: map<string, Value>, reply: Fetch.Reply, writeError: Option<string>): LegacyRun {
    var started := Started(url, arg, options);
    if started.outcome.Pending? then LegacyRun(started.options, Handled(started.options, reply, writeError))
    else started
  }

  /** Lines 16-20: `options.action` and `options.dest` set from the second argument. */
  method Classify(arg: Fetch.Arg, options: JsObject)
    modifies options
    ensures options.entries == Classified(arg, old(options.entries))
  {
    if arg.StrArg? && arg.s in BodyTypes {
      options.Set("action", Str(arg.s));
      options.Set("dest", Str("./"));
    } else {
      var dest := match arg
        case StrArg(s) => Str(if s == "" then "./" else s)
        case ObjArg(fields) => Dict(fields)
        case NoArg => Str("./");
      options.Set("dest", dest);
    }
  }

  /** The synchronous part of `wget(url, action, options)`; `options` is the
      caller's object (a fresh empty one when none is passed). */
  method Start(url: Value, arg: Fetch.Arg, options: JsObject) returns (outcome: LegacyOutcome)
    modifies options
    ensures options.entries == Started(url, arg, old(options.entries)).options
    ensures outcome == Started(url, arg, old(options.entries)).outcome
  {
    Classify(arg, options);
    var src := Source(url, options.entries);
    if !src.Str? {
      return Thrown;
    }
    var file := FileName(src.s);
    var dest := Get(options.entries, "dest");
    if !dest.Str? {
      return Thrown;
    }
    var path := dest.s;
    if EndsWithSlash(path) {
      path := path + file;
    }
    options.Set("dest", Str(path));

    if Truthy(Get(options.entries, "dry")) {
      return DryRun(path);
    }
    return Pending;
  }

  /** The response handler, run when the reply arrives, on the caller's
      object as it is then. */
  method Handle(options: JsObject, reply: Fetch.Reply, writeError: Option<string>, disk: Fetch.Disk)
    returns (outcome: LegacyOutcome)
    modifies disk
    ensures outcome == Handled(options.entries, reply, writeError)
    ensures outcome.Saved? ==>
      reply.Answered? && disk.files == old(disk.files)[outcome.filepath := Fetch.Concat(reply.response.body)]
    ensures !outcome.Saved? ==> disk.files == old(disk.files)
  {
    match reply {
      case NetworkError(_) =>
        outcome := Logged;
      case Answered(res) =>
        var action := Get(options.entries, "action");
        var dest := Get(options.entries, "dest");
        if action.Str? && action.s in BodyTypes {
          outcome := Delivered(action.s, res);
        } else if !dest.Str? || writeError.Some? {
          outcome := Logged;
        } else {
          disk.Save(dest.s, Fetch.Concat(res.body));
          outcome := Saved(dest.s, res.headers);
        }
    }
  }

  /** `wget(url, action, options)` of the older module, with the response
      handled before anything else touches `options`. */
  method Wget(url: Value, arg: Fetch.Arg, options: JsObject, reply: Fetch.Reply, writeError: Option<string>, disk: Fetch.Disk)
    returns (outcome: LegacyOutcome)
    modifies options, disk
    ensures options.entries == Run(url, arg, old(options.entries), reply, writeError).options
    ensures outcome == Run(url, arg, old(options.entries), reply, writeError).outcome
    ensures outcome.Saved? ==>
      reply.Answered? && disk.files == old(disk.files)[outcome.filepath := Fetch.Concat(reply.response.body)]
    ensures !outcome.Saved? ==> disk.files == old(disk.files)
  {
    outcome := Start(url, arg, options);
    if outcome.Pending? {
      outcome := Handle(options, reply, writeError, disk);
    }
  }

  /** The source is the first truthy candidate, or the last candidate when
      none is truthy. */
  lemma SourceIsFirstTruthy(url: Value, options: map<string, Value>)
    ensures var candidates := [url, Get(options, "uri"), Get(options, "url"), Get(options, "href")];
      exists i :: 0 <= i < 4 && Source(url, options) == candidates[i]
        && (Truthy(candidates[i]) || i == 3)
        && forall j :: 0 <= j < i ==> !Truthy(candidates[j])
  {
    var candidates := [url, Get(options, "uri"), Get(options, "url"), Get(options, "href")];
    if Truthy(url) {
      assert Source(url, options) == candidates[0];
    } else if Truthy(candidates[1]) {
      assert Source(url, options) == candidates[1];
    } else if Truthy(candidates[2]) {
      assert Source(url, options) == candidates[2];
    } else {
      assert Source(url, options) == candidates[3];
    }
  }

  /** The caller's object afterwards: `dest` is added, `action` too for a
      body type, and every other property is untouched. */
  lemma OptionsWrittenBack(url: Value, arg: Fetch.Arg, options: map<string, Value>,
                           reply: Fetch.Reply, writeError: Option<string>)
    ensures var after := Run(url, arg, options, reply, writeError).options;
      && after.Keys == options.Keys + {"dest"} + (if arg.StrArg? && arg.s in BodyTypes then {"action"} else {})
      && (forall k :: k in options && k != "dest" && k != "action" ==> after[k] == options[k])
  {
    DestinationJoined(url, arg, options, reply, writeError);
  }

  /** `action` is the body type when one is given and the caller's otherwise;
      `dest` is a string unless the call threw. */
  lemma ActionWrittenBack(url: Value, arg: Fetch.Arg, options: map<string, Value>,
                          reply: Fetch.Reply, writeError: Option<string>)
    ensures var after := Run(url, arg, options, reply, writeError).options;
      && (arg.StrArg? && arg.s in BodyTypes ==> after["action"] == Str(arg.s))
      && (!(arg.StrArg? && arg.s in BodyTypes) ==> Get(after, "action") == Get(options, "action"))
      && (!Run(url, arg, options, reply, writeError).outcome.Thrown? ==> after["dest"].Str?)
  {
    DestinationJoined(url, arg, options, reply, writeError);
  }

  /** A body type sends the file to `./`; otherwise the destination is the
      argument, or `./` when it is empty or missing; a destination ending in
      `/` receives the file name. */
  lemma {:induction false} DestinationWritten(url: Value, arg: Fetch.Arg, options: map<string, Value>,
                                               reply: Fetch.Reply, writeError: Option<string>, src: string)
    requires !arg.ObjArg? && Source(url, Classified(arg, options)) == Str(src)
    ensures var d := if arg.StrArg? && arg.s !in BodyTypes && arg.s != "" then arg.s else "./";
      Get(Run(url, arg, options, reply, writeError).options, "dest") == Str(JoinDestination(d, FileName(src)))
  {
    var d := if arg.StrArg? && arg.s !in BodyTypes && arg.s != "" then arg.s else "./";
    var classified := Classified(arg, options);
    assert Get(classified, "dest") == Str(d);
    DestinationJoined(url, arg, options, reply, writeError);
  }

  /** Once the source and the destination are strings, the destination is
      rewritten to the joined path. */
  lemma DestinationJoined(url: Value, arg: Fetch.Arg, options: map<string, Value>,
                          reply: Fetch.Reply, writeError: Option<string>)
    ensures var classified := Classified(arg, options);
      var src := Source(url, classified);
      var dest := Get(classified, "dest");
      src.Str? && dest.Str? ==>
        Run(url, arg, options, reply, writeError).options
          == classified["dest" := Str(JoinDestination(dest.s, FileName(src.s)))]
  {
  }

  /** An object as second argument becomes `options.dest`, on which `substr`
      throws; so does a source that is not a string. */
  lemma ThrowsOnNonStrings(url: Value, arg: Fetch.Arg, options: map<string, Value>,
                           reply: Fetch.Reply, writeError: Option<string>)
    ensures arg.ObjArg? ==> Run(url, arg, options, reply, writeError).outcome == Thrown
    ensures !Source(url, Classified(arg, options)).Str? ==> Run(url, arg, options, reply, writeError).outcome == Thrown
  {
  }

  /** A dry run settles with the written-back destination, whatever the
      network would have done. */
  lemma DryRunIsPure(url: Value, arg: Fetch.Arg, options: map<string, Value>,
                     reply1: Fetch.Reply, writeError1: Option<string>, reply2: Fetch.Reply, writeError2: Option<string>)
    requires Truthy(Get(options, "dry")) && !Run(url, arg, options, reply1, writeError1).outcome.Thrown?
    ensures var r := Run(url, arg, options, reply1, writeError1);
      && r.outcome == DryRun(r.options["dest"].s)
      && r == Run(url, arg, options, reply2, writeError2)
  {
  }

  /** Without a body type the response is saved, whatever its status: the
      older variant has no status check, and `header` and `object` are not
      body types here. */
  lemma DefaultSavesWithoutStatusCheck(url: Value, arg: Fetch.Arg, options: map<string, Value>, res: Fetch.Response)
    requires var r := Run(url, arg, options, Fetch.Answered(res), None);
      && !r.outcome.Thrown?
      && !Truthy(Get(r.options, "dry"))
      && !(Get(r.options, "action").Str? && Get(r.options, "action").s in BodyTypes)
    ensures var r := Run(url, arg, options, Fetch.Answered(res), None);
      r.outcome == Saved(r.options["dest"].s, res.headers)
  {
  }

  /** For a plain destination string and a string URL, the older variant
      saves to the same path that `fetching` computes. */
  lemma {:induction false} SamePathAsFetching(url: string, dest: string, options: map<string, Value>,
                                               reply: Fetch.Reply, writeError: Option<string>)
    requires url != "" && dest !in Fetch.ResponseTypes
    ensures Run(Str(url), Fetch.StrArg(dest), options, reply, writeError).options["dest"]
      == Str(Fetch.Resolve(url, Fetch.StrArg(dest), options).destination)
  {
    assert dest !in BodyTypes by {
      assert forall t :: t in BodyTypes ==> t in Fetch.ResponseTypes;
    }
  }

  /** A call on an object without a truthy `dry` or a body-type `action`,
      with a string URL and a plain destination, is left pending with `dest`
      joined and `dry` and `action` as they were. */
  lemma {:induction false} StartedPending(url: string, dest: string, options: map<string, Value>)
    requires url != "" && dest !in BodyTypes
    requires !Truthy(Get(options, "dry"))
    ensures var s := Started(Str(url), Fetch.StrArg(dest), options);
      && s.outcome == Pending
      && s.options == options["dest" := Str(JoinDestination(if dest == "" then "./" else dest, FileName(url)))]
  {
    var classified := Classified(Fetch.StrArg(dest), options);
    assert Source(Str(url), classified) == Str(url);
    assert Get(classified, "dest") == Str(if dest == "" then "./" else dest);
  }

  /** A body type as second argument leaves the call pending with `action`
      set to it and the file joined to `./`. */
  lemma {:induction false} StartedBodyType(url: string, bodyType: string, options: map<string, Value>)
    requires url != "" && bodyType in BodyTypes
    requires !Truthy(Get(options, "dry"))
    ensures var s := Started(Str(url), Fetch.StrArg(bodyType), options);
      && s.outcome == Pending
      && s.options == options["action" := Str(bodyType)]["dest" := Str(JoinDestination("./", FileName(url)))]
  {
    var classified := Classified(Fetch.StrArg(bodyType), options);
    assert Source(Str(url), classified) == Str(url);
    assert Get(classified, "dest") == Str("./");
  }

  /** The handler saves to whatever `dest` holds when no body type is set. */
  lemma HandledSaves(options: map<string, Value>, path: string, res: Fetch.Response)
    requires !(Get(options, "action").Str? && Get(options, "action").s in BodyTypes)
    ensures Handled(options["dest" := Str(path)], Fetch.Answered(res), None) == Saved(path, res.headers)
  {
    assert Get(options["dest" := Str(path)], "action") == Get(options, "action");
  }

  /** Two calls that share one options object, both sent before either
      response arrives: the second call rewrites `dest` (and `action` for a
      body type), so the first call's handler saves to the second call's path
      or delivers the second call's body type. Handled on its own, the first
      call would have saved to its own path. */
  lemma {:induction false} SharedOptionsLastCallWins(url1: string, dest1: string, url2: string, arg2: string,
                                                      options: map<string, Value>, res: Fetch.Response)
    requires url1 != "" && url2 != ""
    requires dest1 !in BodyTypes
    requires !Truthy(Get(options, "dry"))
    requires !(Get(options, "action").Str? && Get(options, "action").s in BodyTypes)
    ensures var first := Started(Str(url1), Fetch.StrArg(dest1), options);
      var second := Started(Str(url2), Fetch.StrArg(arg2), first.options);
      && first.outcome == Pending && second.outcome == Pending
      && Handled(first.options, Fetch.Answered(res), None)
           == Saved(JoinDestination(if dest1 == "" then "./" else dest1, FileName(url1)), res.headers)
      && Handled(second.options, Fetch.Answered(res), None)
           == if arg2 in BodyTypes then Delivered(arg2, res)
              else Saved(JoinDestination(if arg2 == "" then "./" else arg2, FileName(url2)), res.headers)
  {
    StartedPending(url1, dest1, options);
    var path1 := JoinDestination(if dest1 == "" then "./" else dest1, FileName(url1));
    var first := options["dest" := Str(path1)];
    HandledSaves(options, path1, res);
    assert Get(first, "dry") == Get(options, "dry");
    assert Get(first, "action") == Get(options, "action");
    if arg2 in BodyTypes {
      StartedBodyType(url2, arg2, first);
    } else {
      StartedPending(url2, arg2, first);
      HandledSaves(first, JoinDestination(if arg2 == "" then "./" else arg2, FileName(url2)), res);
    }
  }
}
