# node-wget-fetch, modelled in Dafny

node-wget-fetch is a small Node.js library that downloads a URL to a
local file or returns the response body in a form the caller picks. This
project models its core and proves properties of the model:

- `fetching(url, action, options)` in `wget-fetch.js`. It derives a file
  name from the URL. It classifies the second argument as a response type,
  a destination or an options object. A truthy `options.action` overrides
  that classification. A destination ending in `/` gets the file name
  appended. A dry run stops there. Otherwise the call rejects any status
  text other than `OK`, dispatches on the action with `===`, or streams the
  body to disk. A download counts the bytes it writes and compares them
  with `content-length`.
- The helpers `fetching.get/head/options` and
  `fetching.post/put/patch/del/delete`. Each writes `method` and `action`
  (and `body`) into the caller's options object, then passes that object to
  `fetching` as its second argument.
- `fetching.wget(url, folderFilename, options)`, which always downloads.
- The older `wget(url, action, options)` in `wget.js`. It writes `dest` and
  `action` back into the caller's object, takes the URL from
  `options.uri`/`url`/`href` when `url` is falsy, knows seven body types,
  never checks the status, and logs and swallows asynchronous errors.
- The command line in `cli.js`. `--help`/`-h` and `--version`/`-v` are
  handled first. The `--destination`/`-d` pair is taken out of the
  arguments, and the first argument that is not a flag is downloaded.

Modules, one per file:

- `Js` (`js.dfy`): the JavaScript runtime the code relies on. It has
  dynamically typed values and their truthiness, and a `JsObject` class for
  options objects updated in place (`o[k] = v`, `delete`, `Object.assign`).
  It also has `split` on one character with `join`, ASCII `toUpperCase`, and
  `indexOf`.
- `Paths` (`paths.dfy`): the file name taken from a URL and the joined
  destination.
- `Fetch` (`fetch.dfy`): `fetching`, the helpers and `fetching.wget`. The
  options object is a `JsObject`, the file system a `Disk` class. Each
  method is proved equal to a specification function (`Resolve`,
  `Transfer`), and the lemmas state what those functions promise.
- `FetchExamples` (`fetch_examples.dfy`): the dry-run paths of the
  library's tests, stated for every input of that shape, and the size-match
  example of the documented design (100 bytes declared, 100 or 90
  received).
- `LegacyWget` (`legacy_wget.dfy`): the older `wget`.
- `Cli` (`cli.dfy`): `firstNonFlag`, the destination
  extraction as written and as corrected, and the top level.

The HTTP client is a parameter. A `Reply` is either a client failure with
its reason or a response with status text, `content-length`, headers and
body chunks. Whether the file can be written is a parameter `writeError`.

Where the library's documented design and its code disagree, the model
follows the code:

- There is no retry scheduler in the code. The `retry` option is passed to
  the HTTP client untouched, so it is just another option here.
- A non-`OK` status rejects at once in `fetching`; the older `wget` does
  not look at the status at all.
- With no `content-length` header, `fileSizeMatch` is false:
  `parseInt(null)` is NaN, and NaN equals no byte count. The documented
  design says it is true.
- The download result field is `fileSizeMatch`. The doc comments at
  `wget-fetch.js:315` and the test at `test/_general.js:71` name it
  `retrievedSizeMatch`.

## Model

| member | source | states |
|---|---|---|
| `Js.JsObject.Set` | wget.js:17-18 | the object afterwards is the old one with that one property replaced |
| `Js.JsObject.Delete` | wget-fetch.js:50 | the object afterwards is the old one without that property |
| `Js.JsObject.Assign` | wget-fetch.js:41 | the object afterwards has the source's properties, which win over its own |
| `Js.Split` | wget-fetch.js:30 | at least one piece; no piece holds the separator; a single piece exactly when the separator does not occur |
| `Js.SplitJoin` | wget-fetch.js:30 | joining the pieces with the separator gives back the string |
| `Js.JoinSplit` | wget-fetch.js:30 | splitting a join of separator-free pieces gives back the pieces |
| `Js.SplitWithout` | wget-fetch.js:33-36 | a string without the separator splits into itself |
| `Js.SplitAround` | wget-fetch.js:30-31 | splitting `a + sep + b` gives the pieces of `a` followed by those of `b` |
| `Js.SplitFirst` | wget-fetch.js:33-36 | the first piece is the prefix up to the first separator, or the whole string |
| `Js.SplitFirstAppend` | wget-fetch.js:33-36 | a separator-free prefix extends the first piece |
| `Js.SplitLast` | wget-fetch.js:30-31 | the last piece is the suffix after the last separator, or the whole string |
| `Js.Upper` | wget-fetch.js:270 | same length, every character upper-cased |
| `Js.IndexOf` | cli.js:67 | -1 exactly when absent; otherwise a position holding the value with no earlier one |
| `Paths.JoinDestination` | wget-fetch.js:53-55 | the destination is a prefix of the path; a destination not ending in `/` is the path |
| `Paths.LastSegmentOfUrl` | wget-fetch.js:30-31 | the last segment is a `/`-free suffix of the URL, preceded by `/` or by nothing |
| `Paths.FileNameIsCleanPrefix` | wget-fetch.js:30-36 | the file name is the longest prefix of the last segment without `?` or `#`, and holds no `/`, `?` or `#` |
| `Paths.FileNameIdempotent` | wget-fetch.js:30-36 | deriving the file name from a file name changes nothing |
| `Paths.JoinedPathEndsWithFile` | wget-fetch.js:53-55 | a folder joined with a file name has that file name as its last segment |
| `Paths.FileNameOfUrl` | wget-fetch.js:30-36 | `dir/name` followed by nothing, a query string or a fragment yields `name` |
| `Fetch.ParseResponseType` | wget-fetch.js:38 | a string is recognised exactly when it is one of the nine response types, as the action of that name |
| `Fetch.ResponseTypeRoundTrip` | wget-fetch.js:65-83 | every response action is recognised from its own name |
| `Fetch.Dispatched` | wget-fetch.js:65-84 | a `switch` case is taken exactly for one of the nine strings, the case of that name; anything else takes `default` |
| `Fetch.DispatchedByName` | wget-fetch.js:65-83 | each action's name selects that action |
| `Fetch.Classify` | wget-fetch.js:29-46 | a response type keeps its action and saves under `./`; an object streams under `./`; anything else downloads to the string or `./` |
| `Fetch.ActionOverride` | wget-fetch.js:40-51 | a truthy `options.action` replaces the inferred action and is deleted; otherwise the options are the merged ones; an object argument's properties win |
| `Fetch.ResolvedDestination` | wget-fetch.js:53-55 | the file name is appended exactly when the destination ends in `/`, and is then the path's last segment |
| `Fetch.DecimalString` | wget-fetch.js:86-88 | the decimal notation of a count is a non-empty digit string |
| `Fetch.DecimalRoundTrip` | wget-fetch.js:86-88 | reading the decimal notation of a count gives the count back |
| `Fetch.ConcatLength` | wget-fetch.js:94-98 | the bytes written number the sum of the chunk lengths |
| `Fetch.Disk.Save` | wget-fetch.js:90-94 | the file at the path holds exactly the piped bytes; no other file changes |
| `Fetch.Receive` | wget-fetch.js:94-98 | the written bytes are the chunks in order, and the counter equals their number |
| `Fetch.SaveBody` | wget-fetch.js:85-111 | a write error rejects with it and writes nothing; otherwise the body is the file and the result reports path, size, match and headers |
| `Fetch.ClassifyArgument` | wget-fetch.js:38-46 | the options become the merged ones and the destination and action are the classified ones |
| `Fetch.Settle` | wget-fetch.js:62-120 | a client failure rejects with its reason, a non-`OK` status with the fixed message; `header` gives the headers, a body type the response, anything else downloads |
| `Fetch.Fetching` | wget-fetch.js:27-122 | the options object ends as resolved, the settled value is `Transfer` of the old options, and only a completed download writes the disk |
| `Fetch.DryRunIsPure` | wget-fetch.js:57-60 | a dry run settles with the computed path, whatever the network does |
| `Fetch.FailedRequestRejects` | wget-fetch.js:114-120 | a client failure rejects with its reason; a status text other than `OK` rejects with `Fetch to <url> failed, with status text: <text>` |
| `Fetch.DownloadReportsBytesWritten` | wget-fetch.js:84-110 | outside the nine response types an `OK` response is saved and reports the bytes written and whether they match the declared length |
| `Fetch.FileSizeMatch` | wget-fetch.js:86-105 | no header never matches; the decimal notation of the byte count matches; a digit string matches exactly its value; any other string matches only an empty body |
| `Fetch.VerbCall` | wget-fetch.js:297-305 | the caller's options gain `action` (default `header`) and the upper-cased `method`, and the call is `fetching` with them as its second argument |
| `Fetch.VerbBodyCall` | wget-fetch.js:269-278 | the caller's options gain `method`, `action` (default `text`) and `body`, and the call is `fetching` with them as its second argument |
| `Fetch.ObjectArgument` | wget-fetch.js:40-51 | an object argument saves under `./` with the URL's file name and streams unless it names a truthy action |
| `Fetch.VerbRequest` | wget-fetch.js:297-305 | the request carries the upper-cased method; no response type returns headers; a truthy one is the action; other options are the caller's |
| `Fetch.VerbBodyRequest` | wget-fetch.js:269-278 | no response type returns text; a truthy one is the action; a falsy one streams; the file would go under `./` |
| `Fetch.VerbBodyOptions` | wget-fetch.js:269-278 | the request carries the upper-cased method and the body; other options are the caller's |
| `Fetch.HelperNames` | wget-fetch.js:356-494 | exactly eight helper names exist; all but `get`, `head` and `options` take a body |
| `Fetch.HelperMethod` | wget-fetch.js:474-494 | each helper sends its own name upper-cased, except `del`, which is `delete` |
| `Fetch.UpperDelete` | wget-fetch.js:474 | `delete` is sent as `DELETE` |
| `Fetch.CallHelper` | wget-fetch.js:269-305 | a helper from the table runs `verbFuncBody` or `verbFunc` as the table's body flag says: the caller's object gains that helper's parameters, and the call is `fetching` with them as second argument |
| `Fetch.HelperRequest` | wget-fetch.js:356-494 | every named helper sends the table's verb upper-cased as the method, the body when it takes one, and saves under `./` |
| `Fetch.HelperDefaultAction` | wget-fetch.js:356-494 | with the response type omitted, `get`, `head` and `options` return the headers and every other helper the text |
| `Fetch.Wget` | wget-fetch.js:317-325 | the call is `fetching` with an object folder merged into the options, `./` as folder, and action `download` |
| `Fetch.WgetAlwaysDownloads` | wget-fetch.js:317-325 | the action is always a download and is removed; the file goes to the folder string (with the file name when it ends in `/`) or to `./` |
| `FetchExamples.DryRunRelativePath` | test/_general.js:29-35 | `fetching('./' + name, {dry: true})` reports `'./' + name` |
| `FetchExamples.DryRunIntoFolder` | test/_general.js:38-44 | a dry run of `dir/name` into a folder reports `folder + name`, whatever query or fragment follows |
| `FetchExamples.DryRunExplicitPath` | wget-fetch.js:53-60 | a dry run into a path not ending in `/` reports that path |
| `FetchExamples.SizeExamples` | wget-fetch.js:86-105 | `content-length: 100` matches 100 bytes received and not 90 |
| `LegacyWget.Classify` | wget.js:16-21 | the options gain `action` and `dest` `./` for a body type, otherwise `dest` set to the argument or `./` |
| `LegacyWget.Start` | wget.js:15-41 | the caller's object ends as `Started` says: `dest` (and `action` for a body type) written back; the call throws, settles a dry run, or is left pending |
| `LegacyWget.Handle` | wget.js:42-76 | the outcome reads `action` and `dest` from the caller's object as it is when the response arrives; only a save writes the disk, and it writes the body to that `dest` |
| `LegacyWget.Wget` | wget.js:15-78 | a call whose response arrives before anything else touches its object: the object ends as `Run` says, the outcome is `Run`'s, and only a saved download writes the disk |
| `LegacyWget.SourceIsFirstTruthy` | wget.js:23 | the URL is the first truthy of `url`, `options.uri`, `options.url`, or else `options.href` |
| `LegacyWget.OptionsWrittenBack` | wget.js:16-32 | the caller's object gains `dest`, and `action` only for a body type; every other property is unchanged |
| `LegacyWget.ActionWrittenBack` | wget.js:16-21 | `action` is the body type when one is given and the caller's otherwise; `dest` is a string unless the call threw |
| `LegacyWget.DestinationWritten` | wget.js:16-32 | `dest` is the argument (or `./` for a body type, an empty or missing one), joined with the file name |
| `LegacyWget.DestinationJoined` | wget.js:30-32 | once source and destination are strings, only `dest` changes, to the joined path |
| `LegacyWget.ThrowsOnNonStrings` | wget.js:20-30 | an object as second argument, or a source that is not a string, throws |
| `LegacyWget.DryRunIsPure` | wget.js:34-39 | a dry run settles with the written-back `dest`, whatever the network does |
| `LegacyWget.DefaultSavesWithoutStatusCheck` | wget.js:42-73 | without a body type the response is saved whatever its status |
| `LegacyWget.SamePathAsFetching` | wget.js:16-32 | for a string URL and a destination that is not a response type, the path equals the one `fetching` computes |
| `LegacyWget.StartedPending` | wget.js:16-41 | a string URL and a plain destination leave the call pending, with only `dest` changed, to the joined path |
| `LegacyWget.StartedBodyType` | wget.js:16-41 | a body type leaves the call pending, with `action` set to it and `dest` the file under `./` |
| `LegacyWget.HandledSaves` | wget.js:58-71 | without a body type the handler saves to whatever `dest` holds then |
| `LegacyWget.SharedOptionsLastCallWins` | wget.js:15-76 | when two calls share one object and both are sent before either response, the first call's handler saves to the second call's path, or delivers the second call's body type, instead of its own path |
| `Cli.FirstNonFlagIndex` | cli.js:94-101 | every argument before the position is a flag, and the one at it is not |
| `Cli.FirstNonFlag` | cli.js:94-101 | `""` when every argument is a flag; otherwise the first argument that is not one |
| `Cli.Splice` | cli.js:72 | removes `count` arguments from `start`, or all those after it when fewer remain: the arguments before `start` keep their places, and the rest move down by the number removed |
| `Cli.FirstFlag` | cli.js:67 | -1 exactly when no argument is a flag; otherwise the first flag's position |
| `Cli.RemovePairsLeavesNoFlag` | cli.js:67-73 | no destination flag remains, and every remaining argument was given |
| `Cli.RemovePairsWithoutFlag` | cli.js:67-73 | without a destination flag nothing is taken out |
| `Cli.RemovePairsKeepsPrefix` | cli.js:67-73 | arguments before the first flag pass through in order |
| `Cli.RemovePairsSingleFlag` | cli.js:67-73 | with a single flag, the destination is the argument after it, and just the pair is removed |
| `Cli.AsWrittenSingleFlag` | cli.js:67-73 | as written, a single flag yields the argument after it and removes the pair |
| `Cli.AsWrittenAgreesWithCorrected` | cli.js:67-73 | with at most one destination flag the code as written and the corrected extraction agree |
| `Cli.BothFlagsPickWrongValue` | cli.js:67-74 | as written, `-d out --destination dir url` takes `url` as destination and downloads `out` |
| `Cli.BothFlagsCorrected` | cli.js:67-74 | corrected, the same line takes `out` as destination and downloads `url` |
| `Cli.Run` | cli.js:56-92 | help wins, then version; an empty line shows help; otherwise the first non-flag argument left is downloaded to the extracted destination, or help shows when there is none |
| `Cli.CommandLineDownload` | cli.js:77 | the download is always a download with only the retry setting as options, saved under the destination or `./` |

## Left out

- Retry and backoff: the code has none; `retry` is an opaque option handed to the HTTP client.
- The HTTP client and node-fetch's body materialisers (`arrayBuffer()`, `json()`, `text()` and so on) are not modelled. A body type settles as `Delivered` with the response, and a JSON parse failure is not modelled.
- Streams and events: a write error is modelled as failing before anything is written. Partial files, `finish`/`error` ordering and `writer.end()` are not modelled.
- The type predicates `isArray` … `isStream` (wget-fetch.js:132-250) and the re-export of node-fetch are not part of this model.
- A number or a boolean as second argument is not modelled separately. A falsy one (`0`, `false`) becomes `'./'` through `action || './'` (wget-fetch.js:29, wget.js:20) and behaves as an omitted argument (`NoArg`). A truthy one makes `substr` throw, which is not modelled.
- `Fetch.DeclaredSize`: the model covers only an absent header, the empty string, decimal digit strings and other strings (read as 0). JavaScript's numeric coercion of `-5`, ` 12`, `1e3` or `0x1A` is not modelled, and these strings are all read as 0.
- `Js.Upper`: upper-cases ASCII letters only, which is all the helper verbs use.
- Numbers are unbounded integers; JavaScript's floating point is not modelled.
- Console output, the help and version texts, and `package.json` are not modelled. The CLI's completion message reads only `filepath` and `fileSizeMatch`.
- `bodyUsed` in the older `wget`'s result is not modelled.
- `LegacyWget.Wget`: a rejected request is logged and resolves to `undefined` (`Logged`); the logged text is not modelled.
- `LegacyWget.Wget`: runs the response handler right after the synchronous part. Calls that share one object and interleave are modelled by calling `LegacyWget.Start` and `LegacyWget.Handle` separately (`LegacyWget.SharedOptionsLastCallWins`). The order in which responses arrive is not modelled.
- `LegacyWget.Handle`: reads `options.dest` once. The code reads it again when the write finishes (wget.js:65); a change made between the open and the finish is not modelled.
- `Cli.Run`: uses the corrected destination extraction (see Findings). It agrees with the code as written whenever at most one destination flag is given (`Cli.AsWrittenAgreesWithCorrected`).

## Findings

| source | as written | input that shows it | evidently intended | confidence | as-written member | corrected member |
|---|---|---|---|---|---|---|
| cli.js:67-74 | the destination index is `indexOf('--destination') + indexOf('-d') + 2`, which is one past the flag only when exactly one spelling occurs | `-d out --destination dir url`: the index is 4, so `url` becomes the destination, `dir` and `url` are spliced away, and `out` is downloaded | the argument after the first destination flag is the destination, every flag/value pair is removed, and `url` is downloaded | not executed | `Cli.BothFlagsPickWrongValue` | `Cli.BothFlagsCorrected` |
