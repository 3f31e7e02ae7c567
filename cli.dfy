/**
  The command-line front end: `--help`/`-h` and `--version`/`-v` win, an
  empty command line shows the help, otherwise a `--destination`/`-d` pair is
  taken out of the arguments and the first argument that is not a flag is
  downloaded with `fetching.wget`, whose options carry `retry: {retries: 5}`
  for the HTTP client.
 */
module Cli {
  import opened Js
  import opened Paths
  import Fetch

  /** `arg.charAt(0) == '-'`; the empty argument is not a flag. */
  predicate IsFlag(arg: string) {
    |arg| > 0 && arg[0] == '-'
  }

  /** Position of the first argument that is not a flag, or `|args|`. */
  function FirstNonFlagIndex(args: seq<string>): (k: nat)
    ensures k <= |args|
    ensures forall j :: 0 <= j < k ==> IsFlag(args[j])
    ensures k < |args| ==> !IsFlag(args[k])
  {
    if args == [] || !IsFlag(args[0]) then 0
    else
      assert forall j :: 1 <= j < |args| ==> args[j] == args[1..][j - 1];
      FirstNonFlagIndex(args[1..]) + 1
  }

  /** The first argument that is not a flag, or `""` when every one is. */
  function FirstNonFlagOf(args: seq<string>): string {
    var k := FirstNonFlagIndex(args);
    if k == |args| then "" else args[k]
  }

  /** `firstNonFlag(args)`: scans left to right and returns at the first
      argument that does not start with `-`. */
  method FirstNonFlag(args: seq<string>) returns (r: string)
    ensures (forall i :: 0 <= i < |args| ==> IsFlag(args[i])) ==> r == ""
    ensures (exists i :: 0 <= i < |args| && !IsFlag(args[i])) ==>
      exists i :: 0 <= i < |args| && r == args[i] && !IsFlag(args[i])
        && forall j :: 0 <= j < i ==> IsFlag(args[j])
    ensures r == FirstNonFlagOf(args)
  {
    for i := 0 to |args|
      invariant forall j :: 0 <= j < i ==> IsFlag(args[j])
    {
      if !IsFlag(args[i]) {
        return args[i];
      }
    }
    return "";
  }

  /** `argv[i]`: out of range reads as `undefined`. */
  function At(argv: seq<string>, i: int): (v: Option<string>)
    ensures v.Some? <==> 0 <= i < |argv|
    ensures v.Some? ==> v.value == argv[i]
  {
    if 0 <= i < |argv| then Some(argv[i]) else None
  }

  /** `argv.splice(start, count)` for a start that is not negative: removes
      up to `count` arguments from `start` on. */
  function Splice(argv: seq<string>, start: nat, count: nat): (rest: seq<string>)
    ensures var a := if start < |argv| then start else |argv|;
      var removed := if count < |argv| - a then count else |argv| - a;
      && |rest| == |argv| - removed
      && (forall k :: 0 <= k < a ==> rest[k] == argv[k])
      && (forall k :: a <= k < |rest| ==> rest[k] == argv[k + removed])
  {
    var a := if start < |argv| then start else |argv|;
    var b := if a + count < |argv| then a + count else |argv|;
    argv[..a] + argv[b..]
  }

  /** `Splice` as two slices of the arguments. */
  lemma SpliceSlices(argv: seq<string>, start: nat, count: nat)
    ensures var a := if start < |argv| then start else |argv|;
      var b := if a + count < |argv| then a + count else |argv|;
      Splice(argv, start, count) == argv[..a] + argv[b..]
  {
  }

  /** The two spellings of the destination option. */
  const DestinationFlags: set<string> := {"--destination", "-d"}

  predicate IsDestinationFlag(arg: string) {
    arg in DestinationFlags
  }

  /** The destination taken from the command line and the arguments left. */
  datatype Extraction = Extraction(dest: Option<string>, rest: seq<string>)

  /** What cli.js computes at lines 67-73: the index is the sum of both `indexOf`
      results plus 2, which is one past the flag when exactly one of the two
      flags occurs. */
  function ExtractAsWritten(argv: seq<string>): Extraction {
    var destinationIndex := IndexOf(argv, "--destination") + IndexOf(argv, "-d") + 2;
    if destinationIndex != 0 then
      Extraction(At(argv, destinationIndex), Splice(argv, destinationIndex - 1, 2))
    else
      Extraction(None, argv)
  }

  /** Position of the first argument among `flags`, or -1. */
  function FirstFlag(argv: seq<string>, flags: set<string>): (r: int)
    ensures r == -1 <==> forall i :: 0 <= i < |argv| ==> argv[i] !in flags
    ensures r != -1 ==>
      && 0 <= r < |argv| && argv[r] in flags
      && forall i :: 0 <= i < r ==> argv[i] !in flags
  {
    if argv == [] then -1
    else if argv[0] in flags then 0
    else
      var k := FirstFlag(argv[1..], flags);
      assert forall i :: 1 <= i < |argv| ==> argv[i] == argv[1..][i - 1];
      if k == -1 then -1 else k + 1
  }

  /** Every argument among `flags` is removed together with the argument
      that follows it; the destination is the argument after the first one. */
  function RemovePairs(argv: seq<string>, flags: set<string>): Extraction {
    if argv == [] then Extraction(None, [])
    else if argv[0] in flags then
      if |argv| == 1 then Extraction(None, [])
      else Extraction(Some(argv[1]), RemovePairs(argv[2..], flags).rest)
    else
      var e := RemovePairs(argv[1..], flags);
      Extraction(e.dest, [argv[0]] + e.rest)
  }

  /** The extraction as intended: the argument after the first destination
      flag is the destination, and every destination flag is removed together
      with the argument that follows it. */
  function ExtractCorrected(argv: seq<string>): Extraction {
    RemovePairs(argv, DestinationFlags)
  }

  /** No flag is left among the remaining arguments, and each of them is one
      of the original arguments. */
  lemma {:induction false} RemovePairsLeavesNoFlag(argv: seq<string>, flags: set<string>)
    ensures var rest := RemovePairs(argv, flags).rest;
      && |rest| <= |argv|
      && forall k :: 0 <= k < |rest| ==> rest[k] !in flags && rest[k] in argv
  {
    if argv != [] {
      if argv[0] in flags {
        if |argv| > 1 {
          RemovePairsLeavesNoFlag(argv[2..], flags);
          assert forall x :: x in argv[2..] ==> x in argv;
        }
      } else {
        RemovePairsLeavesNoFlag(argv[1..], flags);
        assert forall x :: x in argv[1..] ==> x in argv;
      }
    }
  }

  /** Without a flag nothing is taken out. */
  lemma {:induction false} RemovePairsWithoutFlag(argv: seq<string>, flags: set<string>)
    requires forall i :: 0 <= i < |argv| ==> argv[i] !in flags
    ensures RemovePairs(argv, flags) == Extraction(None, argv)
  {
    if argv != [] {
      assert forall i :: 0 <= i < |argv[1..]| ==> argv[1..][i] == argv[i + 1];
      RemovePairsWithoutFlag(argv[1..], flags);
      assert [argv[0]] + argv[1..] == argv;
    }
  }

  /** Arguments before the first flag pass through in order: the extraction
      of the whole is that of the part from the first flag on, with the
      prefix put back in front. */
  lemma {:induction false} RemovePairsKeepsPrefix(argv: seq<string>, i: nat, flags: set<string>)
    requires i <= |argv|
    requires forall j :: 0 <= j < i ==> argv[j] !in flags
    ensures RemovePairs(argv, flags)
      == Extraction(RemovePairs(argv[i..], flags).dest, argv[..i] + RemovePairs(argv[i..], flags).rest)
  {
    if i == 0 {
      assert argv[0..] == argv;
      assert argv[..0] + RemovePairs(argv, flags).rest == RemovePairs(argv, flags).rest;
    } else {
      var tail := argv[1..];
      forall j | 0 <= j < i - 1 ensures tail[j] !in flags {
        assert tail[j] == argv[j + 1];
      }
      RemovePairsKeepsPrefix(tail, i - 1, flags);
      assert tail[i - 1..] == argv[i..];
      var x := RemovePairs(argv[i..], flags).rest;
      assert argv[0] !in flags;
      assert RemovePairs(argv, flags).rest == [argv[0]] + (tail[..i - 1] + x);
      assert argv[..i] == [argv[0]] + tail[..i - 1];
    }
  }

  /** At most one argument is among `flags`. */
  predicate AtMostOneFlag(argv: seq<string>, flags: set<string>) {
    forall i, j :: 0 <= i < j < |argv| && argv[i] in flags ==> argv[j] !in flags
  }

  /** With a single flag, the destination is the argument right after it,
      and the flag and that argument are removed and nothing else. */
  lemma RemovePairsSingleFlag(argv: seq<string>, flags: set<string>)
    requires AtMostOneFlag(argv, flags) && FirstFlag(argv, flags) != -1
    ensures var i := FirstFlag(argv, flags);
      var after := if i + 2 < |argv| then i + 2 else |argv|;
      RemovePairs(argv, flags) == Extraction(At(argv, i + 1), argv[..i] + argv[after..])
  {
    var i := FirstFlag(argv, flags);
    var after := if i + 2 < |argv| then i + 2 else |argv|;
    RemovePairsKeepsPrefix(argv, i, flags);
    var suffix := argv[i..];
    var later := argv[after..];
    forall k | 0 <= k < |later| ensures later[k] !in flags {
      assert later[k] == argv[after + k];
    }
    RemovePairsWithoutFlag(later, flags);
    if i + 1 < |argv| {
      assert suffix[2..] == later;
    } else {
      assert later == [];
    }
  }

  /** The code as written with a single flag: the value after it, and the
      pair removed. */
  lemma AsWrittenSingleFlag(argv: seq<string>, i: nat, other: string)
    requires i < |argv| && IsDestinationFlag(argv[i]) && IsDestinationFlag(other) && other != argv[i]
    requires other !in argv && argv[i] !in argv[..i]
    ensures var after := if i + 2 < |argv| then i + 2 else |argv|;
      ExtractAsWritten(argv) == Extraction(At(argv, i + 1), argv[..i] + argv[after..])
  {
    assert IndexOf(argv, argv[i]) == i;
    assert IndexOf(argv, other) == -1;
    SpliceSlices(argv, i, 2);
  }

  /** With at most one destination flag on the command line, the code as
      written takes the same destination and leaves the same arguments. */
  lemma AsWrittenAgreesWithCorrected(argv: seq<string>)
    requires AtMostOneFlag(argv, DestinationFlags)
    ensures ExtractAsWritten(argv) == ExtractCorrected(argv)
  {
    var i := FirstFlag(argv, DestinationFlags);
    if i == -1 {
      RemovePairsWithoutFlag(argv, DestinationFlags);
      assert "--destination" !in argv && "-d" !in argv;
    } else {
      RemovePairsSingleFlag(argv, DestinationFlags);
      var other := if argv[i] == "--destination" then "-d" else "--destination";
      forall j | 0 <= j < |argv| ensures argv[j] != other {
        if j > i {
          assert argv[j] !in DestinationFlags;
        }
      }
      AsWrittenSingleFlag(argv, i, other);
    }
  }

  /** With both spellings present the sum of the two positions points past
      both values: in `-d out --destination dir url` the URL is taken as the
      destination and `out` is left behind to be downloaded. */
  lemma BothFlagsPickWrongValue(argv: seq<string>, out: string, dir: string, url: string)
    requires !IsFlag(out) && !IsFlag(dir) && !IsFlag(url)
    requires argv == ["-d", out, "--destination", dir, url]
    ensures ExtractAsWritten(argv) == Extraction(Some(url), ["-d", out, "--destination"])
    ensures FirstNonFlagOf(ExtractAsWritten(argv).rest) == out
  {
    assert IndexOf(argv, "-d") == 0;
    assert argv[0] != "--destination" && argv[1] != "--destination";
    assert IndexOf(argv, "--destination") == 2 by {
      assert argv[..2] == ["-d", out];
    }
    SpliceSlices(argv, 3, 2);
    assert argv[..3] + argv[5..] == argv[..3];
    var rest := ["-d", out, "--destination"];
    assert FirstNonFlagIndex(rest) == 1 by {
      assert rest[1..] == [out, "--destination"];
    }
  }

  /** On the same command line the corrected extraction takes `out` as the
      destination, removes both pairs and downloads `url`. */
  lemma BothFlagsCorrected(argv: seq<string>, out: string, dir: string, url: string)
    requires !IsFlag(out) && !IsFlag(dir) && !IsFlag(url)
    requires argv == ["-d", out, "--destination", dir, url]
    ensures ExtractCorrected(argv) == Extraction(Some(out), [url])
    ensures FirstNonFlagOf(ExtractCorrected(argv).rest) == url
  {
    var rest := ["--destination", dir, url];
    assert argv[2..] == rest;
    assert rest[2..] == [url];
    assert url !in DestinationFlags by {
      assert IsFlag("--destination") && IsFlag("-d");
    }
    RemovePairsWithoutFlag([url], DestinationFlags);
    assert RemovePairs(rest, DestinationFlags).rest == [url];
  }

  /** What the program does with its arguments. */
  datatype Plan = ShowHelp | ShowVersion | StartDownload(url: string, dest: Option<string>)

  predicate HelpAsked(argv: seq<string>) {
    "--help" in argv || "-h" in argv
  }

  predicate VersionAsked(argv: seq<string>) {
    "--version" in argv || "-v" in argv
  }

  /** The top level of cli.js (lines 56-92), with the destination taken out
      as intended. */
  method Run(argv: seq<string>) returns (plan: Plan)
    ensures HelpAsked(argv) ==> plan == ShowHelp
    ensures !HelpAsked(argv) && VersionAsked(argv) ==> plan == ShowVersion
    ensures argv == [] ==> plan == ShowHelp
    ensures plan.StartDownload? <==>
      !HelpAsked(argv) && !VersionAsked(argv) && FirstNonFlagOf(ExtractCorrected(argv).rest) != ""
    ensures plan.StartDownload? ==>
      && plan.url == FirstNonFlagOf(ExtractCorrected(argv).rest)
      && !IsFlag(plan.url)
      && plan.dest == ExtractCorrected(argv).dest
    ensures !plan.StartDownload? && !(!HelpAsked(argv) && VersionAsked(argv)) ==> plan == ShowHelp
  {
    if IndexOf(argv, "--help") != -1 || IndexOf(argv, "-h") != -1 {
      return ShowHelp;
    }
    if IndexOf(argv, "--version") != -1 || IndexOf(argv, "-v") != -1 {
      return ShowVersion;
    }
    if |argv| == 0 {
      return ShowHelp;
    }
    var args := ExtractCorrected(argv);
    var url := FirstNonFlag(args.rest);
    if |url| > 0 {
      plan := StartDownload(url, args.dest);
    } else {
      plan := ShowHelp;
    }
  }

  /** `{ retry: { retries: 5 } }` */
  const CliOptions: map<string, Value> := map["retry" := Dict(map["retries" := Num(5)])]

  /** `args.dest` as the folder argument of `wget`: `undefined` when no value
      followed the flag. */
  function DestinationArg(dest: Option<string>): Fetch.Arg {
    match dest
    case None => Fetch.NoArg
    case Some(d) => Fetch.StrArg(d)
  }

  /** The download the command line starts: always a download, with only the
      retry setting as options, saved under the given destination (a folder
      ending in `/` receives the URL's file name) or in `./`. */
  lemma {:induction false} CommandLineDownload(url: string, dest: Option<string>)
    ensures var folder := DestinationArg(dest);
      var r := Fetch.Resolve(url, Fetch.WgetFolder(folder), Fetch.WgetParams(CliOptions, folder));
      && Fetch.Dispatched(r.action) == Fetch.Download
      && r.options == CliOptions
      && r.destination == JoinDestination(
           if dest.Some? && dest.value != "" && dest.value !in Fetch.ResponseTypes then dest.value else "./",
           FileName(url))
  {
    var folder := DestinationArg(dest);
    Fetch.WgetAlwaysDownloads(url, folder, CliOptions);
    var m := Fetch.WgetParams(CliOptions, folder);
    assert m == CliOptions["action" := Str("download")];
    assert m - {"action"} == CliOptions;
  }
}
