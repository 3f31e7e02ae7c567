/**
  The dry-run paths `fetching` reports for the shapes of URL and destination
  its tests use, and the size check on a declared length.
 */
module FetchExamples {
  import opened Js
  import opened Paths
  import opened Fetch

  /** A file name as the tests use it: no `/`, `?` or `#`. */
  predicate PlainName(name: string) {
    '/' !in name && '?' !in name && '#' !in name
  }

  /** `fetching('./' + name, {dry: true})` reports `'./' + name`: the object
      argument sends the file to `./` under the URL's own name. */
  lemma {:induction false} DryRunRelativePath(name: string, reply: Reply, writeError: Option<string>)
    requires PlainName(name)
    ensures Transfer("./" + name, ObjArg(map["dry" := Bool(true)]), map[], reply, writeError)
      == DryRun("./" + name)
  {
    assert "./" + name == "." + "/" + name + "";
    FileNameOfUrl(".", name, "");
  }

  /** `fetching(srcPath + name + suffix, folder, {dry: true})` with a folder
      ending in `/` reports `folder + name`, whatever query string or fragment
      follows the name. */
  lemma {:induction false} DryRunIntoFolder(srcPath: string, name: string, suffix: string, folder: string,
                                             options: map<string, Value>, reply: Reply, writeError: Option<string>)
    requires EndsWithSlash(srcPath) && EndsWithSlash(folder)
    requires PlainName(name)
    requires '/' !in suffix && (suffix == [] || suffix[0] == '?' || suffix[0] == '#')
    requires Truthy(Get(options, "dry")) && !Truthy(Get(options, "action"))
    ensures Transfer(srcPath + name + suffix, StrArg(folder), options, reply, writeError)
      == DryRun(folder + name)
  {
    var dir := srcPath[..|srcPath| - 1];
    assert srcPath + name + suffix == dir + "/" + name + suffix by {
      assert srcPath == dir + "/";
    }
    FileNameOfUrl(dir, name, suffix);
    assert folder !in ResponseTypes by {
      assert forall t :: t in ResponseTypes ==> !EndsWithSlash(t);
    }
  }

  /** A destination that does not end in `/` is the reported path, verbatim. */
  lemma DryRunExplicitPath(url: string, path: string, options: map<string, Value>,
                           reply: Reply, writeError: Option<string>)
    requires path != "" && !EndsWithSlash(path) && path !in ResponseTypes
    requires Truthy(Get(options, "dry")) && !Truthy(Get(options, "action"))
    ensures Transfer(url, StrArg(path), options, reply, writeError) == DryRun(path)
  {
  }

  /** The size examples: 100 declared, 100 or 90 received. */
  lemma SizeExamples(body100: seq<seq<byte>>, body90: seq<seq<byte>>)
    requires |Concat(body100)| == 100 && |Concat(body90)| == 90
    ensures DownloadOutcome("f", Response("OK", Some("100"), map[], body100), None).info.fileSizeMatch
    ensures !DownloadOutcome("f", Response("OK", Some("100"), map[], body90), None).info.fileSizeMatch
  {
    ConcatLength(body100);
    ConcatLength(body90);
    assert DecimalValue("100") == 100 by {
      assert "100"[..2] == "10" && "10"[..1] == "1" && "1"[..0] == "";
    }
  }
}
