/**
  Local file paths derived from a download URL. Both `fetching` and the older
  `wget` name the saved file after the URL's last `/` segment, cut before the
  first `?` and then before the first `#`, and append that name to a
  destination that ends in `/`.
 */
module Paths {
  import opened Js

  /** `parts = src.split('/'); parts[parts.length - 1]` */
  function LastSegment(url: string): string {
    var parts := Split(url, '/');
    parts[|parts| - 1]
  }

  /** The last segment with its query string and then its fragment removed. */
  function FileName(url: string): string {
    var withoutQuery := Split(LastSegment(url), '?')[0];
    Split(withoutQuery, '#')[0]
  }

  /** `d.substr(d.length - 1, 1) == '/'` */
  predicate EndsWithSlash(d: string) {
    |d| > 0 && d[|d| - 1] == '/'
  }

  /** A folder (ending in `/`) receives the file name; a file path is kept. */
  function JoinDestination(destination: string, file: string): (path: string)
    ensures destination <= path
    ensures !EndsWithSlash(destination) ==> path == destination
  {
    if EndsWithSlash(destination) then destination + file else destination
  }

  /** The last segment is a suffix of the URL without a `/`, and what precedes
      it in the URL is either nothing or a `/`. */
  lemma LastSegmentOfUrl(url: string)
    ensures var seg := LastSegment(url);
      && |seg| <= |url|
      && seg == url[|url| - |seg|..]
      && '/' !in seg
      && (seg == url || url[|url| - |seg| - 1] == '/')
  {
    SplitLast(url, '/');
  }

  /** The derived file name is the longest prefix of the last segment that
      holds neither `?` nor `#`. */
  lemma {:induction false} FileNameIsCleanPrefix(url: string)
    ensures var seg := LastSegment(url);
      var file := FileName(url);
      && |file| <= |seg| && file == seg[..|file|]
      && '/' !in file && '?' !in file && '#' !in file
      && (file == seg || seg[|file|] == '?' || seg[|file|] == '#')
  {
    var seg := LastSegment(url);
    var withoutQuery := Split(seg, '?')[0];
    var file := FileName(url);
    LastSegmentOfUrl(url);
    SplitFirst(seg, '?');
    SplitFirst(withoutQuery, '#');
    assert file == withoutQuery[..|file|];
    assert file == seg[..|file|];
    assert forall c :: c in file ==> c in withoutQuery;
    assert forall c :: c in withoutQuery ==> c in seg;
  }

  /** A file name contains no separator, so deriving it again changes nothing. */
  lemma FileNameIdempotent(url: string)
    ensures FileName(FileName(url)) == FileName(url)
  {
    var file := FileName(url);
    FileNameIsCleanPrefix(url);
    SplitWithout(file, '/');
    SplitWithout(file, '?');
    SplitWithout(file, '#');
  }

  /** When a folder receives the file name, the last segment of the joined
      path is exactly that file name. */
  lemma {:induction false} JoinedPathEndsWithFile(folder: string, url: string)
    requires EndsWithSlash(folder)
    ensures LastSegment(JoinDestination(folder, FileName(url))) == FileName(url)
  {
    var file := FileName(url);
    var dir := folder[..|folder| - 1];
    FileNameIsCleanPrefix(url);
    assert folder == dir + ['/'];
    assert JoinDestination(folder, file) == dir + ['/'] + file;
    SplitAround(dir, file, '/');
    SplitWithout(file, '/');
  }

  /** A URL of the form `dir/name` followed by nothing, by a query string or
      by a fragment yields `name` as its file name. */
  lemma FileNameOfUrl(dir: string, name: string, suffix: string)
    requires '/' !in name && '?' !in name && '#' !in name
    requires '/' !in suffix
    requires suffix == [] || suffix[0] == '?' || suffix[0] == '#'
    ensures FileName(dir + "/" + name + suffix) == name
  {
    var url := dir + "/" + name + suffix;
    assert url == dir + ['/'] + (name + suffix);
    SplitAround(dir, name + suffix, '/');
    SplitWithout(name + suffix, '/');
    assert LastSegment(url) == name + suffix;
    SplitFirstAppend(name, suffix, '?');
    var s1 := Split(suffix, '?')[0];
    SplitFirst(suffix, '?');
    assert s1 == [] || s1[0] == '#';
    SplitFirstAppend(name, s1, '#');
    if s1 != [] {
      assert s1 == [s1[0]] + s1[1..];
    }
    assert Split(s1, '#')[0] == [];
  }
}
