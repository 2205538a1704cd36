/**
 * Path helpers of `util::File` (log/logs/util.hpp): the directory part of a
 * file name, and the walk that creates every missing parent directory.
 * The file system is abstracted: `exists` is membership in a fixed set of
 * existing directories, and the `mkdir` calls are returned in order.
 */
module Util {
  import opened Wrappers

  /** The separators `find_first_of("/\\")` and `find_last_of("/\\")` look for. */
  predicate IsSep(c: char) {
    c == '/' || c == '\\'
  }

  predicate NoSep(s: string, from: nat, to: nat)
    requires from <= to <= |s|
  {
    forall k :: from <= k < to ==> !IsSep(s[k])
  }

  /** `s.find_last_of("/\\")`, with None for `npos`. */
  function FindLastSep(s: string): (r: Option<nat>)
    ensures r.Some? ==> r.value < |s| && IsSep(s[r.value]) && NoSep(s, r.value + 1, |s|)
    ensures r.None? ==> NoSep(s, 0, |s|)
  {
    if s == [] then None
    else if IsSep(s[|s| - 1]) then Some(|s| - 1)
    else FindLastSep(s[..|s| - 1])
  }

  /** `s.find_first_of("/\\", from)`, with None for `npos`. */
  function FindFirstSep(s: string, from: nat): (r: Option<nat>)
    requires from <= |s|
    ensures r.Some? ==> from <= r.value < |s| && IsSep(s[r.value]) && NoSep(s, from, r.value)
    ensures r.None? ==> NoSep(s, from, |s|)
    decreases |s| - from
  {
    if from == |s| then None
    else if IsSep(s[from]) then Some(from)
    else FindFirstSep(s, from + 1)
  }

  /** `File::path`: the directory prefix of `name`, or "." when there is none. */
  function Path(name: string): string
  {
    if name == [] then "."
    else match FindLastSep(name)
      case None => "."
      case Some(pos) => name[..pos + 1]
  }

  /**
   * "." for an empty name or one without separators; otherwise the prefix up
   * to and including the last separator, so nothing after it is a separator.
   */
  lemma PathShape(name: string)
    ensures name == [] ==> Path(name) == "."
    ensures NoSep(name, 0, |name|) ==> Path(name) == "."
    ensures !NoSep(name, 0, |name|) ==>
      var r := Path(name);
      0 < |r| <= |name| && r == name[..|r|] && IsSep(r[|r| - 1]) && NoSep(name, |r|, |name|)
  {
  }

  /** Taking the directory part twice changes nothing. */
  lemma PathIdempotent(name: string)
    ensures Path(Path(name)) == Path(name)
  {
    var r := Path(name);
    PathShape(name);
    if NoSep(name, 0, |name|) {
      assert FindLastSep(".") == None;
    } else {
      assert FindLastSep(r) == Some(|r| - 1);
      assert r[..|r|] == r;
    }
  }

  /** The prefixes `path[..i+1]` for every separator position `i < n`, left to right. */
  function SeparatorPrefixes(path: string, n: nat): seq<string>
    requires n <= |path|
  {
    if n == 0 then []
    else SeparatorPrefixes(path, n - 1) + (if IsSep(path[n - 1]) then [path[..n]] else [])
  }

  /** The directories of `dirs` that are not in `existing`, in their order. */
  function Missing(dirs: seq<string>, existing: set<string>): seq<string>
  {
    if dirs == [] then []
    else Missing(dirs[..|dirs| - 1], existing)
         + (if dirs[|dirs| - 1] in existing then [] else [dirs[|dirs| - 1]])
  }

  /**
   * The `mkdir` calls `create_directory(path)` makes: each missing
   * separator-terminated prefix, then the whole path when a separator-free
   * tail remains.
   */
  function MkdirCalls(path: string, existing: set<string>): seq<string>
  {
    Missing(SeparatorPrefixes(path, |path|), existing)
    + (if |path| > 0 && !IsSep(path[|path| - 1]) then [path] else [])
  }

  predicate StrictlyLonger(dirs: seq<string>)
  {
    forall a, b :: 0 <= a < b < |dirs| ==> |dirs[a]| < |dirs[b]|
  }

  /** A separator-terminated, non-empty prefix of `path`. */
  predicate IsParentPrefix(d: string, path: string)
  {
    0 < |d| <= |path| && d == path[..|d|] && IsSep(d[|d| - 1])
  }

  lemma {:induction false} SeparatorPrefixesShape(path: string, n: nat)
    requires n <= |path|
    ensures forall d :: d in SeparatorPrefixes(path, n) ==> IsParentPrefix(d, path) && |d| <= n
    ensures StrictlyLonger(SeparatorPrefixes(path, n))
  {
    if n > 0 {
      SeparatorPrefixesShape(path, n - 1);
    }
  }

  lemma {:induction false} MissingShape(dirs: seq<string>, existing: set<string>)
    requires StrictlyLonger(dirs)
    ensures forall d :: d in Missing(dirs, existing) ==> d in dirs && d !in existing
    ensures StrictlyLonger(Missing(dirs, existing))
  {
    if dirs != [] {
      var init := dirs[..|dirs| - 1];
      MissingShape(init, existing);
      forall d | d in Missing(init, existing)
        ensures |d| < |dirs[|dirs| - 1]|
      {
        var k :| 0 <= k < |init| && init[k] == d;
      }
    }
  }

  /** Separator-free stretches add no prefixes. */
  lemma {:induction false} SeparatorPrefixesSkip(path: string, i: nat, j: nat)
    requires i <= j <= |path| && NoSep(path, i, j)
    ensures SeparatorPrefixes(path, j) == SeparatorPrefixes(path, i)
    decreases j
  {
    if j > i {
      SeparatorPrefixesSkip(path, i, j - 1);
    }
  }

  /**
   * Every directory created is a separator-terminated prefix of `path` that
   * did not exist, except the whole path itself, which is created last and
   * only when it does not end with a separator; the calls go shortest first.
   */
  lemma MkdirCallsShape(path: string, existing: set<string>)
    ensures StrictlyLonger(MkdirCalls(path, existing))
    ensures forall d :: d in MkdirCalls(path, existing) && d != path ==>
      IsParentPrefix(d, path) && d !in existing
    ensures |path| > 0 && !IsSep(path[|path| - 1]) ==>
      |MkdirCalls(path, existing)| > 0 && MkdirCalls(path, existing)[|MkdirCalls(path, existing)| - 1] == path
    ensures |path| == 0 || IsSep(path[|path| - 1]) ==>
      forall d :: d in MkdirCalls(path, existing) ==> IsParentPrefix(d, path) && d !in existing
  {
    var prefixes := SeparatorPrefixes(path, |path|);
    SeparatorPrefixesShape(path, |path|);
    MissingShape(prefixes, existing);
    var m := Missing(prefixes, existing);
    if |path| > 0 && !IsSep(path[|path| - 1]) {
      forall d | d in m ensures |d| < |path| {
        assert IsParentPrefix(d, path);
      }
    }
  }

  /** Every separator position below `n` contributes its prefix. */
  lemma {:induction false} SeparatorPrefixesHas(path: string, n: nat, d: string)
    requires n <= |path| && IsParentPrefix(d, path) && |d| <= n
    ensures d in SeparatorPrefixes(path, n)
    decreases n
  {
    if |d| < n {
      SeparatorPrefixesHas(path, n - 1, d);
    } else {
      assert path[..n] == d;
    }
  }

  /** The filter drops only existing directories. */
  lemma {:induction false} MissingHas(dirs: seq<string>, existing: set<string>, d: string)
    requires d in dirs && d !in existing
    ensures d in Missing(dirs, existing)
    decreases |dirs|
  {
    var init := dirs[..|dirs| - 1];
    if d != dirs[|dirs| - 1] {
      assert d in init by {
        var k :| 0 <= k < |dirs| && dirs[k] == d;
        assert init[k] == d;
      }
      MissingHas(init, existing, d);
    }
  }

  /**
   * The converse of `MkdirCallsShape`: every missing separator-terminated
   * prefix of `path` is handed to `mkdir`, and so is the whole path when it
   * does not end with a separator, whether or not it exists.
   */
  lemma MkdirCallsComplete(path: string, existing: set<string>)
    ensures forall d :: IsParentPrefix(d, path) && d !in existing ==> d in MkdirCalls(path, existing)
    ensures |path| > 0 && !IsSep(path[|path| - 1]) ==> path in MkdirCalls(path, existing)
  {
    forall d | IsParentPrefix(d, path) && d !in existing
      ensures d in MkdirCalls(path, existing)
    {
      SeparatorPrefixesHas(path, |path|, d);
      MissingHas(SeparatorPrefixes(path, |path|), existing, d);
    }
  }

  /** `File::create_directory`: returns the paths handed to `mkdir`, in order. */
  method CreateDirectory(path: string, existing: set<string>) returns (made: seq<string>)
    ensures made == MkdirCalls(path, existing)
  {
    var idx := 0;
    made := [];
    while idx < |path|
      invariant idx <= |path|
      invariant idx > 0 ==> IsSep(path[idx - 1])
      invariant made == Missing(SeparatorPrefixes(path, idx), existing)
      decreases |path| - idx
    {
      var found := FindFirstSep(path, idx);
      if found.None? {
        SeparatorPrefixesSkip(path, idx, |path|);
        made := made + [path];
        return;
      }
      var pos := found.value;
      var parentDir := path[..pos + 1];
      SeparatorPrefixesSkip(path, idx, pos);
      if parentDir in existing {
        idx := pos + 1;
        continue;
      }
      made := made + [parentDir];
      idx := pos + 1;
    }
  }
}
