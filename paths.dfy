/**
 * Path and URL helpers of setPath (audioplayer.js:67, :76): the test for an
 * absolute URL, the choice between the path and `vfs.url(path)`, and the
 * base name shown as the tab title.
 */
module Paths {

  /** A character of the regular-expression class `\w`: an ASCII letter, digit or `_`. */
  predicate IsWordChar(c: char) {
    ('a' <= c <= 'z') || ('A' <= c <= 'Z') || ('0' <= c <= '9') || c == '_'
  }

  /** Length of the longest prefix of `s` made of word characters. */
  function WordRun(s: string): nat {
    if s != [] && IsWordChar(s[0]) then 1 + WordRun(s[1..]) else 0
  }

  /** WordRun stops at the first character that is not a word character, or at the end. */
  lemma {:induction false} WordRunIsLongest(s: string)
    ensures WordRun(s) <= |s|
    ensures forall i :: 0 <= i < WordRun(s) ==> IsWordChar(s[i])
    ensures WordRun(s) < |s| ==> !IsWordChar(s[WordRun(s)])
  {
    if s != [] && IsWordChar(s[0]) {
      WordRunIsLongest(s[1..]);
      forall i | 0 <= i < WordRun(s) ensures IsWordChar(s[i]) {
        if i > 0 {
          assert s[i] == s[1..][i - 1];
        }
      }
    }
  }

  /** `path.match(/^\w+:\/\//)`: a non-empty run of word characters, then "://". */
  predicate HasScheme(s: string) {
    var n := WordRun(s);
    1 <= n && n + 3 <= |s| && s[n] == ':' && s[n + 1] == '/' && s[n + 2] == '/'
  }

  /** The regular expression read declaratively: the first `k` characters are word characters and "://" follows them. */
  ghost predicate SchemeEndsAt(s: string, k: nat) {
    1 <= k && k + 3 <= |s| && (forall i :: 0 <= i < k ==> IsWordChar(s[i])) && s[k..k + 3] == "://"
  }

  /** The scan in HasScheme accepts exactly the strings the anchored regular expression matches. */
  lemma HasSchemeIff(s: string)
    ensures HasScheme(s) <==> exists k :: SchemeEndsAt(s, k)
  {
    var n := WordRun(s);
    WordRunIsLongest(s);
    if HasScheme(s) {
      assert SchemeEndsAt(s, n);
    }
    forall k: nat | SchemeEndsAt(s, k)
      ensures HasScheme(s)
    {
      // s[k] is ':', which is not a word character, so the word run ends exactly at k
      assert s[k] == s[k..k + 3][0] == ':';
      assert n == k;
    }
  }

  /** The URL setPath gives the widget: the path itself when it already has a scheme, else `vfs.url(path)`. */
  function ResolveUrl(path: string, url: string -> string): string {
    if HasScheme(path) then path else url(path)
  }

  /** The text after the last '/' of `path`; all of `path` when it has no '/'. */
  function Basename(path: string): string {
    if path == [] || path[|path| - 1] == '/' then []
    else Basename(path[..|path| - 1]) + [path[|path| - 1]]
  }

  /**
   * The base name is a suffix of the path without '/', and the path is
   * either all base name or has a '/' right before it.
   */
  lemma {:induction false} BasenameIsLastSegment(path: string)
    ensures var name := Basename(path);
      && '/' !in name
      && |name| <= |path| && name == path[|path| - |name|..]
      && (|name| < |path| ==> path[|path| - |name| - 1] == '/')
  {
    if path != [] && path[|path| - 1] != '/' {
      var init, last := path[..|path| - 1], path[|path| - 1];
      BasenameIsLastSegment(init);
      var name := Basename(init);
      assert Basename(path) == name + [last];
      assert path[|path| - |name| - 1..] == init[|init| - |name|..] + [last];
      assert |name| < |init| ==> path[|path| - |name| - 2] == init[|init| - |name| - 1];
    }
  }

  /** A file name placed under any directory is its own base name. */
  lemma {:induction false} BasenameOfJoin(dir: string, name: string)
    requires '/' !in name
    ensures Basename(dir + "/" + name) == name
  {
    var path := dir + "/" + name;
    if name != [] {
      var init := name[..|name| - 1];
      assert path[..|path| - 1] == dir + "/" + init;
      BasenameOfJoin(dir, init);
      assert name == init + [name[|name| - 1]];
    }
  }

  /** A name without '/' is its own base name. */
  lemma {:induction false} BasenameOfPlainName(name: string)
    requires '/' !in name
    ensures Basename(name) == name
  {
    if name != [] {
      var init := name[..|name| - 1];
      BasenameOfPlainName(init);
      assert name == init + [name[|name| - 1]];
    }
  }

  /** Taking the base name twice changes nothing. */
  lemma BasenameIdempotent(path: string)
    ensures Basename(Basename(path)) == Basename(path)
  {
    BasenameIsLastSegment(path);
    BasenameOfPlainName(Basename(path));
  }
}
