/**
 * The batch driver's command line: `--lang <code>` picks the transcription
 * language and is spliced out of the argument list; what remains are the
 * paths to process.
 */
module CommandLine {

  /** `Array.prototype.indexOf`: the first position of `x` in `s`, or -1. */
  function IndexOf(s: seq<string>, x: string): (r: int)
    ensures -1 <= r < |s|
    ensures r == -1 <==> x !in s
    ensures r >= 0 ==> s[r] == x && x !in s[..r]
  {
    if s == [] then -1
    else if s[0] == x then 0
    else
      var r := IndexOf(s[1..], x);
      if r == -1 then -1
      else
        assert s[..r + 1] == [s[0]] + s[1..][..r];
        r + 1
  }

  const LangFlag := "--lang"
  const DefaultLanguage := "en"

  /** `WHISPER_LANG`: the element after the first `--lang` when it exists and is non-empty, else `en`. */
  function Language(args: seq<string>): string {
    var i := IndexOf(args, LangFlag);
    if i != -1 && i + 1 < |args| && args[i + 1] != "" then args[i + 1] else DefaultLanguage
  }

  /** `args` after `args.splice(langIndex, 2)`, which removes at most two elements. */
  function WithoutLanguage(args: seq<string>): seq<string> {
    var i := IndexOf(args, LangFlag);
    if i == -1 then args
    else if i + 2 <= |args| then args[..i] + args[i + 2..]
    else args[..i]
  }

  /** The first occurrence of `x` in `pre + [x] + post` is at `|pre|` when `pre` has none. */
  lemma IndexOfFirst(pre: seq<string>, x: string, post: seq<string>)
    requires x !in pre
    ensures IndexOf(pre + [x] + post, x) == |pre|
  {
    var s := pre + [x] + post;
    var r := IndexOf(s, x);
    assert s[|pre|] == x;
  }

  /** Without `--lang` the language is `en` and the arguments are untouched. */
  lemma NoLanguageFlag(args: seq<string>)
    requires LangFlag !in args
    ensures Language(args) == DefaultLanguage
    ensures WithoutLanguage(args) == args
  {}

  /**
   * With a first `--lang` followed by `v`, the language is `v` unless `v` is
   * empty, and exactly those two elements are removed: every other argument,
   * a later `--lang` included, keeps its place in order.
   */
  lemma LanguageFlagWithValue(pre: seq<string>, v: string, post: seq<string>)
    requires LangFlag !in pre
    ensures Language(pre + [LangFlag, v] + post) == (if v != "" then v else DefaultLanguage)
    ensures WithoutLanguage(pre + [LangFlag, v] + post) == pre + post
  {
    var args := pre + [LangFlag, v] + post;
    assert args == pre + [LangFlag] + ([v] + post);
    IndexOfFirst(pre, LangFlag, [v] + post);
    assert args[|pre| + 1] == v;
    assert args[..|pre|] == pre && args[|pre| + 2..] == post;
  }

  /** A trailing `--lang` with nothing after it gives `en` and is removed alone. */
  lemma LanguageFlagLast(pre: seq<string>)
    requires LangFlag !in pre
    ensures Language(pre + [LangFlag]) == DefaultLanguage
    ensures WithoutLanguage(pre + [LangFlag]) == pre
  {
    IndexOfFirst(pre, LangFlag, []);
    assert pre + [LangFlag] + [] == pre + [LangFlag];
    assert (pre + [LangFlag])[..|pre|] == pre;
  }

  /** `--lang` is taken at its first occurrence even when its value is another flag. */
  lemma LanguageFlagExample()
    ensures Language(["a.mp4", "--lang", "--lang", "de"]) == "--lang"
    ensures WithoutLanguage(["a.mp4", "--lang", "--lang", "de"]) == ["a.mp4", "de"]
  {
    LanguageFlagWithValue(["a.mp4"], "--lang", ["de"]);
    assert ["a.mp4"] + [LangFlag, "--lang"] + ["de"] == ["a.mp4", "--lang", "--lang", "de"];
  }
}
