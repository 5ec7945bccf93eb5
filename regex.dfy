/**
 * Text helpers shared by both halves of the system: the one regular-expression
 * shape the code uses (an unescaped `.` followed by a literal tail, anchored at
 * the end of the string) and ASCII lower-casing.
 */
module Text {

  /** The characters a JavaScript `.` does not match (without the `s` flag). */
  predicate IsLineTerminator(c: char) {
    c == '\n' || c == '\r' || c == '\U{2028}' || c == '\U{2029}'
  }

  predicate EndsWith(s: string, tail: string) {
    |tail| <= |s| && s[|s| - |tail|..] == tail
  }

  /** Does the pattern `.tail$` (any character, then `tail`, then end of input) match `s`? */
  predicate DotTailMatches(s: string, tail: string) {
    |tail| < |s| && EndsWith(s, tail) && !IsLineTerminator(s[|s| - |tail| - 1])
  }

  /**
   * `s.replace(/.tail$/, repl)` for a `tail` without regular-expression
   * metacharacters. The match is anchored at the end, so there is at most one
   * place it can occur: the last `|tail| + 1` characters.
   */
  function ReplaceDotTail(s: string, tail: string, repl: string): (r: string)
    ensures !DotTailMatches(s, tail) ==> r == s
    ensures DotTailMatches(s, tail) ==> r == s[..|s| - |tail| - 1] + repl
  {
    if DotTailMatches(s, tail) then s[..|s| - |tail| - 1] + repl else s
  }

  /**
   * On a string that ends with one character and then `tail`, the pattern
   * matches exactly when that character is not a line terminator, and then
   * the character and `tail` are replaced by `repl`.
   */
  lemma ReplaceDotTailAt(pre: string, c: char, tail: string, repl: string)
    ensures DotTailMatches(pre + [c] + tail, tail) == !IsLineTerminator(c)
    ensures ReplaceDotTail(pre + [c] + tail, tail, repl)
         == if IsLineTerminator(c) then pre + [c] + tail else pre + repl
  {
    var s := pre + [c] + tail;
    assert s[..|s| - |tail| - 1] == pre;
    assert s[|s| - |tail| - 1] == c;
    assert s[|s| - |tail|..] == tail;
  }

  /** ASCII case mapping of one character; every other character is left alone. */
  function LowerChar(c: char): (r: char)
    ensures 'A' <= c <= 'Z' ==> 'a' <= r <= 'z' && r as int == c as int + 32
    ensures !('A' <= c <= 'Z') ==> r == c
  {
    if 'A' <= c <= 'Z' then (c as int - 'A' as int + 'a' as int) as char else c
  }

  /** `String.prototype.toLowerCase` restricted to ASCII letters. */
  function Lower(s: string): (r: string)
    ensures |r| == |s|
    ensures forall i :: 0 <= i < |s| ==> r[i] == LowerChar(s[i])
  {
    seq(|s|, i requires 0 <= i < |s| => LowerChar(s[i]))
  }

  /**
   * The result holds no ASCII capital, a second pass changes nothing, a text
   * without capitals is its own lower case, and lower-casing works piecewise.
   */
  lemma LowerIsLowerCase(s: string, t: string)
    ensures forall i :: 0 <= i < |s| ==> !('A' <= Lower(s)[i] <= 'Z')
    ensures Lower(Lower(s)) == Lower(s)
    ensures (forall i :: 0 <= i < |s| ==> !('A' <= s[i] <= 'Z')) ==> Lower(s) == s
    ensures Lower(s + t) == Lower(s) + Lower(t)
  {
  }
}
