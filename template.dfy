/**
 * The submitted `dataSource` value: the raw input when no pattern is
 * configured, otherwise the pattern with its first `$id` replaced by the
 * input, as JavaScript's `String.prototype.replace` does it for the regular
 * expression `/\$id/` (no `g` flag, no capture groups).
 */
module Template {
  import opened Wrappers

  /** The text the regular expression `/\$id/` matches. */
  const TOKEN: string := "$id"

  /** The token occurs in `s` starting at index `j`. */
  predicate TokenAt(s: string, j: int) {
    0 <= j && j + |TOKEN| <= |s| && s[j..j + |TOKEN|] == TOKEN
  }

  /** The leftmost occurrence of the token at or after index `k`. */
  function FindFrom(s: string, k: nat): (r: Option<nat>)
    requires k <= |s|
    ensures r.Some? ==> k <= r.value && TokenAt(s, r.value)
    ensures r.Some? ==> forall j :: k <= j < r.value ==> !TokenAt(s, j)
    ensures r.None? ==> forall j :: k <= j ==> !TokenAt(s, j)
    decreases |s| - k
  {
    if k + |TOKEN| > |s| then None
    else if s[k..k + |TOKEN|] == TOKEN then Some(k)
    else FindFrom(s, k + 1)
  }

  /** The leftmost occurrence of the token in `s`, the one a regular expression without `g` replaces. */
  function FindFirst(s: string): (r: Option<nat>)
    ensures r.Some? ==> TokenAt(s, r.value) && forall j :: 0 <= j < r.value ==> !TokenAt(s, j)
    ensures r.None? <==> forall j :: !TokenAt(s, j)
  {
    FindFrom(s, 0)
  }

  /**
   * The replacement text that JavaScript's GetSubstitution produces from the
   * replacement string `r` for a match of the token with `before` in front of
   * it and `after` behind it. With no capture groups only `$$` (a dollar),
   * `$&` (the match), `` $` `` (the text before) and `$'` (the text after) are
   * special; every other `$` stands for itself.
   */
  function Expand(r: string, before: string, after: string): (e: string)
    ensures '$' !in r ==> e == r
    decreases |r|
  {
    if r == [] then []
    else if r[0] == '$' && |r| >= 2 && r[1] == '$' then "$" + Expand(r[2..], before, after)
    else if r[0] == '$' && |r| >= 2 && r[1] == '&' then TOKEN + Expand(r[2..], before, after)
    else if r[0] == '$' && |r| >= 2 && r[1] == '`' then before + Expand(r[2..], before, after)
    else if r[0] == '$' && |r| >= 2 && r[1] == '\'' then after + Expand(r[2..], before, after)
    else [r[0]] + Expand(r[1..], before, after)
  }

  /** The text with every dollar sign doubled: the replacement string that stands for `s` literally. */
  function Escape(s: string): string {
    if s == [] then []
    else if s[0] == '$' then "$$" + Escape(s[1..])
    else [s[0]] + Escape(s[1..])
  }

  /** Expanding an escaped text gives the text back, whatever the match's surroundings. */
  lemma {:induction false} ExpandEscape(s: string, before: string, after: string)
    ensures Expand(Escape(s), before, after) == s
    decreases |s|
  {
    if s != [] {
      ExpandEscape(s[1..], before, after);
      var e := Escape(s);
      if s[0] == '$' {
        assert e == "$$" + Escape(s[1..]);
        assert e[2..] == Escape(s[1..]);
      } else {
        assert e == [s[0]] + Escape(s[1..]);
        assert e[1..] == Escape(s[1..]);
      }
      assert s == [s[0]] + s[1..];
    }
  }

  /** `subject.replace(/\$id/, replacement)`: only the first occurrence is replaced. */
  function ReplaceFirst(subject: string, replacement: string): (r: string)
    ensures FindFirst(subject).None? ==> r == subject
    ensures FindFirst(subject).Some? ==>
      var i := FindFirst(subject).value;
      var tail := subject[i + |TOKEN|..];
      && |r| >= i + |tail|
      && r[..i] == subject[..i]
      && r[|r| - |tail|..] == tail
      && r[i..|r| - |tail|] == Expand(replacement, subject[..i], tail)
  {
    match FindFirst(subject)
    case None => subject
    case Some(i) =>
      subject[..i] + Expand(replacement, subject[..i], subject[i + |TOKEN|..]) + subject[i + |TOKEN|..]
  }

  /** The `dataSource` value submitted for the user's input under the configured pattern. */
  function Value(pattern: string, input: string): (r: string)
    ensures pattern == "" ==> r == input
    ensures pattern != "" && FindFirst(pattern).None? ==> r == pattern
    ensures pattern != "" && FindFirst(pattern).Some? ==>
      var i := FindFirst(pattern).value;
      && |r| >= |pattern| - |TOKEN|
      && r[..i] == pattern[..i]
      && r[|r| - (|pattern| - i - |TOKEN|)..] == pattern[i + |TOKEN|..]
  {
    if pattern != "" then ReplaceFirst(pattern, input) else input
  }

  /** With no pattern configured, the value is the raw input. */
  lemma ValueWithoutPattern(input: string)
    ensures Value("", input) == input
  {
  }

  /** A configured pattern with no `$id` in it is submitted unchanged, whatever the input. */
  lemma ValueWithoutToken(pattern: string, input: string)
    requires pattern != ""
    requires forall j :: !TokenAt(pattern, j)
    ensures Value(pattern, input) == pattern
  {
  }

  /**
   * When the first `$id` of the pattern follows `before`, exactly that one is
   * replaced: `before` and everything after the token, later `$id`s
   * included, are kept verbatim, and the input is expanded in between.
   */
  lemma ValueReplacesFirstToken(before: string, after: string, input: string)
    requires forall j :: 0 <= j < |before| ==> !TokenAt(before + TOKEN + after, j)
    ensures Value(before + TOKEN + after, input) == before + Expand(input, before, after) + after
  {
    var p := before + TOKEN + after;
    var n := |before|;
    assert p[n..n + |TOKEN|] == TOKEN;
    assert TokenAt(p, n);
    var i := FindFirst(p).value;
    assert i == n;
    assert p[..n] == before;
    assert p[n + |TOKEN|..] == after;
  }

  /** The same, for an input without a dollar sign: the input is spliced in place of the first `$id`. */
  lemma ValueSplicesPlainInput(before: string, after: string, input: string)
    requires forall j :: 0 <= j < |before| ==> !TokenAt(before + TOKEN + after, j)
    requires '$' !in input
    ensures Value(before + TOKEN + after, input) == before + input + after
  {
    ValueReplacesFirstToken(before, after, input);
  }

  /**
   * Every pattern either has no `$id`, and is kept, or splits around its first
   * `$id`, and has that one replaced.
   */
  lemma ValueCases(pattern: string, input: string)
    requires pattern != ""
    ensures FindFirst(pattern).None? ==> Value(pattern, input) == pattern
    ensures FindFirst(pattern).Some? ==>
      var i := FindFirst(pattern).value;
      && pattern == pattern[..i] + TOKEN + pattern[i + |TOKEN|..]
      && Value(pattern, input) == pattern[..i] + Expand(input, pattern[..i], pattern[i + |TOKEN|..]) + pattern[i + |TOKEN|..]
  {
  }
}
