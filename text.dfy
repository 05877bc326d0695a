/** The string operations the stores rely on: `toLowerCase`/`toUpperCase`
    (restricted to ASCII letters), `includes` and `trim`. */
module Text {

  function LowerChar(c: char): (r: char)
    ensures 'A' <= c <= 'Z' ==> r as int == c as int + 32
    ensures !('A' <= c <= 'Z') ==> r == c
    ensures !('A' <= r <= 'Z')
  {
    if 'A' <= c <= 'Z' then (c as int + 32) as char else c
  }

  function UpperChar(c: char): (r: char)
    ensures 'a' <= c <= 'z' ==> r as int == c as int - 32
    ensures !('a' <= c <= 'z') ==> r == c
    ensures !('a' <= r <= 'z')
  {
    if 'a' <= c <= 'z' then (c as int - 32) as char else c
  }

  function ToLower(s: string): (r: string)
    ensures |r| == |s| && forall i :: 0 <= i < |s| ==> r[i] == LowerChar(s[i])
  {
    seq(|s|, i requires 0 <= i < |s| => LowerChar(s[i]))
  }

  function ToUpper(s: string): (r: string)
    ensures |r| == |s| && forall i :: 0 <= i < |s| ==> r[i] == UpperChar(s[i])
  {
    seq(|s|, i requires 0 <= i < |s| => UpperChar(s[i]))
  }

  /** `sub` occurs in `s` starting at position `i`. */
  predicate OccursAt(s: string, sub: string, i: int) {
    0 <= i <= |s| - |sub| && s[i..i + |sub|] == sub
  }

  /** `s.includes(sub)`: `sub` occurs in `s` at some position. */
  predicate Contains(s: string, sub: string) {
    exists i | 0 <= i <= |s| - |sub| :: OccursAt(s, sub, i)
  }

  /** `s.toLowerCase().includes(term.toLowerCase())`. */
  predicate ContainsFolded(s: string, term: string) {
    Contains(ToLower(s), ToLower(term))
  }

  /** The characters ECMAScript's `trim` removes: the ASCII white space and
      line terminators, no-break space, the byte order mark and the Unicode
      space separators. */
  predicate IsSpace(c: char) {
    var n := c as int;
    (9 <= n <= 13) || n == 0x20 || n == 0xA0 || n == 0x1680
    || (0x2000 <= n <= 0x200A) || n == 0x2028 || n == 0x2029
    || n == 0x202F || n == 0x205F || n == 0x3000 || n == 0xFEFF
  }

  predicate IsBlank(s: string) {
    forall i :: 0 <= i < |s| ==> IsSpace(s[i])
  }

  /** A white-space character in front keeps a string blank or not blank. */
  lemma BlankCons(c: char, t: string)
    requires IsSpace(c)
    ensures IsBlank([c] + t) <==> IsBlank(t)
  {
    assert forall i :: 0 <= i < |t| ==> ([c] + t)[i + 1] == t[i];
  }

  /** A white-space character at the end keeps a string blank or not blank. */
  lemma BlankSnoc(t: string, c: char)
    requires IsSpace(c)
    ensures IsBlank(t + [c]) <==> IsBlank(t)
  {
    assert forall i :: 0 <= i < |t| ==> (t + [c])[i] == t[i];
  }

  function TrimStart(s: string): (r: string)
    ensures |r| <= |s| && r == s[|s| - |r|..]
    ensures IsBlank(s[..|s| - |r|])
    ensures r == [] <==> IsBlank(s)
    ensures r != [] ==> !IsSpace(r[0])
  {
    if s != [] && IsSpace(s[0]) then
      var r := TrimStart(s[1..]);
      TrimStartStep(s, r);
      r
    else
      TrimStartStop(s);
      s
  }

  /** A string that is empty or starts with a non-space is its own `TrimStart`. */
  lemma TrimStartStop(s: string)
    requires s == [] || !IsSpace(s[0])
    ensures s == s[|s| - |s|..] && IsBlank(s[..|s| - |s|])
    ensures s == [] <==> IsBlank(s)
  {
  }

  /** Dropping one more leading white-space character keeps what `TrimStart`
      promises. */
  lemma TrimStartStep(s: string, r: string)
    requires s != [] && IsSpace(s[0])
    requires |r| <= |s| - 1 && r == s[1..][|s| - 1 - |r|..]
    requires IsBlank(s[1..][..|s| - 1 - |r|])
    requires r == [] <==> IsBlank(s[1..])
    requires r != [] ==> !IsSpace(r[0])
    ensures |r| <= |s| && r == s[|s| - |r|..]
    ensures IsBlank(s[..|s| - |r|])
    ensures r == [] <==> IsBlank(s)
    ensures r != [] ==> !IsSpace(r[0])
  {
    assert s[..|s| - |r|] == [s[0]] + s[1..][..|s| - 1 - |r|];
    assert s == [s[0]] + s[1..];
    BlankCons(s[0], s[1..][..|s| - 1 - |r|]);
    BlankCons(s[0], s[1..]);
  }

  function TrimEnd(s: string): (r: string)
    ensures |r| <= |s| && r == s[..|r|]
    ensures IsBlank(s[|r|..])
    ensures r == [] <==> IsBlank(s)
    ensures r != [] ==> !IsSpace(r[|r| - 1])
  {
    if s != [] && IsSpace(s[|s| - 1]) then
      var r := TrimEnd(s[..|s| - 1]);
      TrimEndStep(s, r);
      r
    else
      TrimEndStop(s);
      s
  }

  /** A string that is empty or ends with a non-space is its own `TrimEnd`. */
  lemma TrimEndStop(s: string)
    requires s == [] || !IsSpace(s[|s| - 1])
    ensures s == s[..|s|] && IsBlank(s[|s|..])
    ensures s == [] <==> IsBlank(s)
  {
  }

  /** Dropping one more trailing white-space character keeps what `TrimEnd`
      promises. */
  lemma TrimEndStep(s: string, r: string)
    requires s != [] && IsSpace(s[|s| - 1])
    requires |r| <= |s| - 1 && r == s[..|s| - 1][..|r|]
    requires IsBlank(s[..|s| - 1][|r|..])
    requires r == [] <==> IsBlank(s[..|s| - 1])
    requires r != [] ==> !IsSpace(r[|r| - 1])
    ensures |r| <= |s| && r == s[..|r|]
    ensures IsBlank(s[|r|..])
    ensures r == [] <==> IsBlank(s)
    ensures r != [] ==> !IsSpace(r[|r| - 1])
  {
    assert s[|r|..] == s[..|s| - 1][|r|..] + [s[|s| - 1]];
    assert s == s[..|s| - 1] + [s[|s| - 1]];
    BlankSnoc(s[..|s| - 1][|r|..], s[|s| - 1]);
    BlankSnoc(s[..|s| - 1], s[|s| - 1]);
  }

  /** `s.trim()`: `s` without its leading and trailing white space; it is
      empty exactly when `s` is blank. */
  function Trim(s: string): (r: string)
    ensures r == [] <==> IsBlank(s)
    ensures r != [] ==> !IsSpace(r[0]) && !IsSpace(r[|r| - 1])
  {
    TrimStartNotBlank(s);
    var t := TrimStart(s);
    var r := TrimEnd(t);
    r
  }

  /** `trim()` removes white space only: `s` is a blank prefix, then the
      trimmed string, then a blank suffix. */
  lemma TrimDropsBlanks(s: string)
    ensures var r := Trim(s);
      exists pre, post :: s == pre + r + post && IsBlank(pre) && IsBlank(post)
  {
    var t := TrimStart(s);
    TrimSplits(s);
    assert IsBlank(s[..|s| - |t|]) && IsBlank(t[|Trim(s)|..]);
  }

  /** `s` is what `TrimStart` drops, then `Trim(s)`, then what `TrimEnd`
      drops. */
  lemma TrimSplits(s: string)
    ensures var t := TrimStart(s);
      s == s[..|s| - |t|] + Trim(s) + t[|Trim(s)|..]
  {
    var t := TrimStart(s);
    TrimSlices(s, |s| - |t|, t, TrimEnd(t));
  }

  /** Trimming the end of a suffix of `s` leaves a slice of `s`, followed by
      the rest of that suffix. */
  lemma TrimSlices(s: string, k: nat, t: string, r: string)
    requires k <= |s| && t == s[k..] && |r| <= |t| && r == t[..|r|]
    ensures s == s[..k] + r + s[k + |r|..] && s[k + |r|..] == t[|r|..]
  {
  }

  lemma TrimStartNotBlank(s: string)
    ensures var t := TrimStart(s); t != [] ==> !IsBlank(t) && TrimEnd(t)[0] == t[0]
  {
    var t := TrimStart(s);
    if t != [] {
      assert !IsSpace(t[0]);
    }
  }
}
