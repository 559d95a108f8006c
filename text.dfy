/**
 * The handful of JavaScript string operations the application relies on, written out:
 * truthiness of nullable strings and `||` defaults, `trim`, ASCII `toLowerCase`, `includes`,
 * `split(sep)[0]`, `split(sep).pop()`, `startsWith` and the decimal rendering of a number.
 */
module Text {
  import opened Wrappers

  /** JavaScript truthiness of a nullable string: `null`, `undefined` and `""` are all falsy. */
  predicate Truthy(o: Option<string>) {
    o.Some? && o.value != ""
  }

  /** `o || d` for a nullable string `o` and a string `d`. */
  function OptOr(o: Option<string>, d: string): (r: string)
    ensures Truthy(o) ==> r == o.value
    ensures !Truthy(o) ==> r == d
  {
    if Truthy(o) then o.value else d
  }

  /** `s || d` for two (non-null) strings. */
  function Or(s: string, d: string): (r: string)
    ensures r == s || r == d
    ensures r == "" ==> d == ""
  {
    if s != "" then s else d
  }

  /** The interpolation `${o || ''}`: the string itself, or `""` when it is null. */
  function OrEmpty(o: Option<string>): string {
    o.GetOr("")
  }

  // ---------------------------------------------------------------------------
  // trim

  /** ECMAScript WhiteSpace and LineTerminator code points: what `String.prototype.trim` removes. */
  predicate IsSpace(c: char) {
    var n := c as int;
    n == 0x09 || n == 0x0A || n == 0x0B || n == 0x0C || n == 0x0D || n == 0x20 || n == 0xA0
    || n == 0x1680 || (0x2000 <= n <= 0x200A) || n == 0x2028 || n == 0x2029
    || n == 0x202F || n == 0x205F || n == 0x3000 || n == 0xFEFF
  }

  /** Empty or made of white space only: what `s.trim() === ""` tests. */
  predicate IsBlank(s: string) {
    forall i :: 0 <= i < |s| ==> IsSpace(s[i])
  }

  /** `s` without its leading white space. */
  function TrimStart(s: string): string {
    if |s| > 0 && IsSpace(s[0]) then TrimStart(s[1..]) else s
  }

  /** `s` without its trailing white space. */
  function TrimEnd(s: string): string {
    if |s| > 0 && IsSpace(s[|s| - 1]) then TrimEnd(s[..|s| - 1]) else s
  }

  /** `s.trim()`. */
  function Trim(s: string): string {
    TrimEnd(TrimStart(s))
  }

  /** `TrimStart` removes a blank prefix and stops at the first visible character. */
  lemma {:induction false} TrimStartFacts(s: string)
    ensures var r := TrimStart(s);
      && |r| <= |s| && r == s[|s| - |r|..]
      && (r == [] || !IsSpace(r[0]))
      && IsBlank(s[..|s| - |r|])
  {
    if |s| > 0 && IsSpace(s[0]) {
      TrimStartFacts(s[1..]);
      var r := TrimStart(s[1..]);
      assert s[1..][|s| - 1 - |r|..] == s[|s| - |r|..];
      forall i | 0 <= i < |s| - |r| ensures IsSpace(s[i]) {
        if i > 0 { assert s[i] == s[1..][..|s| - 1 - |r|][i - 1]; }
      }
    }
  }

  /** `TrimEnd` removes a blank suffix and stops at the last visible character. */
  lemma {:induction false} TrimEndFacts(s: string)
    ensures var r := TrimEnd(s);
      && |r| <= |s| && r == s[..|r|]
      && (r == [] || !IsSpace(r[|r| - 1]))
      && IsBlank(s[|r|..])
      && (s != [] && !IsSpace(s[0]) ==> r != [])
  {
    if |s| > 0 && IsSpace(s[|s| - 1]) {
      var t := s[..|s| - 1];
      TrimEndFacts(t);
      var r := TrimEnd(t);
      assert t[..|r|] == s[..|r|];
      forall i | |r| <= i < |s| ensures IsSpace(s[i]) {
        if i < |s| - 1 { assert s[i] == t[|r|..][i - |r|]; }
      }
      if s != [] && !IsSpace(s[0]) {
        assert t != [] && t[0] == s[0];
      }
    }
  }

  /** A trimmed string is empty exactly when the original is blank. */
  lemma TrimEmptyIff(s: string)
    ensures Trim(s) == "" <==> IsBlank(s)
  {
    var a := TrimStart(s);
    TrimStartFacts(s);
    TrimEndFacts(a);
    assert s[..|s|] == s;
    if a != [] {
      assert s[|s| - |a|] == a[0];
    }
  }

  /** A trimmed string neither starts nor ends with white space. */
  lemma TrimHasNoEdgeSpace(s: string)
    ensures var t := Trim(s); t == [] || (!IsSpace(t[0]) && !IsSpace(t[|t| - 1]))
  {
    var a := TrimStart(s);
    TrimStartFacts(s);
    TrimEndFacts(a);
    var t := TrimEnd(a);
    if t != [] {
      assert t[0] == a[0];
    }
  }

  /** A string with no white space at either end is its own trim. */
  lemma TrimOfTrimmed(s: string)
    requires s == [] || (!IsSpace(s[0]) && !IsSpace(s[|s| - 1]))
    ensures Trim(s) == s
  {
  }

  /** Trimming twice is trimming once. */
  lemma TrimIdempotent(s: string)
    ensures Trim(Trim(s)) == Trim(s)
  {
    TrimHasNoEdgeSpace(s);
    TrimOfTrimmed(Trim(s));
  }

  /** Two blank strings around a space trim to nothing; a non-blank part keeps the result non-empty. */
  lemma TrimJoinEmptyIff(a: string, b: string)
    ensures Trim(a + " " + b) == "" <==> IsBlank(a) && IsBlank(b)
  {
    var j := a + " " + b;
    TrimEmptyIff(j);
    if IsBlank(a) && IsBlank(b) {
      forall i | 0 <= i < |j| ensures IsSpace(j[i]) {
        if i < |a| { assert j[i] == a[i]; }
        else if i == |a| { assert j[i] == ' '; }
        else { assert j[i] == b[i - |a| - 1]; }
      }
    } else if !IsBlank(a) {
      var i :| 0 <= i < |a| && !IsSpace(a[i]);
      assert j[i] == a[i];
    } else {
      var i :| 0 <= i < |b| && !IsSpace(b[i]);
      assert j[|a| + 1 + i] == b[i];
    }
  }

  // ---------------------------------------------------------------------------
  // toLowerCase (ASCII letters only)

  function LowerChar(c: char): char {
    if 'A' <= c <= 'Z' then (c as int + 32) as char else c
  }

  /** `s.toLowerCase()`, restricted to the ASCII letters. */
  function Lower(s: string): string {
    seq(|s|, i requires 0 <= i < |s| => LowerChar(s[i]))
  }

  /** Lowercasing is idempotent. */
  lemma LowerIdempotent(s: string)
    ensures Lower(Lower(s)) == Lower(s)
  {
  }

  /** Lowercasing a prefix gives a prefix of the lowercased string. */
  lemma LowerOfPrefix(p: string, s: string)
    requires p <= s
    ensures Lower(p) <= Lower(s)
  {
    assert Lower(p) == Lower(s)[..|p|];
  }

  // ---------------------------------------------------------------------------
  // includes

  /** `s.includes(sub)`: `sub` occurs in `s` at some position. */
  predicate Contains(s: string, sub: string) {
    exists i :: 0 <= i <= |s| - |sub| && OccursAt(s, sub, i)
  }

  /** `sub` occurs in `s` starting at index `i`. */
  predicate OccursAt(s: string, sub: string, i: int) {
    0 <= i <= |s| - |sub| && s[i..i + |sub|] == sub
  }

  /** Every string includes its prefixes, the empty string among them. */
  lemma ContainsPrefix(s: string, p: string)
    requires p <= s
    ensures Contains(s, p)
  {
    assert OccursAt(s, p, 0);
  }

  /** An occurrence of an occurrence is an occurrence. */
  lemma ContainsTransitive(a: string, b: string, c: string)
    requires Contains(a, b) && Contains(b, c)
    ensures Contains(a, c)
  {
    var i :| 0 <= i <= |a| - |b| && OccursAt(a, b, i);
    var j :| 0 <= j <= |b| - |c| && OccursAt(b, c, j);
    forall k | 0 <= k < |c| ensures a[i + j + k] == c[k] {
      assert c[k] == b[j + k] == a[i + j + k];
    }
    assert a[i + j..i + j + |c|] == c;
    assert OccursAt(a, c, i + j);
  }

  // ---------------------------------------------------------------------------
  // split

  /** `s.split(sep)[0]`: the text before the first `sep`, or all of `s` when there is none. */
  function Before(s: string, sep: char): (r: string)
    ensures r <= s && sep !in r
    ensures r == s || s[|r|] == sep
  {
    if s == [] || s[0] == sep then [] else [s[0]] + Before(s[1..], sep)
  }

  /** `s.split(sep).pop()`: the text after the last `sep`, or all of `s` when there is none. */
  function AfterLast(s: string, sep: char): (r: string)
    ensures |r| <= |s| && r == s[|s| - |r|..] && sep !in r
    ensures r == s || s[|s| - |r| - 1] == sep
  {
    if s == [] || s[|s| - 1] == sep then [] else AfterLast(s[..|s| - 1], sep) + [s[|s| - 1]]
  }

  /** The text before the first separator of `x + [sep] + y` is `x` when `x` has no separator. */
  lemma {:induction false} BeforeOfJoin(x: string, sep: char, y: string)
    requires sep !in x
    ensures Before(x + [sep] + y, sep) == x
  {
    if x != [] {
      assert (x + [sep] + y)[1..] == x[1..] + [sep] + y;
      BeforeOfJoin(x[1..], sep, y);
    }
  }

  /** Without a separator, `split(sep).pop()` gives the whole string. */
  lemma AfterLastWhole(s: string, sep: char)
    requires sep !in s
    ensures AfterLast(s, sep) == s
  {
  }

  /** The text after the last separator of `x + [sep] + y` is `y` when `y` has no separator. */
  lemma AfterLastOfJoin(x: string, sep: char, y: string)
    requires sep !in y
    ensures AfterLast(x + [sep] + y, sep) == y
    decreases |y|
  {
    var s := x + [sep] + y;
    if y == [] {
    } else {
      var y' := y[..|y| - 1];
      assert s[..|s| - 1] == x + [sep] + y';
      AfterLastOfJoin(x, sep, y');
    }
  }

  // ---------------------------------------------------------------------------
  // numbers

  function Digit(d: nat): char
    requires d < 10
  {
    "0123456789"[d]
  }

  /** The decimal rendering of a natural number, as template interpolation produces it. */
  function NatToString(n: nat): (r: string)
    ensures |r| > 0
    ensures forall i :: 0 <= i < |r| ==> '0' <= r[i] <= '9'
  {
    if n < 10 then [Digit(n)] else NatToString(n / 10) + [Digit(n % 10)]
  }
}
