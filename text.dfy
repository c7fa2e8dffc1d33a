/** Helpers shared by the models: optional values, the truthiness of Python values,
    and the handful of string and path operations the services rely on
    (`str.strip`, `in`, `split(c)[0]`, `replace`, `s[-n:]`, the `wr_id=` regular
    expression, `urljoin` and `Path.with_suffix`). */
module Text {

  datatype Option<T> = None | Some(value: T) {
    function GetOr(default: T): T {
      match this
      case Some(v) => v
      case None => default
    }
  }

  /** The outcome of a computation that may raise a Python exception. */
  datatype Result<T> = Ok(value: T) | Raised(reason: string)

  /** A JSON scalar that may arrive as a string or as an integer (ids do both). */
  datatype Value = Str(s: string) | Num(n: int)

  /** Python truthiness of the values the services test with `if x:` / `not x`. */
  predicate Truthy(v: Value) {
    match v
    case Str(s) => s != ""
    case Num(n) => n != 0
  }

  predicate TruthyStr(o: Option<string>) {
    o.Some? && o.value != ""
  }

  predicate TruthyInt(o: Option<int>) {
    o.Some? && o.value != 0
  }

  predicate TruthyValue(o: Option<Value>) {
    o.Some? && Truthy(o.value)
  }

  // ---------------------------------------------------------------- characters

  predicate IsDigit(c: char) {
    '0' <= c <= '9'
  }

  predicate IsDigits(s: string) {
    forall i :: 0 <= i < |s| ==> IsDigit(s[i])
  }

  /** The characters for which Python's `str.isspace()` holds. */
  predicate IsSpace(c: char) {
    var n := c as int;
    (9 <= n <= 13) || (28 <= n <= 32) || n == 0x85 || n == 0xA0 || n == 0x1680
    || (0x2000 <= n <= 0x200A) || n == 0x2028 || n == 0x2029 || n == 0x202F
    || n == 0x205F || n == 0x3000
  }

  // ---------------------------------------------------------------- strip

  function TrimStart(s: string): string {
    if s != [] && IsSpace(s[0]) then TrimStart(s[1..]) else s
  }

  function TrimEnd(s: string): string {
    if s != [] && IsSpace(s[|s| - 1]) then TrimEnd(s[..|s| - 1]) else s
  }

  /** `TrimStart` drops the leading whitespace and nothing else. */
  lemma {:induction false} TrimStartSpec(s: string)
    ensures var r := TrimStart(s);
            && |r| <= |s| && r == s[|s| - |r|..]
            && (r == [] || !IsSpace(r[0]))
            && forall i :: 0 <= i < |s| - |r| ==> IsSpace(s[i])
  {
    if s != [] && IsSpace(s[0]) {
      var t := s[1..];
      TrimStartSpec(t);
      var r := TrimStart(t);
      assert TrimStart(s) == r;
      assert t[|t| - |r|..] == s[|s| - |r|..];
      forall i | 0 <= i < |s| - |r|
        ensures IsSpace(s[i])
      {
        if i > 0 {
          assert s[i] == t[i - 1];
        }
      }
    }
  }

  /** `TrimEnd` drops the trailing whitespace and nothing else. */
  lemma {:induction false} TrimEndSpec(s: string)
    ensures var r := TrimEnd(s);
            && |r| <= |s| && r == s[..|r|]
            && (r == [] || !IsSpace(r[|r| - 1]))
            && forall i :: |r| <= i < |s| ==> IsSpace(s[i])
  {
    if s != [] && IsSpace(s[|s| - 1]) {
      var t := s[..|s| - 1];
      TrimEndSpec(t);
      var r := TrimEnd(t);
      assert TrimEnd(s) == r;
      assert t[..|r|] == s[..|r|];
      forall i | |r| <= i < |s|
        ensures IsSpace(s[i])
      {
        if i < |s| - 1 {
          assert s[i] == t[i];
        }
      }
    }
  }

  /** Python's `s.strip()`: never longer than `s`, and with no whitespace left at
      either end (`StripSpec` says what is removed). */
  function Strip(s: string): (r: string)
    ensures |r| <= |s|
    ensures r == [] || (!IsSpace(r[0]) && !IsSpace(r[|r| - 1]))
  {
    TrimStartSpec(s);
    TrimEndSpec(TrimStart(s));
    var r := TrimEnd(TrimStart(s));
    assert r != [] ==> r[0] == TrimStart(s)[0];
    r
  }

  /** `r` sits in `s` at `k` with only whitespace before and after it. */
  predicate FramedBySpace(s: string, r: string, k: int) {
    OccursAt(s, r, k)
    && (forall i :: 0 <= i < k ==> IsSpace(s[i]))
    && (forall i :: k + |r| <= i < |s| ==> IsSpace(s[i]))
  }

  /** `Strip` leaves a slice of its input that neither starts nor ends with whitespace,
      and removes only whitespace on either side of it. */
  lemma StripSpec(s: string)
    ensures exists k :: FramedBySpace(s, Strip(s), k)
    ensures Strip(s) == [] || (!IsSpace(Strip(s)[0]) && !IsSpace(Strip(s)[|Strip(s)| - 1]))
  {
    var t := TrimStart(s);
    TrimStartSpec(s);
    TrimEndSpec(t);
    FramedSlice(s, t, TrimEnd(t));
    assert FramedBySpace(s, Strip(s), |s| - |t|);
  }

  /** A prefix `r` of a suffix `t` of `s`, with only whitespace cut on either side,
      is framed by whitespace in `s`. */
  lemma FramedSlice(s: string, t: string, r: string)
    requires |t| <= |s| && t == s[|s| - |t|..] && forall i :: 0 <= i < |s| - |t| ==> IsSpace(s[i])
    requires |r| <= |t| && r == t[..|r|] && forall i :: |r| <= i < |t| ==> IsSpace(t[i])
    ensures FramedBySpace(s, r, |s| - |t|)
  {
    var k := |s| - |t|;
    assert s[k..k + |r|] == r;
    forall i | k + |r| <= i < |s| ensures IsSpace(s[i]) {
      assert s[i] == t[i - k];
    }
  }

  // ---------------------------------------------------------------- substrings

  /** `sub` sits in `s` at index `k`. */
  predicate OccursAt(s: string, sub: string, k: int) {
    0 <= k && k + |sub| <= |s| && s[k..k + |sub|] == sub
  }

  /** Python's `sub in s`. */
  predicate Contains(s: string, sub: string) {
    sub <= s || (s != [] && Contains(s[1..], sub))
  }

  lemma {:induction false} ContainsAt(s: string, sub: string, k: nat)
    requires k + |sub| <= |s| && s[k..k + |sub|] == sub
    ensures Contains(s, sub)
  {
    if k > 0 {
      assert s[1..][k - 1..k - 1 + |sub|] == sub;
      ContainsAt(s[1..], sub, k - 1);
    } else {
      assert sub == s[..|sub|];
    }
  }

  /** Index of the first occurrence of `c` in `s`. */
  function IndexOf(s: string, c: char): (i: nat)
    requires c in s
    ensures i < |s| && s[i] == c && c !in s[..i]
  {
    if s[0] == c then 0 else 1 + IndexOf(s[1..], c)
  }

  /** Python's `s.split(c)[0] if c in s else s`: everything before the first `c`. */
  function PrefixBefore(s: string, c: char): (r: string)
    ensures r <= s && c !in r
    ensures |r| < |s| ==> s[|r|] == c
    ensures c !in s ==> r == s
  {
    if c in s then s[..IndexOf(s, c)] else s
  }

  /** Python's `s.replace(pat, '')` for a two-character pattern: left to right,
      non-overlapping occurrences are removed. */
  function RemoveAll(s: string, pat: string): (r: string)
    requires |pat| == 2
    ensures |r| <= |s|
    ensures (|s| - |r|) % 2 == 0
  {
    if |s| >= 2 && s[..2] == pat then RemoveAll(s[2..], pat)
    else if s == [] then []
    else [s[0]] + RemoveAll(s[1..], pat)
  }

  predicate NoDoubleT(s: string) {
    forall i :: 0 <= i < |s| - 1 ==> !(s[i] == 't' && s[i + 1] == 't')
  }

  lemma {:induction false} RemoveAllKeepsHead(s: string)
    requires s != [] && s[0] != 't'
    ensures RemoveAll(s, "tt") != [] && RemoveAll(s, "tt")[0] == s[0]
  {
  }

  /** What `imdb_id.replace('tt', '')` sends never contains the removed pattern again. */
  lemma {:induction false} RemoveAllTtLeavesNoTt(s: string)
    ensures NoDoubleT(RemoveAll(s, "tt"))
  {
    if |s| >= 2 && s[..2] == "tt" {
      RemoveAllTtLeavesNoTt(s[2..]);
    } else if s != [] {
      RemoveAllTtLeavesNoTt(s[1..]);
      var rest := RemoveAll(s[1..], "tt");
      if s[0] == 't' && |s| >= 2 {
        assert s[1] != 't';
        RemoveAllKeepsHead(s[1..]);
      }
      assert RemoveAll(s, "tt") == [s[0]] + rest;
    }
  }

  // ---------------------------------------------------------------- Python slices

  /** Python's `s[-n:]` for a positive `n`: the last `n` elements, or all of them. */
  function LastN<T>(s: seq<T>, n: nat): (r: seq<T>)
    requires n > 0
    ensures |r| == if |s| <= n then |s| else n
    ensures r == s[|s| - |r|..]
  {
    if |s| <= n then s else s[|s| - n..]
  }

  /** Python's `s[:n]`. */
  function Take<T>(s: seq<T>, n: nat): (r: seq<T>)
    ensures |r| == if |s| <= n then |s| else n
    ensures r == s[..|r|]
  {
    if |s| <= n then s else s[..n]
  }

  // ---------------------------------------------------------------- filtering loops

  /** The loop that appends `f(x)` for every `x` where `f` gives something, in order. */
  function FilterMap<A, B>(f: A -> Option<B>, xs: seq<A>): (ys: seq<B>)
    ensures |ys| <= |xs|
  {
    if xs == [] then []
    else
      var k := |xs| - 1;
      FilterMap(f, xs[..k]) + (if f(xs[k]).Some? then [f(xs[k]).value] else [])
  }

  /** Everything the loop appends comes from an element of the input. */
  lemma {:induction false} FilterMapSound<A, B>(f: A -> Option<B>, xs: seq<A>)
    ensures forall y :: y in FilterMap(f, xs) ==> exists i :: 0 <= i < |xs| && f(xs[i]) == Some(y)
  {
    if xs != [] {
      var k := |xs| - 1;
      FilterMapSound(f, xs[..k]);
      forall y | y in FilterMap(f, xs)
        ensures exists i :: 0 <= i < |xs| && f(xs[i]) == Some(y)
      {
        if y in FilterMap(f, xs[..k]) {
          var i :| 0 <= i < |xs[..k]| && f(xs[..k][i]) == Some(y);
          assert xs[i] == xs[..k][i];
        } else {
          assert f(xs[k]) == Some(y);
        }
      }
    }
  }

  /** Every element for which `f` gives something contributes its value. */
  lemma {:induction false} FilterMapComplete<A, B>(f: A -> Option<B>, xs: seq<A>)
    ensures forall i :: 0 <= i < |xs| && f(xs[i]).Some? ==> f(xs[i]).value in FilterMap(f, xs)
  {
    if xs != [] {
      var k := |xs| - 1;
      FilterMapComplete(f, xs[..k]);
      forall i | 0 <= i < |xs| && f(xs[i]).Some?
        ensures f(xs[i]).value in FilterMap(f, xs)
      {
        if i < k {
          assert xs[..k][i] == xs[i];
        }
      }
    }
  }

  /** The results of a prefix of the input are a prefix of the results. */
  lemma {:induction false} FilterMapPrefix<A, B>(f: A -> Option<B>, xs: seq<A>, i: nat)
    requires i <= |xs|
    ensures FilterMap(f, xs[..i]) <= FilterMap(f, xs)
    decreases |xs|
  {
    if i < |xs| {
      var k := |xs| - 1;
      assert xs[..k][..i] == xs[..i];
      FilterMapPrefix(f, xs[..k], i);
    } else {
      assert xs[..i] == xs;
    }
  }

  /** Order is kept: an element for which `f` gives something contributes its value
      right after the values of the elements before it. */
  lemma FilterMapPosition<A, B>(f: A -> Option<B>, xs: seq<A>)
    ensures forall i :: 0 <= i < |xs| && f(xs[i]).Some? ==>
              |FilterMap(f, xs[..i])| < |FilterMap(f, xs)|
              && FilterMap(f, xs)[|FilterMap(f, xs[..i])|] == f(xs[i]).value
  {
    forall i | 0 <= i < |xs| && f(xs[i]).Some?
      ensures |FilterMap(f, xs[..i])| < |FilterMap(f, xs)|
      ensures FilterMap(f, xs)[|FilterMap(f, xs[..i])|] == f(xs[i]).value
    {
      FilterMapPrefix(f, xs, i + 1);
      assert xs[..i + 1][..i] == xs[..i];
      assert FilterMap(f, xs[..i + 1]) == FilterMap(f, xs[..i]) + [f(xs[i]).value];
    }
  }

  // ---------------------------------------------------------------- first hit

  /** The first non-empty list from position `i` on, or the empty list. */
  function FirstNonEmpty<T>(pages: seq<seq<T>>, i: nat): seq<T>
    requires i <= |pages|
    decreases |pages| - i
  {
    if i == |pages| then []
    else if pages[i] != [] then pages[i]
    else FirstNonEmpty(pages, i + 1)
  }

  /** The first non-empty list is one of the lists, every list before it is empty,
      and the result is empty only when every list is. */
  lemma {:induction false} FirstNonEmptySpec<T>(pages: seq<seq<T>>, i: nat)
    requires i <= |pages|
    ensures var r := FirstNonEmpty(pages, i);
            && (r == [] <==> forall j :: i <= j < |pages| ==> pages[j] == [])
            && (r != [] ==> exists k :: i <= k < |pages| && r == pages[k]
                                       && forall j :: i <= j < k ==> pages[j] == [])
    decreases |pages| - i
  {
    if i < |pages| {
      if pages[i] == [] {
        FirstNonEmptySpec(pages, i + 1);
      }
    }
  }

  // ---------------------------------------------------------------- numbers

  function DigitChar(d: nat): (c: char)
    requires d < 10
    ensures IsDigit(c) && DigitValue(c) == d
  {
    ('0' as int + d) as char
  }

  function DigitValue(c: char): int {
    c as int - '0' as int
  }

  /** The number a string of decimal digits reads as (`int(s)`). */
  function DecimalValue(s: string): nat
    requires IsDigits(s)
  {
    if s == [] then 0 else DecimalValue(s[..|s| - 1]) * 10 + DigitValue(s[|s| - 1])
  }

  /** `str(n)` for a natural number. */
  function NatToString(n: nat): (s: string)
    ensures s != [] && IsDigits(s)
    ensures n < 10 <==> |s| == 1
    ensures n > 0 ==> s[0] != '0'
  {
    if n < 10 then [DigitChar(n)] else NatToString(n / 10) + [DigitChar(n % 10)]
  }

  /** `str(n)` reads back as `n`. */
  lemma {:induction false} NatToStringValue(n: nat)
    ensures DecimalValue(NatToString(n)) == n
  {
    var s := NatToString(n);
    if n >= 10 {
      NatToStringValue(n / 10);
      assert s[..|s| - 1] == NatToString(n / 10);
    } else {
      assert s[..0] == [];
    }
  }

  /** `str(n)` for an integer, with a leading '-' when negative. */
  function IntToString(n: int): (s: string)
    ensures s != []
    ensures n < 0 <==> s[0] == '-'
  {
    if n < 0 then "-" + NatToString(-n) else NatToString(n)
  }

  /** `f"{n:02d}"`: at least two characters, zero-padded after any sign. */
  function Pad2(n: int): (s: string)
    ensures |s| >= 2
    ensures 0 <= n < 10 ==> s == "0" + [DigitChar(n)]
    ensures !(0 <= n < 10) ==> s == IntToString(n)
  {
    if 0 <= n < 10 then "0" + [DigitChar(n)]
    else
      var t := IntToString(n);
      assert n >= 10 ==> |NatToString(n)| > 1;
      assert n < 0 ==> |t| == 1 + |NatToString(-n)|;
      t
  }

  /** For a non-negative `n`, `f"{n:02d}"` is a digit string that reads back as `n`,
      exactly two digits long below 100, with a leading zero only below 10. */
  lemma Pad2Value(n: nat)
    ensures var s := Pad2(n);
            && IsDigits(s) && DecimalValue(s) == n
            && (n < 100 ==> |s| == 2)
            && (s[0] == '0' <==> n < 10)
  {
    var s := Pad2(n);
    if n < 10 {
      var z := s[..1];
      assert z == "0" && z[..0] == [];
      assert DecimalValue(z) == DecimalValue(z[..0]) * 10 + DigitValue(z[0]) == 0;
      assert DecimalValue(s) == DecimalValue(z) * 10 + DigitValue(s[1]);
    } else {
      NatToStringValue(n);
      if n < 100 {
        assert NatToString(n) == NatToString(n / 10) + [DigitChar(n % 10)];
      }
    }
  }

  // ---------------------------------------------------------------- wr_id=(\d+)

  /** The maximal run of digits at the start of `s` (a greedy `\d+`). */
  function DigitRun(s: string): (r: string)
    ensures r <= s && IsDigits(r)
    ensures |r| < |s| ==> !IsDigit(s[|r|])
  {
    if s != [] && IsDigit(s[0]) then [s[0]] + DigitRun(s[1..]) else []
  }

  /** `re.search(key + r'(\d+)', s).group(1)`: the digits after the first occurrence
      of `key` that is followed by at least one digit, or None when there is none. */
  function DigitsAfter(s: string, key: string): (r: Option<string>)
    ensures r.Some? ==> r.value != [] && IsDigits(r.value) && Contains(s, key + r.value)
  {
    if |s| > |key| && key <= s && IsDigit(s[|key|]) then
      var d := DigitRun(s[|key|..]);
      assert (key + d) <= s;
      Some(d)
    else if s == [] then None
    else
      var r := DigitsAfter(s[1..], key);
      r
  }

  /** An occurrence of `key` followed by a digit somewhere in `s`: what makes
      `re.search(key + r'\d+', s)` succeed. */
  ghost predicate HasKeyDigit(s: string, key: string) {
    exists k :: KeyDigitAt(s, key, k)
  }

  predicate KeyDigitAt(s: string, key: string, k: int) {
    OccursAt(s, key, k) && k + |key| < |s| && IsDigit(s[k + |key|])
  }

  lemma {:induction false} DigitsAfterFound(s: string, key: string)
    ensures DigitsAfter(s, key).Some? <==> HasKeyDigit(s, key)
  {
    if |s| > |key| && key <= s && IsDigit(s[|key|]) {
      assert KeyDigitAt(s, key, 0);
    } else if s == [] {
    } else {
      DigitsAfterFound(s[1..], key);
      if HasKeyDigit(s, key) {
        var k :| KeyDigitAt(s, key, k);
        if k != 0 {
          assert s[1..][k - 1..k - 1 + |key|] == key;
          assert KeyDigitAt(s[1..], key, k - 1);
        }
      }
      if HasKeyDigit(s[1..], key) {
        var k :| KeyDigitAt(s[1..], key, k);
        assert s[k + 1..k + 1 + |key|] == key;
        assert KeyDigitAt(s, key, k + 1);
      }
    }
  }

  /** An occurrence past the first character is one of the tail. */
  lemma KeyDigitShift(s: string, key: string, j: int)
    requires s != [] && j >= 1
    ensures KeyDigitAt(s, key, j) <==> KeyDigitAt(s[1..], key, j - 1)
  {
    if j + |key| <= |s| {
      assert s[1..][j - 1..j - 1 + |key|] == s[j..j + |key|];
    }
  }

  /** `d` is the whole run of digits after the first `key` in `s` that is followed by a
      digit: the leftmost match, with a greedy `\d+` (`DigitRun` stops only at a
      non-digit or at the end). */
  ghost predicate IsFirstDigitRun(s: string, key: string, d: string) {
    exists i :: KeyDigitAt(s, key, i)
                && (forall j :: 0 <= j < i ==> !KeyDigitAt(s, key, j))
                && d == DigitRun(s[i + |key|..])
  }

  /** The digits captured are the first digit run after `key`. */
  lemma {:induction false} DigitsAfterFirstRun(s: string, key: string)
    ensures var r := DigitsAfter(s, key);
            r.Some? ==> IsFirstDigitRun(s, key, r.value)
  {
    if |s| > |key| && key <= s && IsDigit(s[|key|]) {
      assert KeyDigitAt(s, key, 0);
    } else if s != [] {
      var t := s[1..];
      var r := DigitsAfter(t, key);
      assert DigitsAfter(s, key) == r;
      DigitsAfterFirstRun(t, key);
      if r.Some? {
        var i :| KeyDigitAt(t, key, i)
                 && (forall j :: 0 <= j < i ==> !KeyDigitAt(t, key, j))
                 && r.value == DigitRun(t[i + |key|..]);
        assert !KeyDigitAt(s, key, 0);
        FirstRunShift(s, key, i, r.value);
      }
    }
  }

  /** The first digit run of the tail, when the head does not start one, is the first
      of the whole string. */
  lemma FirstRunShift(s: string, key: string, i: int, d: string)
    requires s != [] && 0 <= i && !KeyDigitAt(s, key, 0)
    requires KeyDigitAt(s[1..], key, i) && forall j :: 0 <= j < i ==> !KeyDigitAt(s[1..], key, j)
    requires d == DigitRun(s[1..][i + |key|..])
    ensures IsFirstDigitRun(s, key, d)
  {
    KeyDigitShift(s, key, i + 1);
    assert s[1..][i + |key|..] == s[i + 1 + |key|..];
    forall j | 0 <= j < i + 1
      ensures !KeyDigitAt(s, key, j)
    {
      if j > 0 {
        KeyDigitShift(s, key, j);
      }
    }
  }

  // ---------------------------------------------------------------- URLs and paths

  predicate IsAsciiLetter(c: char) {
    'a' <= c <= 'z' || 'A' <= c <= 'Z'
  }

  predicate IsSchemeChar(c: char) {
    IsAsciiLetter(c) || IsDigit(c) || c == '+' || c == '-' || c == '.'
  }

  /** `urlsplit` finds a scheme: the text before the first ':' starts with a letter
      and holds only letters, digits, '+', '-' and '.'. */
  predicate HasScheme(href: string) {
    ':' in href
    && var i := IndexOf(href, ':');
    i > 0 && IsAsciiLetter(href[0]) && forall j :: 0 <= j < i ==> IsSchemeChar(href[j])
  }

  /** `s.split(c)`. */
  function Split(s: string, c: char): (parts: seq<string>)
    ensures |parts| >= 1
    decreases |s|
  {
    if c in s then
      var i := IndexOf(s, c);
      [s[..i]] + Split(s[i + 1..], c)
    else [s]
  }

  /** `c.join(parts)`. */
  function Join(parts: seq<string>, c: char): string {
    if parts == [] then ""
    else if |parts| == 1 then parts[0]
    else parts[0] + [c] + Join(parts[1..], c)
  }

  /** Joining what was split gives the text back. */
  lemma {:induction false} JoinSplit(s: string, c: char)
    ensures Join(Split(s, c), c) == s
    decreases |s|
  {
    if c in s {
      var i := IndexOf(s, c);
      var rest := Split(s[i + 1..], c);
      var parts := [s[..i]] + rest;
      assert Split(s, c) == parts;
      assert parts[1..] == rest;
      JoinSplit(s[i + 1..], c);
      assert Join(parts, c) == s[..i] + [c] + s[i + 1..];
      assert s == s[..i] + [c] + s[i + 1..];
    }
  }

  /** `filter(None, parts)`: the non-empty segments. */
  function NonEmpty(parts: seq<string>): (r: seq<string>)
    ensures |r| <= |parts|
  {
    if parts == [] then []
    else (if parts[0] == "" then [] else [parts[0]]) + NonEmpty(parts[1..])
  }

  /** Index of the first '?' or '#': where the path of a relative reference ends. */
  function PathEnd(h: string): (k: nat)
    ensures k <= |h|
    ensures k < |h| ==> h[k] == '?' || h[k] == '#'
  {
    if h == [] || h[0] == '?' || h[0] == '#' then 0 else 1 + PathEnd(h[1..])
  }

  /** What `urlunsplit` writes after the path for the text `rest` that starts at the
      first '?' or '#': the query and the fragment, each only when it is non-empty. */
  function QueryAndFragment(rest: string): string {
    var f := if '#' in rest then IndexOf(rest, '#') else |rest|;
    var query := if rest != [] && rest[0] == '?' && f > 0 then rest[1..f] else "";
    var fragment := if f < |rest| then rest[f + 1..] else "";
    (if query != "" then "?" + query else "") + (if fragment != "" then "#" + fragment else "")
  }

  /** The segments `urljoin` resolves on a base whose own path is empty: a rooted path
      split at '/', a relative one after the base's empty root segment with its empty
      inner segments dropped. */
  function PathSegments(path: string): (segs: seq<string>)
    requires path != ""
    ensures |segs| >= 1
  {
    var parts := Split(path, '/');
    if path[0] == '/' then parts
    else [""] + NonEmpty(parts[..|parts| - 1]) + [parts[|parts| - 1]]
  }

  /** The dot-segment removal of `urljoin`: "." is skipped and ".." drops the last kept
      segment, if there is one. */
  function RemoveDots(kept: seq<string>, segs: seq<string>): seq<string>
    decreases |segs|
  {
    if segs == [] then kept
    else if segs[0] == ".." then RemoveDots(if kept == [] then [] else kept[..|kept| - 1], segs[1..])
    else if segs[0] == "." then RemoveDots(kept, segs[1..])
    else RemoveDots(kept + [segs[0]], segs[1..])
  }

  /** The path `urljoin` writes for resolved segments: the dots removed, a trailing '/'
      after a final "." or "..", '/' for nothing, and always rooted. */
  function JoinResolved(segs: seq<string>): (p: string)
    requires |segs| >= 1
    ensures p != [] && p[0] == '/'
  {
    var last := segs[|segs| - 1];
    var kept := RemoveDots([], segs) + (if last == "." || last == ".." then [""] else []);
    var joined := Join(kept, '/');
    if joined == "" then "/" else if joined[0] != '/' then "/" + joined else joined
  }

  /** The path `urljoin` gives for a non-empty relative or rooted path. */
  function ResolvedPath(path: string): (p: string)
    requires path != ""
    ensures p != [] && p[0] == '/'
  {
    JoinResolved(PathSegments(path))
  }

  /** `urljoin(base, href)` for a base that is a bare https origin such as
      "https://host": an empty href gives the base; an href with a scheme is kept; a
      network-path href takes the base's scheme; otherwise the href's path is resolved
      against the base's empty path and its query and fragment follow. */
  function UrlJoin(base: string, href: string): (r: string)
    ensures href == "" ==> r == base
    ensures HasScheme(href) ==> r == href
    ensures href != "" && !HasScheme(href) && "//" <= href ==> r == "https:" + href
    ensures href != "" && !HasScheme(href) && !("//" <= href) ==> base <= r
  {
    if href == "" then base
    else if HasScheme(href) then href
    else if "//" <= href then "https:" + href
    else
      var k := PathEnd(href);
      if k == 0 then base + QueryAndFragment(href)
      else base + ResolvedPath(href[..k]) + QueryAndFragment(href[k..])
  }

  /** Absolute http and https links are kept as they are. */
  lemma UrlJoinAbsolute(base: string, href: string)
    requires "http://" <= href || "https://" <= href
    ensures UrlJoin(base, href) == href
  {
    var i := if "http://" <= href then 4 else 5;
    assert href[i] == ':';
    assert forall j :: 0 <= j < i ==> href[j] in "https";
    assert IndexOf(href, ':') == i;
    assert HasScheme(href);
  }

  /** A path segment that resolution leaves alone. */
  predicate PlainSegment(seg: string) {
    seg != "" && seg != "." && seg != ".." && '?' !in seg && '#' !in seg && ':' !in seg
  }

  /** A relative path of plain segments, such as "bbs/board.php". */
  predicate PlainPath(p: string) {
    var parts := Split(p, '/');
    forall i :: 0 <= i < |parts| ==> PlainSegment(parts[i])
  }

  /** A query with no fragment, or nothing. */
  predicate PlainQuery(q: string) {
    q == "" || (|q| > 1 && q[0] == '?' && '#' !in q)
  }

  lemma {:induction false} NonEmptyKeeps(parts: seq<string>)
    requires forall i :: 0 <= i < |parts| ==> parts[i] != ""
    ensures NonEmpty(parts) == parts
  {
    if parts != [] {
      NonEmptyKeeps(parts[1..]);
    }
  }

  lemma {:induction false} RemoveDotsKeeps(kept: seq<string>, segs: seq<string>)
    requires forall i :: 0 <= i < |segs| ==> segs[i] != "." && segs[i] != ".."
    ensures RemoveDots(kept, segs) == kept + segs
    decreases |segs|
  {
    if segs != [] {
      RemoveDotsKeeps(kept + [segs[0]], segs[1..]);
      assert kept + [segs[0]] + segs[1..] == kept + segs;
    }
  }

  /** The characters of a plain path: no '?', '#' or ':'. */
  lemma {:induction false} PlainPathChars(p: string)
    requires PlainPath(p)
    ensures forall j :: 0 <= j < |p| ==> p[j] != '?' && p[j] != '#' && p[j] != ':'
    decreases |p|
  {
    var parts := Split(p, '/');
    if '/' in p {
      var i := IndexOf(p, '/');
      var tail := p[i + 1..];
      assert parts[0] == p[..i] && parts[1..] == Split(tail, '/');
      assert PlainSegment(parts[0]);
      assert PlainPath(tail) by {
        forall k | 0 <= k < |Split(tail, '/')| ensures PlainSegment(Split(tail, '/')[k]) {
          assert Split(tail, '/')[k] == parts[k + 1];
        }
      }
      PlainPathChars(tail);
      forall j | 0 <= j < |p| ensures p[j] != '?' && p[j] != '#' && p[j] != ':' {
        if j < i {
          assert p[j] == parts[0][j];
        } else if j > i {
          assert p[j] == tail[j - i - 1];
        }
      }
    } else {
      assert parts[0] == p;
      assert PlainSegment(p);
    }
  }

  /** A plain path does not start with '/'. */
  lemma PlainPathUnrooted(p: string)
    requires p != "" && PlainPath(p)
    ensures p[0] != '/'
  {
    var parts := Split(p, '/');
    assert PlainSegment(parts[0]);
    if '/' in p {
      var i := IndexOf(p, '/');
      assert parts[0] == p[..i];
      assert p[0] == p[..i][0];
    }
  }

  /** Segments that need no resolution are joined back as they were, under the root. */
  lemma JoinResolvedKeeps(parts: seq<string>)
    requires parts != []
    requires forall i :: 0 <= i < |parts| ==> parts[i] != "." && parts[i] != ".."
    ensures JoinResolved([""] + parts) == "/" + Join(parts, '/')
  {
    var segs := [""] + parts;
    RemoveDotsKeeps([], segs);
    assert [] + segs == segs;
    var last := segs[|segs| - 1];
    assert last == parts[|parts| - 1];
    var kept := RemoveDots([], segs) + (if last == "." || last == ".." then [""] else []);
    assert kept == segs;
    JoinRooted(parts);
  }

  lemma JoinRooted(parts: seq<string>)
    requires parts != []
    ensures Join([""] + parts, '/') == "/" + Join(parts, '/')
  {
    var segs := [""] + parts;
    assert segs[0] == "" && segs[1..] == parts;
  }

  /** The segments of a plain path: the root, then the path's own segments. */
  lemma PlainPathSegments(p: string)
    requires p != "" && PlainPath(p)
    ensures PathSegments(p) == [""] + Split(p, '/')
    ensures PathSegments("/" + p) == [""] + Split(p, '/')
  {
    PlainPathUnrooted(p);
    var parts := Split(p, '/');
    var n := |parts|;
    NonEmptyKeeps(parts[..n - 1]);
    RootedAssociate(parts);
    var rooted := "/" + p;
    assert IndexOf(rooted, '/') == 0;
    assert rooted[..0] == "" && rooted[1..] == p;
    assert Split(rooted, '/') == [""] + parts;
  }

  /** A plain path resolves to itself under the root. */
  lemma ResolvedPlainPath(p: string)
    requires p != "" && PlainPath(p)
    ensures ResolvedPath(p) == "/" + p
    ensures ResolvedPath("/" + p) == "/" + p
  {
    PlainPathSegments(p);
    var parts := Split(p, '/');
    JoinSplit(p, '/');
    JoinResolvedKeeps(parts);
  }

  lemma {:induction false} PathEndAfter(p: string, q: string)
    requires forall j :: 0 <= j < |p| ==> p[j] != '?' && p[j] != '#'
    requires q == [] || q[0] == '?' || q[0] == '#'
    ensures PathEnd(p + q) == |p|
    decreases |p|
  {
    if p != [] {
      assert (p + q)[1..] == p[1..] + q;
      PathEndAfter(p[1..], q);
    } else {
      assert p + q == q;
    }
  }

  /** A query without a fragment is written back as it is. */
  lemma QueryKept(q: string)
    requires PlainQuery(q)
    ensures QueryAndFragment(q) == q
  {
    if q != "" {
      assert q == "?" + q[1..];
    }
  }

  /** A reference whose text before the query holds no ':' has no scheme. */
  lemma NoSchemeBeforeQuery(p: string, q: string)
    requires forall j :: 0 <= j < |p| ==> p[j] != ':'
    requires PlainQuery(q)
    ensures !HasScheme(p + q)
  {
    var h := p + q;
    if ':' in h {
      var i := IndexOf(h, ':');
      assert i >= |p|;
      assert h[|p|] == '?';
      assert !IsSchemeChar(h[|p|]);
    }
  }

  /** A path (without '?' or '#') followed by a plain query: the path is resolved and
      the query follows unchanged. */
  lemma UrlJoinPathQuery(base: string, path: string, q: string)
    requires path != "" && !("//" <= path + q)
    requires forall j :: 0 <= j < |path| ==> path[j] != '?' && path[j] != '#' && path[j] != ':'
    requires PlainQuery(q)
    ensures UrlJoin(base, path + q) == base + ResolvedPath(path) + q
  {
    var h := path + q;
    NoSchemeBeforeQuery(path, q);
    PathEndAfter(path, q);
    assert h[..|path|] == path && h[|path|..] == q;
    QueryKept(q);
  }

  /** A plain relative path, with an optional query, comes out unchanged after the
      base and '/'. */
  lemma UrlJoinPlain(base: string, p: string, q: string)
    requires p != "" && PlainPath(p) && PlainQuery(q)
    ensures UrlJoin(base, p + q) == base + "/" + p + q
  {
    PlainPathChars(p);
    PlainPathUnrooted(p);
    ResolvedPlainPath(p);
    UrlJoinRelativeQuery(base, p, q);
  }

  /** The same path rooted at '/' gives the same link. */
  lemma UrlJoinPlainRooted(base: string, p: string, q: string)
    requires p != "" && PlainPath(p) && PlainQuery(q)
    ensures UrlJoin(base, "/" + p + q) == base + "/" + p + q
  {
    assert UrlJoin(base, "/" + p + q) == base + ResolvedPath("/" + p) + q by {
      PlainPathChars(p);
      PlainPathUnrooted(p);
      UrlJoinRootedQuery(base, p, q);
    }
    ResolvedPlainPath(p);
    ConcatAfterRoot(base, ResolvedPath("/" + p), p, q);
  }

  lemma UrlJoinRelativeQuery(base: string, p: string, q: string)
    requires p != "" && p[0] != '/' && PlainQuery(q)
    requires forall j :: 0 <= j < |p| ==> p[j] != '?' && p[j] != '#' && p[j] != ':'
    requires ResolvedPath(p) == "/" + p
    ensures UrlJoin(base, p + q) == base + "/" + p + q
  {
    assert !("//" <= p + q) by {
      assert (p + q)[0] == p[0];
    }
    UrlJoinPathQuery(base, p, q);
    ConcatAfterRoot(base, ResolvedPath(p), p, q);
  }

  lemma ConcatAfterRoot(base: string, r: string, p: string, q: string)
    requires r == "/" + p
    ensures base + r + q == base + "/" + p + q
  {
  }

  lemma UrlJoinRootedQuery(base: string, p: string, q: string)
    requires p != "" && p[0] != '/' && PlainQuery(q)
    requires forall j :: 0 <= j < |p| ==> p[j] != '?' && p[j] != '#' && p[j] != ':'
    ensures UrlJoin(base, "/" + p + q) == base + ResolvedPath("/" + p) + q
  {
    var r := "/" + p;
    assert r + q == "/" + p + q;
    assert (r + q)[1] == p[0];
    forall j | 0 <= j < |r| ensures r[j] != '?' && r[j] != '#' && r[j] != ':' {
      if j > 0 {
        assert r[j] == p[j - 1];
      }
    }
    UrlJoinPathQuery(base, r, q);
  }

  /** A leading "./" changes nothing: `urljoin` drops the "." segment. */
  lemma UrlJoinDotSlash(base: string, h: string)
    requires h != "" && h[0] != '/' && h[0] != '?' && h[0] != '#' && !HasScheme(h)
    ensures UrlJoin(base, "./" + h) == UrlJoin(base, h)
  {
    var k := PathEnd(h);
    assert k > 0;
    UrlJoinRelative(base, h, k);
    DotSlashJoin(base, h, k);
  }

  lemma DotSlashJoin(base: string, h: string, k: nat)
    requires h != "" && h[0] != '/' && h[0] != '?' && h[0] != '#' && k == PathEnd(h) && k > 0
    ensures UrlJoin(base, "./" + h) == base + ResolvedPath(h[..k]) + QueryAndFragment(h[k..])
  {
    var d := "./" + h;
    DotSlashSlices(h, k);
    DotSlashResolved(h[..k]);
    assert !HasScheme(d) by {
      assert !IsAsciiLetter(d[0]);
    }
    DotSlashPathEnd(h);
    UrlJoinRelative(base, d, k + 2);
  }

  /** Slice facts about "./" + h, kept apart from the join terms so that the solver sees them alone. */
  lemma DotSlashSlices(h: string, k: nat)
    requires k <= |h|
    ensures ("./" + h)[k + 2..] == h[k..] && ("./" + h)[..k + 2] == "./" + h[..k]
  {
  }

  /** A relative href with a non-empty path: the resolved path, then the query and
      fragment. */
  lemma UrlJoinRelative(base: string, href: string, k: nat)
    requires href != "" && href[0] != '/' && !HasScheme(href) && k == PathEnd(href) && k > 0
    ensures UrlJoin(base, href) == base + ResolvedPath(href[..k]) + QueryAndFragment(href[k..])
  {
  }

  lemma DotSlashPathEnd(h: string)
    ensures PathEnd("./" + h) == PathEnd(h) + 2
  {
    assert ("./" + h)[1..] == "/" + h;
    assert ("/" + h)[1..] == h;
  }

  /** A "." segment after the root changes nothing. */
  lemma JoinResolvedDot(rest: seq<string>)
    requires rest != []
    ensures JoinResolved([""] + (["."] + rest)) == JoinResolved([""] + rest)
  {
    var segs := [""] + (["."] + rest);
    var plain := [""] + rest;
    assert segs[0] == "" && segs[1..] == ["."] + rest && [] + [""] == [""];
    assert (["."] + rest)[1..] == rest;
    assert RemoveDots([], segs) == RemoveDots([""], rest);
    assert plain[0] == "" && plain[1..] == rest;
    assert RemoveDots([], plain) == RemoveDots([""], rest);
    assert segs[|segs| - 1] == plain[|plain| - 1];
  }

  /** The "." segment in front of a relative path is dropped. */
  lemma DotSlashResolved(path: string)
    requires path != "" && path[0] != '/'
    ensures ResolvedPath("./" + path) == ResolvedPath(path)
  {
    var parts := Split(path, '/');
    var n := |parts|;
    var rest := NonEmpty(parts[..n - 1]) + [parts[n - 1]];
    var dotted, plain := PathSegments("./" + path), PathSegments(path);
    assert dotted == [""] + (["."] + rest) by {
      DotSlashSegments(path, parts);
    }
    assert plain == [""] + rest by {
      assert plain == [""] + NonEmpty(parts[..n - 1]) + [parts[n - 1]];
      AssociateRoot(NonEmpty(parts[..n - 1]), [parts[n - 1]]);
    }
    SameResolution(dotted, plain, rest);
  }

  lemma SameResolution(dotted: seq<string>, plain: seq<string>, rest: seq<string>)
    requires rest != [] && dotted == [""] + (["."] + rest) && plain == [""] + rest
    ensures JoinResolved(dotted) == JoinResolved(plain)
  {
    JoinResolvedDot(rest);
  }

  lemma DotSlashSegments(path: string, parts: seq<string>)
    requires parts == Split(path, '/')
    ensures PathSegments("./" + path)
            == [""] + (["."] + (NonEmpty(parts[..|parts| - 1]) + [parts[|parts| - 1]]))
  {
    var n := |parts|;
    var x := ["."] + parts;
    assert PathSegments("./" + path) == [""] + NonEmpty(x[..n]) + [x[n]] by {
      SplitAfterDot(path);
      assert ("./" + path)[0] == '.';
    }
    assert NonEmpty(x[..n]) == ["."] + NonEmpty(parts[..n - 1]) by {
      assert x[..n] == ["."] + parts[..n - 1];
    }
    assert x[n] == parts[n - 1];
    Associate(["."], NonEmpty(parts[..n - 1]), [parts[n - 1]]);
  }

  /** Sequence associativity under the root segment, kept apart so that the solver sees it alone. */
  lemma AssociateRoot(b: seq<string>, c: seq<string>)
    ensures [""] + b + c == [""] + (b + c)
  {
  }

  /** Sequence associativity under the root segment, kept apart so that the solver sees it alone. */
  lemma Associate(a: seq<string>, b: seq<string>, c: seq<string>)
    ensures [""] + (a + b) + c == [""] + (a + (b + c))
  {
  }

  /** Splitting "./" + p yields "." followed by the segments of p. */
  lemma SplitAfterDot(p: string)
    ensures Split("./" + p, '/') == ["."] + Split(p, '/')
  {
    var d := "./" + p;
    assert d[..1] == "." && d[1] == '/' && d[2..] == p;
    assert IndexOf(d, '/') == 1;
  }

  /** A plain link written relative to the current directory ("./bbs/board.php?…")
      joins to the same address as the plain link. */
  lemma UrlJoinDotSlashPlain(base: string, p: string, q: string)
    requires p != "" && PlainPath(p) && PlainQuery(q)
    ensures UrlJoin(base, "./" + p + q) == base + "/" + p + q
  {
    UrlJoinPlain(base, p, q);
    assert "./" + (p + q) == "./" + p + q;
    DotSlashApplies(base, p, q);
  }

  lemma DotSlashApplies(base: string, p: string, q: string)
    requires p != "" && PlainPath(p) && PlainQuery(q)
    ensures UrlJoin(base, "./" + (p + q)) == UrlJoin(base, p + q)
  {
    PlainPathChars(p);
    PlainPathUnrooted(p);
    NoSchemeBeforeQuery(p, q);
    assert (p + q)[0] == p[0];
    UrlJoinDotSlash(base, p + q);
  }

  /** A ".." segment directly under the root is dropped. */
  lemma DotDotResolved(p: string)
    requires p != "" && PlainPath(p)
    ensures ResolvedPath("../" + p) == "/" + p
  {
    PlainPathUnrooted(p);
    DotDotSegments(p, Split(p, '/'));
    JoinSplit(p, '/');
    DotDotRemoved(Split(p, '/'), p);
  }

  lemma DotDotSegments(p: string, parts: seq<string>)
    requires parts == Split(p, '/')
    requires forall i :: 0 <= i < |parts| ==> parts[i] != ""
    ensures PathSegments("../" + p) == [""] + ([".."] + parts)
  {
    var n := |parts|;
    var x := [".."] + parts;
    assert PathSegments("../" + p) == [""] + NonEmpty(x[..n]) + [x[n]] by {
      SplitAfterDotDot(p);
      assert ("../" + p)[0] == '.';
    }
    assert NonEmpty(x[..n]) == [".."] + parts[..n - 1] by {
      assert x[..n] == [".."] + parts[..n - 1];
      NonEmptyKeeps(parts[..n - 1]);
    }
    assert x[n] == parts[n - 1];
    SegmentsAssociate(parts);
  }

  /** Sequence associativity under the root segment, kept apart so that the solver sees it alone. */
  lemma RootedAssociate(parts: seq<string>)
    requires parts != []
    ensures [""] + parts[..|parts| - 1] + [parts[|parts| - 1]] == [""] + parts
  {
    assert parts[..|parts| - 1] + [parts[|parts| - 1]] == parts;
  }

  /** Sequence associativity under the root segment, kept apart so that the solver sees it alone. */
  lemma SegmentsAssociate(parts: seq<string>)
    requires parts != []
    ensures [""] + ([".."] + parts[..|parts| - 1]) + [parts[|parts| - 1]] == [""] + ([".."] + parts)
  {
    assert parts[..|parts| - 1] + [parts[|parts| - 1]] == parts;
  }

  /** Splitting "../" + p yields ".." followed by the segments of p. */
  lemma SplitAfterDotDot(p: string)
    ensures Split("../" + p, '/') == [".."] + Split(p, '/')
  {
    var d := "../" + p;
    assert d[..2] == ".." && d[2] == '/' && d[3..] == p;
    assert IndexOf(d, '/') == 2;
  }

  lemma DotDotRemoved(parts: seq<string>, p: string)
    requires parts != []
    requires forall i :: 0 <= i < |parts| ==> parts[i] != "." && parts[i] != ".."
    requires Join(parts, '/') == p && p != "" && p[0] != '/'
    ensures JoinResolved([""] + ([".."] + parts)) == "/" + p
  {
    var segs := [""] + ([".."] + parts);
    assert segs[|segs| - 1] == parts[|parts| - 1];
    assert RemoveDots([], segs) == parts by {
      RootDotDotRemoved(parts);
      RemoveDotsKeeps([], parts);
      assert [] + parts == parts;
    }
    JoinResolvedUnrooted(segs, parts, p);
  }

  /** Segments that resolve to `kept`, joined as a path that is not rooted, are
      written under the root. */
  lemma JoinResolvedUnrooted(segs: seq<string>, kept: seq<string>, p: string)
    requires |segs| >= 1 && segs[|segs| - 1] != "." && segs[|segs| - 1] != ".."
    requires RemoveDots([], segs) == kept && Join(kept, '/') == p && p != "" && p[0] != '/'
    ensures JoinResolved(segs) == "/" + p
  {
    assert RemoveDots([], segs) + [] == kept;
  }

  lemma RootDotDotRemoved(parts: seq<string>)
    ensures RemoveDots([], [""] + ([".."] + parts)) == RemoveDots([], parts)
  {
    var segs := [""] + ([".."] + parts);
    assert segs[0] == "" && segs[1..] == [".."] + parts && [] + [""] == [""];
    assert ([".."] + parts)[1..] == parts;
    assert RemoveDots([""], [".."] + parts) == RemoveDots([], parts);
  }

  /** A plain link written relative to the parent of the root joins as the plain link:
      `urljoin` ignores a ".." that would climb above the root. */
  lemma UrlJoinDotDotPlain(base: string, p: string, q: string)
    requires p != "" && PlainPath(p) && PlainQuery(q)
    ensures UrlJoin(base, "../" + p + q) == base + "/" + p + q
  {
    PlainPathChars(p);
    DotDotResolved(p);
    var d := "../" + p;
    forall j | 0 <= j < |d| ensures d[j] != '?' && d[j] != '#' && d[j] != ':' {
      if j >= 3 {
        assert d[j] == p[j - 3];
      }
    }
    assert !("//" <= d + q) by {
      assert (d + q)[0] == '.';
    }
    UrlJoinPathQuery(base, d, q);
    ConcatAfterRoot(base, ResolvedPath(d), p, q);
  }

  /** Index of the last occurrence of `c`, or -1. */
  function LastIndexOf(s: string, c: char): (i: int)
    ensures -1 <= i < |s|
    ensures i >= 0 ==> s[i] == c
    ensures forall j :: i < j < |s| ==> s[j] != c
  {
    if s == [] then -1
    else if s[|s| - 1] == c then |s| - 1
    else LastIndexOf(s[..|s| - 1], c)
  }

  /** `Path(p).name`: the text after the last '/'. */
  function BaseName(p: string): (r: string)
    ensures |r| <= |p| && r == p[|p| - |r|..] && '/' !in r
  {
    p[LastIndexOf(p, '/') + 1..]
  }

  /** `Path(p).suffix`: from the last '.' of the name, when that dot is neither the
      first nor the last character of the name. */
  function Suffix(name: string): (r: string)
    ensures |r| <= |name| && r == name[|name| - |r|..]
    ensures r != [] ==> r[0] == '.' && |r| >= 2 && |r| < |name|
  {
    var i := LastIndexOf(name, '.');
    if 0 < i < |name| - 1 then name[i..] else ""
  }

  /** `Path(p).with_suffix(suffix)`: the final suffix of the name replaced (or the
      suffix appended when there is none); None where Python raises ValueError
      because the name is empty. */
  function WithSuffix(p: string, suffix: string): (r: Option<string>)
    ensures r.None? <==> BaseName(p) == ""
    ensures r.Some? ==> exists k :: 0 <= k <= |p| && r.value == p[..k] + suffix
  {
    var name := BaseName(p);
    if name == "" then None
    else
      var oldSuffix := Suffix(name);
      Some(p[..|p| - |oldSuffix|] + suffix)
  }

  /** A video file `dir/stem.ext` gets its subtitle at `dir/stem` + the new suffix. */
  lemma WithSuffixReplacesExtension(dir: string, stem: string, ext: string, suffix: string)
    requires stem != [] && '/' !in stem && '/' !in ext && '.' !in ext && ext != []
    ensures WithSuffix(dir + "/" + stem + "." + ext, suffix) == Some(dir + "/" + stem + suffix)
  {
    assert dir + "/" + stem + "." + ext == dir + "/" + (stem + "." + ext);
    WithSuffixOfName(dir, stem, ext, suffix);
  }

  /** The same, for the path written as `dir` + "/" + its file name. */
  lemma WithSuffixOfName(dir: string, stem: string, ext: string, suffix: string)
    requires stem != [] && '/' !in stem && '/' !in ext && '.' !in ext && ext != []
    ensures WithSuffix(dir + "/" + (stem + "." + ext), suffix) == Some(dir + "/" + stem + suffix)
  {
    var tail := stem + "." + ext;
    var p := dir + "/" + tail;
    BaseNameAfterSlash(dir, tail);
    SuffixAfterDot(stem, ext);
    ExtensionSlices(dir, stem, ext);
    WithSuffixOf(p, suffix, "." + ext, dir + "/" + stem);
  }

  /** A name without a suffix (no '.' in it) gets the new suffix appended. */
  lemma WithSuffixAppends(dir: string, name: string, suffix: string)
    requires name != [] && '/' !in name && '.' !in name
    ensures WithSuffix(dir + "/" + name, suffix) == Some(dir + "/" + name + suffix)
  {
    var p := dir + "/" + name;
    BaseNameAfterSlash(dir, name);
    assert LastIndexOf(name, '.') == -1;
    assert Suffix(name) == "";
    assert p[..|p| - |""|] == p;
    WithSuffixOf(p, suffix, "", p);
  }

  /** Slice facts about dir/stem.ext, kept apart from the `WithSuffix` terms so that the solver sees them alone. */
  lemma ExtensionSlices(dir: string, stem: string, ext: string)
    ensures var p := dir + "/" + (stem + "." + ext);
            dir + "/" + stem + "." + ext == p && p[..|p| - |"." + ext|] == dir + "/" + stem
  {
  }

  /** `WithSuffix` unfolded once for a known old suffix and the path before it; a
      proof step kept apart from the slice facts. */
  lemma WithSuffixOf(p: string, suffix: string, oldSuffix: string, stemPath: string)
    requires BaseName(p) != "" && Suffix(BaseName(p)) == oldSuffix
    requires |oldSuffix| <= |p| && p[..|p| - |oldSuffix|] == stemPath
    ensures WithSuffix(p, suffix) == Some(stemPath + suffix)
  {
  }

  /** The name of dir/tail is tail when tail has no '/'. */
  lemma BaseNameAfterSlash(dir: string, tail: string)
    requires '/' !in tail
    ensures BaseName(dir + "/" + tail) == tail
  {
    var p := dir + "/" + tail;
    forall j | |dir| < j < |p| ensures p[j] != '/' {
      assert p[j] == tail[j - |dir| - 1];
    }
    LastIndexOfIs(p, '/', |dir|);
  }

  /** The suffix of stem.ext is ".ext" when ext has no '.'. */
  lemma SuffixAfterDot(stem: string, ext: string)
    requires stem != [] && ext != [] && '.' !in ext
    ensures Suffix(stem + "." + ext) == "." + ext
  {
    var name := stem + "." + ext;
    forall j | |stem| < j < |name| ensures name[j] != '.' {
      assert name[j] == ext[j - |stem| - 1];
    }
    LastIndexOfIs(name, '.', |stem|);
  }

  lemma {:induction false} LastIndexOfIs(s: string, c: char, i: nat)
    requires i < |s| && s[i] == c
    requires forall j :: i < j < |s| ==> s[j] != c
    ensures LastIndexOf(s, c) == i
  {
    if i < |s| - 1 {
      assert s[..|s| - 1][i] == c;
      LastIndexOfIs(s[..|s| - 1], c, i);
    }
  }
}
