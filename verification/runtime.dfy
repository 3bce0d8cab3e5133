/** The pieces of JavaScript semantics the data source relies on: optional
    values, thrown values, string-valued plain objects and their truthiness,
    String.prototype.split with a one-character separator, and the regular
    expression that picks the last segment of a resource path (a captured run
    of non-slashes, then any number of slashes, then the end of the input). */
module Runtime {

  datatype Option<+T> = None | Some(value: T)

  /** The outcome of a call that may throw (or a promise that may reject). */
  datatype Result<+T, +E> = Ok(value: T) | Err(error: E)

  /** The `error.data.error` object of a failed backend request. `code == 0`
      stands for a missing or falsy code; `message == None` for a missing one. */
  datatype ErrorBody = ErrorBody(code: int, message: Option<string>)

  /** What a rejected request or a failing statement throws. */
  datatype Thrown =
    | TypeError                                          // a property read on undefined
    | StringError(text: string)                          // a bare string was thrown
    | HttpError(statusText: string, body: Option<ErrorBody>)

  /** A plain object whose modelled properties hold strings. A missing key is
      `undefined`. */
  type Props = map<string, string>

  /** JavaScript truthiness of `obj[key]`: present and not the empty string. */
  predicate Has(obj: Props, key: string)
  {
    key in obj && obj[key] != ""
  }

  /** Flattens a sequence of sequences, as `_.flatten` and repeated `concat` do. */
  /** Concatenation is associative; stated once for any element type so that
      proofs about long lists of records need not rediscover it. */
  lemma AppendAssociates<T>(x: seq<T>, y: seq<T>, z: seq<T>)
    ensures x + (y + z) == (x + y) + z
  {
  }

  function Concat<T>(xss: seq<seq<T>>): seq<T>
  {
    if xss == [] then [] else xss[0] + Concat(xss[1..])
  }

  // ---------------------------------------------------------------------
  // String.prototype.join / split with a one-character separator

  function Join(parts: seq<string>, sep: char): string
  {
    if |parts| == 0 then ""
    else if |parts| == 1 then parts[0]
    else parts[0] + [sep] + Join(parts[1..], sep)
  }

  /** `s.split(sep)`: the pieces between separators, in order. Splitting the
      empty string gives one empty piece, and a separator at either end gives
      an empty piece there. Joining the pieces back gives `s`. */
  function Split(s: string, sep: char): (r: seq<string>)
    ensures |r| >= 1
    ensures forall i :: 0 <= i < |r| ==> sep !in r[i]
    ensures Join(r, sep) == s
    decreases |s|
  {
    if s == [] then [""]
    else
      var rest := Split(s[1..], sep);
      if s[0] == sep then
        assert ([""] + rest)[1..] == rest;
        [""] + rest
      else
        var r := [[s[0]] + rest[0]] + rest[1..];
        assert r[1..] == rest[1..];
        assert |rest| > 1 ==> Join(rest, sep) == rest[0] + [sep] + Join(rest[1..], sep);
        r
  }

  lemma {:induction false} SplitNoSeparator(s: string, sep: char)
    requires sep !in s
    ensures Split(s, sep) == [s]
    decreases |s|
  {
    if s != [] {
      assert sep !in s[1..] by {
        forall i | 0 <= i < |s[1..]| ensures s[1..][i] != sep { assert s[1..][i] == s[i + 1]; }
      }
      SplitNoSeparator(s[1..], sep);
      assert [s[0]] + s[1..] == s;
    }
  }

  lemma {:induction false} SplitAfterPiece(a: string, sep: char, b: string)
    requires sep !in a
    ensures Split(a + [sep] + b, sep) == [a] + Split(b, sep)
    decreases |a|
  {
    if a == [] {
      assert a + [sep] + b == [sep] + b;
      assert ([sep] + b)[1..] == b;
    } else {
      var s := a + [sep] + b;
      assert s[0] == a[0];
      assert s[1..] == a[1..] + [sep] + b;
      assert sep !in a[1..] by {
        forall i | 0 <= i < |a[1..]| ensures a[1..][i] != sep { assert a[1..][i] == a[i + 1]; }
      }
      SplitAfterPiece(a[1..], sep, b);
      assert [a[0]] + a[1..] == a;
    }
  }

  /** Splitting undoes joining, as long as no piece holds the separator. */
  lemma {:induction false} SplitJoin(parts: seq<string>, sep: char)
    requires |parts| >= 1
    requires forall i :: 0 <= i < |parts| ==> sep !in parts[i]
    ensures Split(Join(parts, sep), sep) == parts
  {
    if |parts| == 1 {
      SplitNoSeparator(parts[0], sep);
    } else {
      SplitJoin(parts[1..], sep);
      SplitAfterPiece(parts[0], sep, Join(parts[1..], sep));
      assert [parts[0]] + parts[1..] == parts;
    }
  }

  lemma {:induction false} JoinHead(parts: seq<string>, sep: char)
    requires |parts| >= 1
    ensures |parts[0]| <= |Join(parts, sep)|
    ensures Join(parts, sep)[..|parts[0]|] == parts[0]
    ensures |parts| == 1 ==> Join(parts, sep) == parts[0]
    ensures |parts| > 1 ==> |parts[0]| < |Join(parts, sep)| && Join(parts, sep)[|parts[0]|] == sep
  {
    if |parts| > 1 {
      var j := Join(parts, sep);
      assert j == parts[0] + [sep] + Join(parts[1..], sep);
    }
  }

  /** `const [head] = s.split(sep)`: the text before the first separator, or
      the whole string when it holds none. */
  function TextBefore(s: string, sep: char): (r: string)
    ensures |r| <= |s| && s[..|r|] == r
    ensures sep !in r
    ensures |r| < |s| ==> s[|r|] == sep
  {
    var parts := Split(s, sep);
    JoinHead(parts, sep);
    parts[0]
  }

  // ---------------------------------------------------------------------
  // The last-segment regex of a resource path and its first capture group

  /** Length of the longest prefix of `t` without a slash (the greedy `[^\/]*`). */
  function LeadingRun(t: string): (n: nat)
    ensures n <= |t|
    ensures forall i :: 0 <= i < n ==> t[i] != '/'
    ensures n < |t| ==> t[n] == '/'
  {
    if t == [] || t[0] == '/' then 0 else 1 + LeadingRun(t[1..])
  }

  predicate AllSlashes(t: string)
  {
    forall i :: 0 <= i < |t| ==> t[i] == '/'
  }

  /** The pattern matches when anchored at the start of `t`: a run of
      non-slashes followed only by slashes up to the end. */
  predicate MatchesAt(t: string)
  {
    AllSlashes(t[LeadingRun(t)..])
  }

  /** The leftmost position from `i` on where the pattern matches. */
  function MatchStart(s: string, i: nat): (j: nat)
    requires i <= |s|
    ensures i <= j <= |s| && MatchesAt(s[j..])
    decreases |s| - i
  {
    if MatchesAt(s[i..]) then i
    else
      assert i < |s| by { assert s[|s|..] == []; }
      MatchStart(s, i + 1)
  }

  /** `s.match(regex)[1]` for the last-segment regex: the capture group of the
      leftmost match.
      The pattern always matches (at worst the empty string at the end). */
  function LastSegment(s: string): (r: string)
    ensures |r| <= |s|
    ensures '/' !in r
  {
    var j := MatchStart(s, 0);
    var n := LeadingRun(s[j..]);
    assert forall i :: 0 <= i < n ==> s[j..j + n][i] == s[j..][i];
    s[j..j + n]
  }

  /** Reference definition: drop trailing slashes, then keep what follows the
      last remaining slash. */
  function StripTrailingSlashes(s: string): (t: string)
    ensures |t| <= |s| && s[..|t|] == t && AllSlashes(s[|t|..])
    ensures t == [] || t[|t| - 1] != '/'
  {
    if s != [] && s[|s| - 1] == '/' then
      var t := StripTrailingSlashes(s[..|s| - 1]);
      assert s[..|s| - 1][..|t|] == s[..|t|];
      assert forall i :: |t| <= i < |s| - 1 ==> s[..|s| - 1][i] == s[i];
      t
    else s
  }

  function AfterLastSlash(t: string): (a: string)
    ensures |a| <= |t| && t[|t| - |a|..] == a
    ensures '/' !in a
    ensures |a| < |t| ==> t[|t| - |a| - 1] == '/'
  {
    if t == [] || t[|t| - 1] == '/' then []
    else
      var a := AfterLastSlash(t[..|t| - 1]);
      assert t[..|t| - 1][|t| - 1 - |a|..] == t[|t| - 1 - |a|..|t| - 1];
      assert t[|t| - 1 - |a|..] == t[|t| - 1 - |a|..|t| - 1] + [t[|t| - 1]];
      assert |a| < |t| - 1 ==> t[..|t| - 1][|t| - 1 - |a| - 1] == t[|t| - |a| - 2];
      a + [t[|t| - 1]]
  }

  lemma {:induction false} MatchStartIs(s: string, i: nat, k: nat)
    requires i <= k <= |s|
    requires MatchesAt(s[k..])
    requires forall j :: i <= j < k ==> !MatchesAt(s[j..])
    ensures MatchStart(s, i) == k
    decreases k - i
  {
    if i < k {
      MatchStartIs(s, i + 1, k);
    }
  }

  lemma {:induction false} LeadingRunIs(u: string, n: nat)
    requires n <= |u|
    requires forall i :: 0 <= i < n ==> u[i] != '/'
    requires n < |u| ==> u[n] == '/'
    ensures LeadingRun(u) == n
  {
  }

  /** Before a slash that is followed by a non-slash, the pattern cannot match. */
  lemma {:induction false} NoMatchBefore(s: string, j: nat, k: nat)
    requires j < k < |s|
    requires s[k - 1] == '/' && s[k] != '/'
    ensures !MatchesAt(s[j..])
  {
    var u := s[j..];
    var n := LeadingRun(u);
    assert u[k - 1 - j] == '/';
    assert n <= k - 1 - j;
    assert u[n..][k - j - n] == s[k];
  }

  /** Where the leftmost match starts: just after the last slash that is
      followed by a non-slash, or 0. */
  lemma {:induction false} MatchStartAfterLastSlash(s: string)
    ensures var t := StripTrailingSlashes(s);
            MatchStart(s, 0) == |t| - |AfterLastSlash(t)|
  {
    var t := StripTrailingSlashes(s);
    var a := AfterLastSlash(t);
    var k := |t| - |a|;
    var u := s[k..];
    assert u == a + s[|t|..] by {
      assert s[k..|t|] == t[k..];
      assert s[k..] == s[k..|t|] + s[|t|..];
    }
    LeadingRunIs(u, |a|);
    assert u[|a|..] == s[|t|..];
    assert MatchesAt(u);
    if k > 0 {
      assert a != [];
      assert s[k - 1] == t[k - 1] == '/';
      assert s[k] == a[0];
      forall j | 0 <= j < k
        ensures !MatchesAt(s[j..])
      {
        NoMatchBefore(s, j, k);
      }
    }
    MatchStartIs(s, 0, k);
  }

  lemma {:induction false} CaptureIs(s: string, k: nat, n: nat)
    requires MatchStart(s, 0) == k
    requires LeadingRun(s[k..]) == n
    ensures LastSegment(s) == s[k..k + n]
  {
  }

  lemma {:induction false} CaptureIsSuffix(s: string, t: string, a: string)
    requires |t| <= |s| && s[..|t|] == t && AllSlashes(s[|t|..])
    requires |a| <= |t| && t[|t| - |a|..] == a && '/' !in a
    requires MatchStart(s, 0) == |t| - |a|
    ensures LastSegment(s) == a
  {
    var k := |t| - |a|;
    var u := s[k..];
    forall i | 0 <= i < |a| ensures u[i] == a[i] && u[i] != '/' {
      assert u[i] == s[k + i] == t[k + i] == a[i];
    }
    if |a| < |u| {
      assert u[|a|] == s[|t|];
      assert s[|t|..][0] == '/';
    }
    LeadingRunIs(u, |a|);
    CaptureIs(s, k, |a|);
    assert s[k..k + |a|] == a;
  }

  /** The regex capture and the reference definition agree on every string. */
  lemma {:induction false} LastSegmentIsAfterLastSlash(s: string)
    ensures LastSegment(s) == AfterLastSlash(StripTrailingSlashes(s))
  {
    var t := StripTrailingSlashes(s);
    var a := AfterLastSlash(t);
    MatchStartAfterLastSlash(s);
    assert MatchStart(s, 0) == |t| - |a|;
    CaptureIsSuffix(s, t, a);
    assert LastSegment(s) == a;
  }

  // ---------------------------------------------------------------------
  // Number to string, as `'' + n` writes an integer

  function DigitChar(d: nat): char
    requires d < 10
  {
    "0123456789"[d]
  }

  function NaturalToString(n: nat): (r: string)
    ensures |r| >= 1
    decreases n
  {
    if n < 10 then [DigitChar(n)] else NaturalToString(n / 10) + [DigitChar(n % 10)]
  }

  function NumberToString(n: int): (r: string)
    ensures |r| >= 1
    ensures n < 0 ==> |r| >= 2
  {
    if n < 0 then "-" + NaturalToString(-n) else NaturalToString(n)
  }

  /** The value of a string of decimal digits, most significant first. */
  function DigitsValue(s: string): int
  {
    if s == [] then 0 else DigitsValue(s[..|s| - 1]) * 10 + (s[|s| - 1] as int - '0' as int)
  }

  /** The value of an optionally signed decimal numeral. */
  function DecimalValue(s: string): int
  {
    if s != [] && s[0] == '-' then -DigitsValue(s[1..]) else DigitsValue(s)
  }

  predicate AllDigits(s: string)
  {
    forall i :: 0 <= i < |s| ==> '0' <= s[i] <= '9'
  }

  lemma {:induction false} DigitCharValue(d: nat)
    requires d < 10
    ensures '0' <= DigitChar(d) <= '9'
    ensures DigitChar(d) as int - '0' as int == d
    ensures DigitChar(d) == '0' <==> d == 0
  {
    if d == 0 {} else if d == 1 {} else if d == 2 {} else if d == 3 {} else if d == 4 {}
    else if d == 5 {} else if d == 6 {} else if d == 7 {} else if d == 8 {} else {}
  }

  /** A natural number is written in decimal: digits only, no leading zero
      unless the number is 0, and the digits read back as the number. */
  lemma {:induction false} NaturalToStringIsDecimal(n: nat)
    ensures AllDigits(NaturalToString(n))
    ensures NaturalToString(n)[0] == '0' <==> n == 0
    ensures n == 0 ==> NaturalToString(n) == "0"
    ensures DigitsValue(NaturalToString(n)) == n
    decreases n
  {
    var r := NaturalToString(n);
    if n < 10 {
      DigitCharValue(n);
      assert r[..0] == [];
    } else {
      var init := NaturalToString(n / 10);
      NaturalToStringIsDecimal(n / 10);
      DigitCharValue(n % 10);
      assert r == init + [DigitChar(n % 10)];
      assert r[..|r| - 1] == init;
      assert r[0] == init[0];
    }
  }

  /** `'' + n` for an integer `n`: a minus sign for a negative number, then
      the decimal digits of its magnitude, which read back as `n`. */
  lemma {:induction false} NumberToStringIsDecimal(n: int)
    ensures var r := NumberToString(n);
            && (n < 0 <==> r[0] == '-')
            && var digits := if n < 0 then r[1..] else r;
            && AllDigits(digits)
            && (digits[0] == '0' <==> n == 0)
            && DecimalValue(r) == n
  {
    var r := NumberToString(n);
    if n < 0 {
      NaturalToStringIsDecimal(-n);
      assert r[1..] == NaturalToString(-n);
    } else {
      NaturalToStringIsDecimal(n);
      assert '0' <= r[0] <= '9';
    }
  }
}
