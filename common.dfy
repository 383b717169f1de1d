/** Values and string helpers shared by every part of the log-analytics model:
    optional values, Go-style wrapped errors, instants, and the few functions of
    Go's `strings` and `strconv` packages that the core relies on. */
module Common {

  datatype Option<+T> = None | Some(value: T)

  /** A Go `error`. `Wrapped(context, cause)` is what `fmt.Errorf("context: %w", cause)`
      builds: the cause stays reachable, as `errors.Is` needs. */
  datatype Error = Failure(msg: string) | Wrapped(context: string, cause: Error)

  /** A value or the error a Go function returned in its place. */
  datatype Result<+T> = Ok(value: T) | Err(error: Error)

  /** An instant, in nanoseconds since Go's zero `time.Time`, so `t.IsZero()` is `t == 0`. */
  type Time = int

  const Second: int := 1_000_000_000
  const Minute: int := 60 * Second

  predicate IsZeroTime(t: Time) { t == 0 }

  // ---------------------------------------------------------------------------
  // Go's `unicode.IsSpace` and `strings.TrimSpace`

  predicate IsSpace(c: char)
  {
    || c == ' '
    || ('\t' <= c <= '\r')
    || c == '\U{0085}' || c == '\U{00A0}' || c == '\U{1680}'
    || ('\U{2000}' <= c <= '\U{200A}')
    || c == '\U{2028}' || c == '\U{2029}' || c == '\U{202F}' || c == '\U{205F}' || c == '\U{3000}'
  }

  /** Neither the first nor the last character is white space. */
  predicate Trimmed(s: string)
  {
    s == [] || (!IsSpace(s[0]) && !IsSpace(s[|s| - 1]))
  }

  /** `s[i..j]` is a piece of `s` with only white space around it. */
  predicate Surrounds(s: string, i: int, j: int)
  {
    0 <= i <= j <= |s| && forall k :: 0 <= k < |s| && (k < i || j <= k) ==> IsSpace(s[k])
  }

  lemma SurroundsAfterFirst(s: string, i: int, j: int)
    requires s != [] && IsSpace(s[0]) && Surrounds(s[1..], i, j)
    ensures Surrounds(s, i + 1, j + 1) && s[1..][i..j] == s[i + 1..j + 1]
  {
    forall k | 0 <= k < |s| && (k < i + 1 || j + 1 <= k) ensures IsSpace(s[k]) {
      if k > 0 {
        assert s[k] == s[1..][k - 1];
      }
    }
  }

  lemma SurroundsBeforeLast(s: string, i: int, j: int)
    requires s != [] && IsSpace(s[|s| - 1]) && Surrounds(s[..|s| - 1], i, j)
    ensures Surrounds(s, i, j) && s[..|s| - 1][i..j] == s[i..j]
  {
    forall k | 0 <= k < |s| && (k < i || j <= k) ensures IsSpace(s[k]) {
      if k < |s| - 1 {
        assert s[k] == s[..|s| - 1][k];
      }
    }
  }

  /** `strings.TrimSpace`: white space removed from both ends. */
  function TrimSpace(s: string): (r: string)
    ensures Trimmed(r) && |r| <= |s|
    ensures Trimmed(s) ==> r == s
  {
    if s != [] && IsSpace(s[0]) then TrimSpace(s[1..])
    else if s != [] && IsSpace(s[|s| - 1]) then TrimSpace(s[..|s| - 1])
    else s
  }

  /** `strings.TrimSpace` removes white space from the ends and nothing else:
      what it keeps is a piece of its argument with only white space around it. */
  lemma {:induction false} TrimSpaceSlice(s: string)
    ensures exists i, j :: Surrounds(s, i, j) && TrimSpace(s) == s[i..j]
  {
    var r := TrimSpace(s);
    if s != [] && IsSpace(s[0]) {
      TrimSpaceSlice(s[1..]);
      var i, j :| Surrounds(s[1..], i, j) && r == s[1..][i..j];
      SurroundsAfterFirst(s, i, j);
    } else if s != [] && IsSpace(s[|s| - 1]) {
      TrimSpaceSlice(s[..|s| - 1]);
      var i, j :| Surrounds(s[..|s| - 1], i, j) && r == s[..|s| - 1][i..j];
      SurroundsBeforeLast(s, i, j);
    } else {
      assert Surrounds(s, 0, |s|) && r == s[0..|s|];
    }
  }

  /** What `strings.TrimSpace` keeps is a piece of its argument, so it holds no
      character the argument lacks. */
  lemma {:induction false} TrimSpaceAvoids(s: string, c: char)
    requires c !in s
    ensures c !in TrimSpace(s)
  {
    if s != [] && IsSpace(s[0]) {
      TrimSpaceAvoids(s[1..], c);
    } else if s != [] && IsSpace(s[|s| - 1]) {
      TrimSpaceAvoids(s[..|s| - 1], c);
    }
  }

  // ---------------------------------------------------------------------------
  // `strings.Split` on a one-character separator and `strings.Join`

  function CountChar(s: string, c: char): nat
  {
    if s == [] then 0 else (if s[0] == c then 1 else 0) + CountChar(s[1..], c)
  }

  /** `strings.Split(s, string(sep))`: one piece per separator plus one, no piece
      holding the separator (an empty `s` gives one empty piece). */
  function Split(s: string, sep: char): (parts: seq<string>)
    ensures |parts| == CountChar(s, sep) + 1
    ensures forall i :: 0 <= i < |parts| ==> sep !in parts[i]
  {
    if s == [] then [""]
    else
      var rest := Split(s[1..], sep);
      if s[0] == sep then [""] + rest
      else [[s[0]] + rest[0]] + rest[1..]
  }

  /** `strings.Join(parts, sep)`. */
  function Join(parts: seq<string>, sep: string): string
  {
    if |parts| == 0 then ""
    else if |parts| == 1 then parts[0]
    else parts[0] + sep + Join(parts[1..], sep)
  }

  lemma {:induction false} JoinSplit(s: string, sep: char)
    ensures Join(Split(s, sep), [sep]) == s
  {
    if s != [] {
      var rest := Split(s[1..], sep);
      JoinSplit(s[1..], sep);
      if s[0] == sep {
        assert Split(s, sep) == [""] + rest;
      } else {
        var parts := Split(s, sep);
        assert parts == [[s[0]] + rest[0]] + rest[1..];
        if |rest| == 1 {
          assert Join(rest, [sep]) == rest[0];
        } else {
          assert Join(rest, [sep]) == rest[0] + [sep] + Join(rest[1..], [sep]);
          assert parts[1..] == rest[1..];
        }
      }
    }
  }

  predicate HasPrefix(s: string, prefix: string)
  {
    |prefix| <= |s| && s[..|prefix|] == prefix
  }

  predicate HasSuffix(s: string, suffix: string)
  {
    |suffix| <= |s| && s[|s| - |suffix|..] == suffix
  }

  /** Upper-case mapping of `strings.ToUpper`, for the characters whose upper
      case is an ASCII letter: `a`..`z`, U+017F (long s, upper case `S`) and
      U+0131 (dotless i, upper case `I`). Every other character is left as it
      is, which is exact for the only use made of it, the test for a `USE `
      prefix, and not for other letters (`é` is not mapped to `É`). */
  function UpperChar(c: char): char
  {
    if 'a' <= c <= 'z' then (c as int - 32) as char
    else if c == '\U{017F}' then 'S'
    else if c == '\U{0131}' then 'I'
    else c
  }

  /** `strings.ToUpper`, rune by rune: the ensures is the specification of
      the per-rune mapping; what it means for SQL lies in `UpperChar` and the
      `USE` lemmas of the splitter. */
  function ToUpper(s: string): (r: string)
    ensures |r| == |s|
    ensures forall i :: 0 <= i < |s| ==> r[i] == UpperChar(s[i])
  {
    seq(|s|, i requires 0 <= i < |s| => UpperChar(s[i]))
  }

  // ---------------------------------------------------------------------------
  // `strconv.Atoi`, `strconv.Itoa`, `strconv.ParseBool` on a 64-bit platform

  const MaxInt64: int := 0x7FFF_FFFF_FFFF_FFFF
  const MinInt64: int := -0x8000_0000_0000_0000

  predicate IsDigit(c: char) { '0' <= c <= '9' }

  predicate AllDigits(s: string) { forall i :: 0 <= i < |s| ==> IsDigit(s[i]) }

  function DigitsValue(ds: string): nat
    requires AllDigits(ds)
  {
    if ds == [] then 0 else DigitsValue(ds[..|ds| - 1]) * 10 + (ds[|ds| - 1] as int - '0' as int)
  }

  /** `strconv.Atoi`: an optional sign followed by at least one decimal digit,
      whose value fits in a 64-bit `int`; anything else is an error (`None`). */
  function Atoi(s: string): (r: Option<int>)
    ensures r.Some? ==> MinInt64 <= r.value <= MaxInt64
    ensures r.Some? ==> s != [] && (s[0] == '-' || s[0] == '+' || IsDigit(s[0]))
    ensures r.Some? && s[0] == '-' ==> r.value <= 0
    ensures r.Some? && s[0] != '-' ==> r.value >= 0
  {
    if s == [] then None
    else
      var digits := if s[0] == '-' || s[0] == '+' then s[1..] else s;
      if digits == [] || !AllDigits(digits) then None
      else
        var value: int := DigitsValue(digits);
        var v := if s[0] == '-' then -value else value;
        if MinInt64 <= v <= MaxInt64 then Some(v) else None
  }

  function DigitChar(d: nat): char
    requires d < 10
  {
    ('0' as int + d) as char
  }

  /** The decimal digits of `n`, without leading zeros. */
  function Digits(n: nat): (ds: string)
    ensures ds != [] && AllDigits(ds)
  {
    if n < 10 then [DigitChar(n)] else Digits(n / 10) + [DigitChar(n % 10)]
  }

  /** `strconv.Itoa`. */
  function Itoa(n: int): string
  {
    if n < 0 then "-" + Digits(-n) else Digits(n)
  }

  lemma {:induction false} DigitsValueOfDigits(n: nat)
    ensures DigitsValue(Digits(n)) == n
  {
    if n >= 10 {
      DigitsValueOfDigits(n / 10);
      var ds := Digits(n);
      assert ds[..|ds| - 1] == Digits(n / 10);
    }
  }

  /** Atoi reads back what Itoa writes, for every 64-bit integer. */
  lemma AtoiItoa(n: int)
    requires MinInt64 <= n <= MaxInt64
    ensures Atoi(Itoa(n)) == Some(n)
  {
    var s := Itoa(n);
    if n < 0 {
      DigitsValueOfDigits(-n);
      assert s[0] == '-' && s[1..] == Digits(-n);
    } else {
      DigitsValueOfDigits(n);
      assert s == Digits(n) && IsDigit(s[0]);
    }
  }

  /** `strconv.ParseBool`. */
  function ParseBool(s: string): (r: Option<bool>)
    ensures r == Some(true) <==> s in {"1", "t", "T", "TRUE", "true", "True"}
    ensures r == Some(false) <==> s in {"0", "f", "F", "FALSE", "false", "False"}
  {
    if s in {"1", "t", "T", "TRUE", "true", "True"} then Some(true)
    else if s in {"0", "f", "F", "FALSE", "false", "False"} then Some(false)
    else None
  }
}
