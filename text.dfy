/** The string operations of the Go and Python standard libraries that the tools rely on:
    Go's strings.Split, strings.Replace (with n = -1), strings.Trim, strings.Contains and
    strconv.Atoi, and Python's str.split and str.strip. Strings are sequences of characters;
    the byte/rune distinction of Go is not modelled. */
module Text {
  import opened Wrappers

  predicate StartsWith(s: string, prefix: string) {
    |prefix| <= |s| && s[..|prefix|] == prefix
  }

  /** strings.Contains(s, sub) and Python's `sub in s`. */
  predicate Contains(s: string, sub: string)
    decreases |s|
  {
    StartsWith(s, sub) || (s != [] && Contains(s[1..], sub))
  }

  /** Contains means an occurrence starts at some position. */
  lemma {:induction false} ContainsIffOccurs(s: string, sub: string)
    ensures Contains(s, sub) <==> exists i :: 0 <= i <= |s| && StartsWith(s[i..], sub)
    decreases |s|
  {
    if s != [] {
      ContainsIffOccurs(s[1..], sub);
      if StartsWith(s, sub) {
        assert s[0..] == s;
      }
      if Contains(s[1..], sub) {
        var i :| 0 <= i <= |s| - 1 && StartsWith(s[1..][i..], sub);
        assert s[1..][i..] == s[i + 1..];
      }
      if exists i :: 0 <= i <= |s| && StartsWith(s[i..], sub) {
        var i :| 0 <= i <= |s| && StartsWith(s[i..], sub);
        if i > 0 {
          assert s[1..][i - 1..] == s[i..];
          assert StartsWith(s[1..][i - 1..], sub);
        } else {
          assert s[0..] == s;
        }
      }
    } else {
      assert s[0..] == s;
    }
  }

  lemma {:induction false} ContainsInMiddle(before: string, sub: string, after: string)
    ensures Contains(before + sub + after, sub)
  {
    var s := before + sub + after;
    assert s[|before|..][..|sub|] == sub;
    ContainsIffOccurs(s, sub);
  }

  lemma {:induction false} NotContainsWhenNoStart(s: string, sub: string)
    requires forall i :: 0 <= i <= |s| ==> !StartsWith(s[i..], sub)
    ensures !Contains(s, sub)
  {
    ContainsIffOccurs(s, sub);
  }

  // ---------------------------------------------------------------------------
  // Splitting and joining
  // ---------------------------------------------------------------------------

  /** strings.Split(s, sep) and Python's s.split(sep) for a non-empty separator: the pieces
      between the non-overlapping occurrences of sep, found from the left. */
  function Split(s: string, sep: string): (parts: seq<string>)
    requires sep != []
    ensures |parts| >= 1
    decreases |s|
  {
    if StartsWith(s, sep) then [[]] + Split(s[|sep|..], sep)
    else if s == [] then [[]]
    else
      var rest := Split(s[1..], sep);
      [[s[0]] + rest[0]] + rest[1..]
  }

  /** strings.Join(parts, sep). */
  function Join(parts: seq<string>, sep: string): string {
    if parts == [] then []
    else if |parts| == 1 then parts[0]
    else parts[0] + sep + Join(parts[1..], sep)
  }

  lemma {:induction false} JoinCons(head: string, tail: seq<string>, sep: string)
    requires tail != []
    ensures Join([head] + tail, sep) == head + sep + Join(tail, sep)
  {
    assert ([head] + tail)[1..] == tail;
  }

  /** Prepending a character to the first piece prepends it to the joined string. */
  lemma {:induction false} JoinPrepend(c: char, parts: seq<string>, sep: string)
    requires parts != []
    ensures Join([[c] + parts[0]] + parts[1..], sep) == [c] + Join(parts, sep)
  {
    if |parts| > 1 {
      JoinCons([c] + parts[0], parts[1..], sep);
      JoinCons(parts[0], parts[1..], sep);
      assert parts == [parts[0]] + parts[1..];
    }
  }

  /** Splitting and joining with the same separator gives back the original string. */
  lemma {:induction false} JoinSplit(s: string, sep: string)
    requires sep != []
    ensures Join(Split(s, sep), sep) == s
    decreases |s|
  {
    if StartsWith(s, sep) {
      JoinSplit(s[|sep|..], sep);
      JoinSplitAtSeparator(s, sep);
    } else if s != [] {
      JoinSplit(s[1..], sep);
      JoinSplitAtCharacter(s, sep);
    }
  }

  /** The step of JoinSplit where s starts with the separator. */
  lemma {:induction false} JoinSplitAtSeparator(s: string, sep: string)
    requires sep != [] && StartsWith(s, sep)
    requires Join(Split(s[|sep|..], sep), sep) == s[|sep|..]
    ensures Join(Split(s, sep), sep) == s
  {
    var tail := Split(s[|sep|..], sep);
    assert Split(s, sep) == [[]] + tail;
    JoinCons([], tail, sep);
    assert s == sep + s[|sep|..];
  }

  /** The step of JoinSplit where s starts with another character. */
  lemma {:induction false} JoinSplitAtCharacter(s: string, sep: string)
    requires sep != [] && s != [] && !StartsWith(s, sep)
    requires Join(Split(s[1..], sep), sep) == s[1..]
    ensures Join(Split(s, sep), sep) == s
  {
    var rest := Split(s[1..], sep);
    assert Split(s, sep) == [[s[0]] + rest[0]] + rest[1..];
    JoinPrepend(s[0], rest, sep);
    assert s == [s[0]] + s[1..];
  }

  /** A string without the separator is not split at all. */
  lemma {:induction false} SplitWithoutSeparator(s: string, sep: string)
    requires sep != [] && !Contains(s, sep)
    ensures Split(s, sep) == [s]
    decreases |s|
  {
    if s != [] {
      SplitWithoutSeparator(s[1..], sep);
      assert s == [s[0]] + s[1..];
    }
  }

  /** Every piece but the last is followed by the separator: the piece sequence of
      `piece + sep + rest` starts with `piece` when `piece` holds no separator. */
  lemma {:induction false} SplitAtFirst(piece: string, sep: string, rest: string)
    requires sep != [] && forall c :: c in piece ==> c !in sep
    ensures Split(piece + sep + rest, sep) == [piece] + Split(rest, sep)
    decreases |piece|
  {
    if piece == [] {
      assert [] + sep + rest == sep + rest;
      assert (sep + rest)[..|sep|] == sep;
      assert (sep + rest)[|sep|..] == rest;
    } else {
      var s := piece + sep + rest;
      assert s[0] == piece[0];
      assert piece[0] in piece;
      assert s[0] != sep[0];
      assert !StartsWith(s, sep);
      assert s[1..] == piece[1..] + sep + rest;
      SplitAtFirst(piece[1..], sep, rest);
      assert [piece[0]] + piece[1..] == piece;
    }
  }

  // ---------------------------------------------------------------------------
  // Replacing
  // ---------------------------------------------------------------------------

  /** strings.Replace(s, token, repl, -1): every non-overlapping occurrence of `token`, found
      from the left, is replaced by `repl`. */
  function ReplaceAll(s: string, token: string, repl: string): string
    requires token != []
    decreases |s|
  {
    if StartsWith(s, token) then repl + ReplaceAll(s[|token|..], token, repl)
    else if s == [] then []
    else [s[0]] + ReplaceAll(s[1..], token, repl)
  }

  /** Replacing is splitting at `token` and joining with `repl`: the pieces between the
      occurrences are kept verbatim and in order, and exactly one `repl` stands where each
      occurrence stood. */
  lemma {:induction false} ReplaceAllIsJoinSplit(s: string, token: string, repl: string)
    requires token != []
    ensures ReplaceAll(s, token, repl) == Join(Split(s, token), repl)
    decreases |s|
  {
    if StartsWith(s, token) {
      var tail := Split(s[|token|..], token);
      assert Split(s, token) == [[]] + tail;
      ReplaceAllIsJoinSplit(s[|token|..], token, repl);
      JoinCons([], tail, repl);
    } else if s != [] {
      var rest := Split(s[1..], token);
      assert Split(s, token) == [[s[0]] + rest[0]] + rest[1..];
      ReplaceAllIsJoinSplit(s[1..], token, repl);
      JoinPrepend(s[0], rest, repl);
    }
  }

  /** Replacing a token by itself changes nothing. */
  lemma {:induction false} ReplaceAllByItself(s: string, token: string)
    requires token != []
    ensures ReplaceAll(s, token, token) == s
  {
    ReplaceAllIsJoinSplit(s, token, token);
    JoinSplit(s, token);
  }

  /** A string without the token is passed through unchanged. */
  lemma {:induction false} ReplaceAllWithoutToken(s: string, token: string, repl: string)
    requires token != [] && !Contains(s, token)
    ensures ReplaceAll(s, token, repl) == s
  {
    ReplaceAllIsJoinSplit(s, token, repl);
    SplitWithoutSeparator(s, token);
  }

  /** Text in which the token's first character does not occur is copied as it is. */
  lemma {:induction false} ReplaceAllCopiesPlainPrefix(x: string, y: string, token: string, repl: string)
    requires token != [] && token[0] !in x
    ensures ReplaceAll(x + y, token, repl) == x + ReplaceAll(y, token, repl)
    decreases |x|
  {
    if x != [] {
      var s := x + y;
      assert s[0] == x[0];
      if StartsWith(s, token) {
        assert false;
      }
      assert s[1..] == x[1..] + y;
      ReplaceAllCopiesPlainPrefix(x[1..], y, token, repl);
      assert [x[0]] + x[1..] == x;
    } else {
      assert x + y == y;
    }
  }

  /** A leading token is replaced. */
  lemma {:induction false} ReplaceAllAtToken(y: string, token: string, repl: string)
    requires token != []
    ensures ReplaceAll(token + y, token, repl) == repl + ReplaceAll(y, token, repl)
  {
    assert (token + y)[..|token|] == token;
    assert (token + y)[|token|..] == y;
  }

  /** Removing a character (strings.Replace(s, "\"", "", -1)) leaves none of it behind and
      keeps every other character. */
  lemma {:induction false} RemoveCharacter(s: string, c: char)
    ensures c !in ReplaceAll(s, [c], [])
    ensures forall d :: d != c ==> (d in s <==> d in ReplaceAll(s, [c], []))
    decreases |s|
  {
    if s != [] {
      RemoveCharacter(s[1..], c);
      assert s == [s[0]] + s[1..];
      if StartsWith(s, [c]) {
        assert s[0] == c;
      }
    }
  }

  // ---------------------------------------------------------------------------
  // Trimming
  // ---------------------------------------------------------------------------

  /** strings.TrimLeft(s, cutset). */
  function TrimLeft(s: string, cutset: set<char>): (r: string)
    ensures |r| <= |s| && r == s[|s| - |r|..]
    ensures r == [] || r[0] !in cutset
    ensures forall i :: 0 <= i < |s| - |r| ==> s[i] in cutset
    decreases |s|
  {
    if s != [] && s[0] in cutset then TrimLeft(s[1..], cutset) else s
  }

  /** strings.TrimRight(s, cutset). */
  function TrimRight(s: string, cutset: set<char>): (r: string)
    ensures |r| <= |s| && r == s[..|r|]
    ensures r == [] || r[|r| - 1] !in cutset
    ensures forall i :: |r| <= i < |s| ==> s[i] in cutset
    decreases |s|
  {
    if s != [] && s[|s| - 1] in cutset then TrimRight(s[..|s| - 1], cutset) else s
  }

  /** strings.Trim(s, cutset). */
  function Trim(s: string, cutset: set<char>): string {
    TrimRight(TrimLeft(s, cutset), cutset)
  }

  /** The characters for which Python's str.isspace() holds. */
  const PythonWhitespace: set<char> :=
    {' ', '\t', '\n', '\r', '\U{0B}', '\U{0C}', '\U{1C}', '\U{1D}', '\U{1E}', '\U{1F}',
     '\U{85}', '\U{A0}', '\U{1680}', '\U{2000}', '\U{2001}', '\U{2002}', '\U{2003}',
     '\U{2004}', '\U{2005}', '\U{2006}', '\U{2007}', '\U{2008}', '\U{2009}', '\U{200A}',
     '\U{2028}', '\U{2029}', '\U{202F}', '\U{205F}', '\U{3000}'}

  /** Python's s.strip(). */
  function Strip(s: string): string {
    Trim(s, PythonWhitespace)
  }

  lemma {:induction false} TrimLeftKeeps(s: string, cutset: set<char>)
    requires s == [] || s[0] !in cutset
    ensures TrimLeft(s, cutset) == s
  {
  }

  lemma {:induction false} TrimRightKeeps(s: string, cutset: set<char>)
    requires s == [] || s[|s| - 1] !in cutset
    ensures TrimRight(s, cutset) == s
  {
  }

  // ---------------------------------------------------------------------------
  // Decimal numbers
  // ---------------------------------------------------------------------------

  const MinInt64: int := -0x8000_0000_0000_0000
  const MaxInt64: int := 0x7FFF_FFFF_FFFF_FFFF

  predicate IsDigit(c: char) {
    '0' <= c <= '9'
  }

  predicate AllDigits(s: string) {
    forall i :: 0 <= i < |s| ==> IsDigit(s[i])
  }

  /** The value of a run of decimal digits, read from the left as n*10 + d. */
  function ParseDigits(ds: string): nat
    requires AllDigits(ds)
  {
    if ds == [] then 0
    else ParseDigits(ds[..|ds| - 1]) * 10 + (ds[|ds| - 1] as int - '0' as int)
  }

  /** The shortest decimal rendering of a natural number. */
  function Digits(n: nat): (ds: string)
    ensures ds != [] && AllDigits(ds)
  {
    var d := (n % 10 + '0' as int) as char;
    if n < 10 then [d] else Digits(n / 10) + [d]
  }

  lemma {:induction false} ParseDigitsOfDigits(n: nat)
    ensures ParseDigits(Digits(n)) == n
  {
    if n >= 10 {
      var ds := Digits(n);
      assert ds[..|ds| - 1] == Digits(n / 10);
      ParseDigitsOfDigits(n / 10);
    }
  }

  /** strconv.Itoa(n). */
  function Itoa(n: int): string {
    if n < 0 then "-" + Digits(-n) else Digits(n)
  }

  /** strconv.Atoi(s): an optional sign followed by at least one decimal digit, whose value
      fits a 64-bit int; anything else (empty text, spaces, quotes, a fraction, overflow) is
      an error, here None. */
  function Atoi(s: string): (r: Option<int>)
    ensures r.Some? ==> MinInt64 <= r.value <= MaxInt64
    ensures r.Some? ==> s != [] && (IsDigit(s[0]) || s[0] == '-' || s[0] == '+')
    ensures r.Some? ==> AllDigits(s[1..])
  {
    var signed := s != [] && (s[0] == '-' || s[0] == '+');
    var body := if signed then s[1..] else s;
    if body == [] || !AllDigits(body) then None
    else
      var magnitude: int := ParseDigits(body);
      var n: int := if signed && s[0] == '-' then -magnitude else magnitude;
      if MinInt64 <= n <= MaxInt64 then Some(n) else None
  }

  /** Atoi reads back what Itoa writes, over the whole 64-bit range. */
  lemma {:induction false} AtoiOfItoa(n: int)
    requires MinInt64 <= n <= MaxInt64
    ensures Atoi(Itoa(n)) == Some(n)
  {
    if n < 0 {
      ParseDigitsOfDigits(-n);
      assert Itoa(n)[1..] == Digits(-n);
    } else {
      ParseDigitsOfDigits(n);
    }
  }
}
