/** Small shared vocabulary of the model: optional values, the HTTP error
    outcomes the routers raise, and the few text operations (strip, join,
    decimal rendering and parsing) that both the server and the client use. */
module Common {

  datatype Option<T> = None | Some(value: T)

  /** The HTTP errors the routers raise: 404, 400, and the 500 that an
      uncaught exception inside a handler becomes. */
  datatype HttpError = NotFound | BadRequest | ServerError

  function StatusCode(e: HttpError): (code: int)
    ensures 400 <= code < 600
    ensures code == 404 <==> e == NotFound
  {
    match e
    case NotFound => 404
    case BadRequest => 400
    case ServerError => 500
  }

  datatype Result<T> = Ok(value: T) | Err(error: HttpError)

  // ---------------------------------------------------------------------
  // Whitespace stripping (Python's str.strip() and JavaScript's trim()).

  /** Space, tab, newline, carriage return, vertical tab and form feed.
      Python's str.isspace also counts \x1c to \x1f and Unicode spaces,
      which are not modelled. */
  predicate IsSpace(c: char) {
    c == ' ' || c == '\t' || c == '\n' || c == '\r' || c == '\U{000B}' || c == '\U{000C}'
  }

  predicate AllSpace(s: string) {
    forall k :: 0 <= k < |s| ==> IsSpace(s[k])
  }

  /** Number of whitespace characters at the start of `s`. */
  function LeadingSpaces(s: string): (n: nat)
    ensures n <= |s|
    ensures AllSpace(s[..n])
    ensures n < |s| ==> !IsSpace(s[n])
  {
    if |s| > 0 && IsSpace(s[0]) then
      var n := 1 + LeadingSpaces(s[1..]);
      assert forall k :: 1 <= k < n ==> s[k] == s[1..][k - 1];
      n
    else 0
  }

  /** Length of `s` once its trailing whitespace is cut off. */
  function TrailingStart(s: string): (n: nat)
    ensures n <= |s|
    ensures AllSpace(s[n..])
    ensures n > 0 ==> !IsSpace(s[n - 1])
  {
    if |s| > 0 && IsSpace(s[|s| - 1]) then
      var n := TrailingStart(s[..|s| - 1]);
      assert forall k :: n <= k < |s| - 1 ==> s[k] == s[..|s| - 1][k];
      n
    else |s|
  }

  /** `r` is `s` with an all-whitespace prefix of length `i` and an
      all-whitespace suffix removed. */
  predicate IsStripOf(s: string, r: string, i: int) {
    0 <= i && i + |r| <= |s| && s[i..i + |r|] == r && AllSpace(s[..i]) && AllSpace(s[i + |r|..])
  }

  function Strip(s: string): (r: string)
    ensures exists i :: IsStripOf(s, r, i)
    ensures r != [] ==> !IsSpace(r[0]) && !IsSpace(r[|r| - 1])
    ensures AllSpace(s) <==> r == []
  {
    var e := TrailingStart(s);
    var b := LeadingSpaces(s[..e]);
    var r := s[..e][b..];
    assert r == s[b..e];
    assert s[..b] == s[..e][..b];
    assert s[b + |r|..] == s[e..];
    assert IsStripOf(s, r, b);
    assert r == [] ==> s == s[..b] + s[e..];
    assert r != [] ==> r[|r| - 1] == s[e - 1];
    r
  }

  lemma StripIdempotent(s: string)
    ensures Strip(Strip(s)) == Strip(s)
  {
    var r := Strip(s);
    assert TrailingStart(r) == |r|;
    assert r[..|r|] == r;
    assert LeadingSpaces(r) == 0;
  }

  // ---------------------------------------------------------------------
  // Joining with a separator (Python's sep.join(xs)).

  function Join(xs: seq<string>, sep: string): (r: string)
  {
    if |xs| == 0 then ""
    else if |xs| == 1 then xs[0]
    else Join(xs[..|xs| - 1], sep) + sep + xs[|xs| - 1]
  }

  lemma JoinAppend(xs: seq<string>, x: string, sep: string)
    ensures Join(xs + [x], sep) == if xs == [] then x else Join(xs, sep) + sep + x
  {
    assert (xs + [x])[..|xs|] == xs;
  }

  /** The joined text has the length of its parts plus one separator
      between each two neighbours. */
  function TotalLength(xs: seq<string>): nat {
    if xs == [] then 0 else TotalLength(xs[..|xs| - 1]) + |xs[|xs| - 1]|
  }

  lemma {:induction false} JoinLength(xs: seq<string>, sep: string)
    requires xs != []
    ensures |Join(xs, sep)| == TotalLength(xs) + (|xs| - 1) * |sep|
  {
    if |xs| > 1 {
      var init := xs[..|xs| - 1];
      JoinLength(init, sep);
      var n, k := |xs|, |sep|;
      assert |Join(xs, sep)| == |Join(init, sep)| + k + |xs[n - 1]|;
      assert TotalLength(xs) == TotalLength(init) + |xs[n - 1]|;
      assert (n - 2) * k + k == (n - 1) * k;
    } else {
      assert xs[..0] == [];
    }
  }

  // ---------------------------------------------------------------------
  // Substring occurrence.

  predicate OccursAt(s: string, t: string, i: int) {
    0 <= i && i + |t| <= |s| && s[i..i + |t|] == t
  }

  predicate Contains(s: string, t: string) {
    exists i | 0 <= i <= |s| :: OccursAt(s, t, i)
  }

  lemma OccursAfter(a: string, t: string, b: string)
    ensures OccursAt(a + t + b, t, |a|)
  {
    assert (a + t + b)[|a|..|a| + |t|] == t;
  }

  /** An occurrence inside `t` is an occurrence inside `a + t + b`. */
  lemma OccursShift(a: string, t: string, b: string, u: string, i: int)
    requires OccursAt(t, u, i)
    ensures OccursAt(a + t + b, u, |a| + i)
  {
    assert (a + t + b)[|a| + i..|a| + i + |u|] == t[i..i + |u|];
  }

  /** An occurrence inside `t` is an occurrence inside `a + t`. */
  lemma OccursInSuffix(a: string, t: string, u: string, i: int)
    requires OccursAt(t, u, i)
    ensures OccursAt(a + t, u, |a| + i)
  {
    assert (a + t)[|a| + i..|a| + i + |u|] == t[i..i + |u|];
  }

  lemma OccursInPrefix(t: string, b: string, u: string, i: int)
    requires OccursAt(t, u, i)
    ensures OccursAt(t + b, u, i)
  {
    assert (t + b)[i..i + |u|] == t[i..i + |u|];
  }

  // ---------------------------------------------------------------------
  // Order-preserving filtering (Python comprehensions and Array.filter).

  function Filter<T(!new)>(s: seq<T>, p: T -> bool): (r: seq<T>)
    ensures |r| <= |s|
    ensures forall x :: x in r <==> x in s && p(x)
    ensures forall k :: 0 <= k < |r| ==> p(r[k])
  {
    if s == [] then []
    else
      var rest := Filter(s[1..], p);
      assert forall x :: x in s <==> x == s[0] || x in s[1..];
      (if p(s[0]) then [s[0]] else []) + rest
  }

  /** Filtering distributes over concatenation, so the kept elements stay
      in their original order. */
  lemma {:induction false} FilterConcat<T(!new)>(a: seq<T>, b: seq<T>, p: T -> bool)
    ensures Filter(a + b, p) == Filter(a, p) + Filter(b, p)
  {
    if a != [] {
      assert (a + b)[1..] == a[1..] + b;
      FilterConcat(a[1..], b, p);
    } else {
      assert a + b == b;
    }
  }

  lemma {:induction false} FilterIdempotent<T(!new)>(s: seq<T>, p: T -> bool)
    ensures Filter(Filter(s, p), p) == Filter(s, p)
  {
    if s != [] {
      FilterIdempotent(s[1..], p);
      var f := Filter(s, p);
      if p(s[0]) {
        assert f[0] == s[0] && f[1..] == Filter(s[1..], p);
        assert Filter(f, p) == [f[0]] + Filter(f[1..], p);
        assert f == [s[0]] + Filter(s[1..], p);
      } else {
        assert f == [] + Filter(s[1..], p) == Filter(s[1..], p);
      }
    }
  }

  lemma {:induction false} FilterAllKept<T(!new)>(s: seq<T>, p: T -> bool)
    requires forall k :: 0 <= k < |s| ==> p(s[k])
    ensures Filter(s, p) == s
  {
    if s != [] {
      FilterAllKept(s[1..], p);
      assert [s[0]] + s[1..] == s;
    }
  }

  // ---------------------------------------------------------------------
  // Decimal text of integers (Python f"{n}", JavaScript `${n}`) and its
  // inverse, Python's int(text) for base-10 text.

  predicate IsDigit(c: char) {
    '0' <= c <= '9'
  }

  function DigitChar(d: nat): (c: char)
    requires d < 10
    ensures IsDigit(c)
  {
    (48 + d) as char
  }

  function NatToDecimal(n: nat): (r: string)
    ensures |r| > 0
    ensures forall k :: 0 <= k < |r| ==> IsDigit(r[k])
  {
    if n < 10 then [DigitChar(n)] else NatToDecimal(n / 10) + [DigitChar(n % 10)]
  }

  function IntToDecimal(n: int): (r: string)
    ensures |r| > 0
  {
    if n < 0 then "-" + NatToDecimal(-n) else NatToDecimal(n)
  }

  function DigitsValue(s: string): int
    requires forall k :: 0 <= k < |s| ==> IsDigit(s[k])
  {
    if s == [] then 0 else DigitsValue(s[..|s| - 1]) * 10 + (s[|s| - 1] as int - 48)
  }

  predicate AllDigits(s: string) {
    |s| > 0 && forall k :: 0 <= k < |s| ==> IsDigit(s[k])
  }

  /** Python's int(text) in base 10: surrounding whitespace, an optional
      sign, then one or more digits; anything else raises ValueError (None). */
  function ParseInt(text: string): Option<int>
  {
    var t := Strip(text);
    if |t| > 0 && (t[0] == '-' || t[0] == '+') then
      if AllDigits(t[1..]) then Some(if t[0] == '-' then -DigitsValue(t[1..]) else DigitsValue(t[1..])) else None
    else if AllDigits(t) then Some(DigitsValue(t))
    else None
  }

  lemma {:induction false} DigitsOfDecimal(n: nat)
    ensures DigitsValue(NatToDecimal(n)) == n
  {
    if n >= 10 {
      DigitsOfDecimal(n / 10);
      var d := NatToDecimal(n / 10);
      assert (d + [DigitChar(n % 10)])[..|d|] == d;
    }
  }

  lemma ParseIntOfDecimal(n: int)
    ensures ParseInt(IntToDecimal(n)) == Some(n)
  {
    var s := IntToDecimal(n);
    var m := if n < 0 then -n else n;
    DigitsOfDecimal(m);
    assert !IsSpace(s[0]) && !IsSpace(s[|s| - 1]);
    assert TrailingStart(s) == |s| && s[..|s|] == s;
    assert LeadingSpaces(s) == 0;
    assert Strip(s) == s;
    if n < 0 {
      assert s[1..] == NatToDecimal(m);
    }
  }

  // ---------------------------------------------------------------------
  // Lexicographic order of strings (SQL ORDER BY on a text column and
  // Python's string comparison, by code point).

  predicate StrLe(a: string, b: string) {
    if a == [] then true
    else if b == [] then false
    else if a[0] != b[0] then a[0] < b[0]
    else StrLe(a[1..], b[1..])
  }

  lemma StrLeTotal(a: string, b: string)
    ensures StrLe(a, b) || StrLe(b, a)
  {
  }

  lemma StrLeTrans(a: string, b: string, c: string)
    requires StrLe(a, b) && StrLe(b, c)
    ensures StrLe(a, c)
  {
  }

  lemma StrLeAntisym(a: string, b: string)
    requires StrLe(a, b) && StrLe(b, a)
    ensures a == b
  {
  }
}
