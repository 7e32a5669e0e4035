/** Results that may be absent or may be an error. */
module Wrappers {
  datatype Option<+T> = None | Some(value: T)

  datatype Result<+T> = Ok(value: T) | Err

  /** Some number is above all of finitely many. */
  lemma {:induction false} Above(ids: set<int>) returns (m: int)
    ensures forall x :: x in ids ==> x < m
    decreases |ids|
  {
    m := 0;
    if exists x :: x in ids {
      var x :| x in ids;
      var n := Above(ids - {x});
      m := if n <= x then x + 1 else n;
      forall y | y in ids
        ensures y < m
      {
        assert y != x ==> y in ids - {x};
      }
    }
  }
}

/** The string operations the provider takes from the Go library: trimming, splitting, joining, and
    decimal printing and parsing. */
module Text {
  import opened Wrappers

  const MAX_INT32: int := 0x7FFF_FFFF
  const MIN_INT32: int := -0x8000_0000

  /** Unicode White_Space, as `unicode.IsSpace` defines it. */
  predicate IsSpace(c: char) {
    || c == ' ' || ('\t' <= c <= '\r') || c == '\U{0085}' || c == '\U{00A0}' || c == '\U{1680}'
    || ('\U{2000}' <= c <= '\U{200A}') || c == '\U{2028}' || c == '\U{2029}' || c == '\U{202F}'
    || c == '\U{205F}' || c == '\U{3000}'
  }

  // ---- Trimming ----

  /** The first index from `i` on whose character stays. */
  function SkipFrom(cut: char -> bool, s: string, i: nat): (r: nat)
    requires i <= |s|
    ensures i <= r <= |s|
    ensures r < |s| ==> !cut(s[r])
    decreases |s| - i
  {
    if i < |s| && cut(s[i]) then SkipFrom(cut, s, i + 1) else i
  }

  /** The last end, down to `low`, whose preceding character stays. */
  function BackTo(cut: char -> bool, s: string, low: nat, end: nat): (r: nat)
    requires low <= end <= |s|
    ensures low <= r <= end
    ensures low < r ==> !cut(s[r - 1])
    decreases end
  {
    if low < end && cut(s[end - 1]) then BackTo(cut, s, low, end - 1) else end
  }

  /** All that is skipped is cut, at either end. */
  lemma {:induction false} SkippedAreCut(cut: char -> bool, s: string, i: nat)
    requires i <= |s|
    ensures forall k :: i <= k < SkipFrom(cut, s, i) ==> cut(s[k])
    decreases |s| - i
  {
    if i < |s| && cut(s[i]) {
      SkippedAreCut(cut, s, i + 1);
    }
  }

  lemma {:induction false} LeftOutAreCut(cut: char -> bool, s: string, low: nat, end: nat)
    requires low <= end <= |s|
    ensures forall k :: BackTo(cut, s, low, end) <= k < end ==> cut(s[k])
    decreases end
  {
    if low < end && cut(s[end - 1]) {
      LeftOutAreCut(cut, s, low, end - 1);
    }
  }

  function TrimBy(cut: char -> bool, s: string): string {
    var start := SkipFrom(cut, s, 0);
    s[start..BackTo(cut, s, start, |s|)]
  }

  /** `strings.TrimSpace`. */
  function Trim(s: string): string {
    TrimBy(IsSpace, s)
  }

  /** Nothing is left to cut at either end. */
  predicate Clean(cut: char -> bool, s: string) {
    s == "" || (!cut(s[0]) && !cut(s[|s| - 1]))
  }

  predicate Trimmed(s: string) {
    Clean(IsSpace, s)
  }

  lemma TrimByClean(cut: char -> bool, s: string)
    ensures Clean(cut, TrimBy(cut, s))
    ensures Clean(cut, s) ==> TrimBy(cut, s) == s
    ensures forall c :: c in TrimBy(cut, s) ==> c in s
  {
  }

  lemma TrimIsTrimmed(s: string)
    ensures Trimmed(Trim(s))
    ensures Trimmed(s) ==> Trim(s) == s
    ensures Trim(Trim(s)) == Trim(s)
  {
    TrimByClean(IsSpace, s);
    TrimByClean(IsSpace, Trim(s));
  }

  lemma {:induction false} SkipsTo(cut: char -> bool, s: string, i: nat, n: nat)
    requires i <= n <= |s| && (forall k :: i <= k < n ==> cut(s[k])) && (n < |s| ==> !cut(s[n]))
    ensures SkipFrom(cut, s, i) == n
    decreases n - i
  {
    if i < n {
      SkipsTo(cut, s, i + 1, n);
    }
  }

  lemma {:induction false} GoesBackTo(cut: char -> bool, s: string, low: nat, end: nat, n: nat)
    requires low <= n <= end <= |s| && (forall k :: n <= k < end ==> cut(s[k])) && (low < n ==> !cut(s[n - 1]))
    ensures BackTo(cut, s, low, end) == n
    decreases end
  {
    if n < end {
      GoesBackTo(cut, s, low, end - 1, n);
    }
  }

  /** A text is what trimming leaves between characters that are cut. */
  lemma TrimByParts(cut: char -> bool, s: string) returns (l: string, r: string)
    ensures s == l + TrimBy(cut, s) + r
    ensures (forall c :: c in l ==> cut(c)) && (forall c :: c in r ==> cut(c))
  {
    var i := SkipFrom(cut, s, 0);
    var j := BackTo(cut, s, i, |s|);
    SkippedAreCut(cut, s, 0);
    LeftOutAreCut(cut, s, i, |s|);
    l, r := s[..i], s[j..];
  }

  /** Trimming takes all the white space around a text and nothing else. */
  lemma TrimPadding(l: string, x: string, r: string)
    requires Trimmed(x) && (forall c :: c in l ==> IsSpace(c)) && (forall c :: c in r ==> IsSpace(c))
    ensures Trim(l + x + r) == x
  {
    hide IsSpace;
    var s := l + x + r;
    if x == "" {
      assert forall k :: 0 <= k < |s| ==> s[k] in l || s[k] in r;
      SkipsTo(IsSpace, s, 0, |s|);
    } else {
      assert s[|l|] == x[0] && s[|l| + |x| - 1] == x[|x| - 1];
      assert forall k :: 0 <= k < |l| ==> s[k] == l[k] && s[k] in l;
      assert forall k :: |l| + |x| <= k < |s| ==> s[k] == r[k - |l| - |x|] && s[k] in r;
      SkipsTo(IsSpace, s, 0, |l|);
      GoesBackTo(IsSpace, s, |l|, |s|, |l| + |x|);
    }
  }

  // ---- Splitting and joining ----

  /** `strings.Split` for a one-character separator. */
  function Split(s: string, sep: char): (r: seq<string>)
    ensures r != []
  {
    if s == "" then [""]
    else
      var rest := Split(s[1..], sep);
      if s[0] == sep then [""] + rest else [[s[0]] + rest[0]] + rest[1..]
  }

  function Join(parts: seq<string>, sep: char): string {
    if parts == [] then ""
    else if |parts| == 1 then parts[0]
    else parts[0] + [sep] + Join(parts[1..], sep)
  }

  lemma {:induction false} SplitWhole(s: string, sep: char)
    requires sep !in s
    ensures Split(s, sep) == [s]
  {
    if s != "" {
      SplitWhole(s[1..], sep);
      assert [s[0]] + s[1..] == s;
    }
  }

  lemma {:induction false} SplitAtFirst(a: string, sep: char, rest: string)
    requires sep !in a
    ensures Split(a + [sep] + rest, sep) == [a] + Split(rest, sep)
  {
    var s := a + [sep] + rest;
    if a == "" {
      assert s[1..] == rest;
    } else {
      assert s[1..] == a[1..] + [sep] + rest;
      SplitAtFirst(a[1..], sep, rest);
      assert [a[0]] + a[1..] == a;
    }
  }

  /** Splitting undoes joining when no part contains the separator. */
  lemma {:induction false} SplitJoin(parts: seq<string>, sep: char)
    requires parts != []
    requires forall p :: p in parts ==> sep !in p
    ensures Split(Join(parts, sep), sep) == parts
  {
    if |parts| == 1 {
      SplitWhole(parts[0], sep);
    } else {
      SplitJoin(parts[1..], sep);
      SplitAtFirst(parts[0], sep, Join(parts[1..], sep));
    }
  }

  /** Joining undoes splitting, and the parts are free of the separator. */
  lemma {:induction false} JoinSplit(s: string, sep: char)
    ensures Join(Split(s, sep), sep) == s
    ensures forall p :: p in Split(s, sep) ==> sep !in p
  {
    if s != "" {
      var rest := Split(s[1..], sep);
      JoinSplit(s[1..], sep);
      assert rest[0] in rest && forall p :: p in rest[1..] ==> p in rest;
      assert s == [s[0]] + s[1..];
      if s[0] == sep {
        assert Split(s, sep)[1..] == rest;
      } else {
        assert Split(s, sep)[1..] == rest[1..];
        JoinHead([s[0]], rest, sep);
      }
    }
  }

  lemma JoinHead(a: string, parts: seq<string>, sep: char)
    requires parts != []
    ensures Join([a + parts[0]] + parts[1..], sep) == a + Join(parts, sep)
  {
    assert ([a + parts[0]] + parts[1..])[1..] == parts[1..];
  }

  /** `strings.Cut`, the two-part form of `strings.SplitN(s, sep, 2)`. */
  function Cut(s: string, sep: char): (r: Option<(string, string)>)
    ensures r.Some? <==> sep in s
    ensures r.Some? ==> s == r.value.0 + [sep] + r.value.1 && sep !in r.value.0
  {
    if s == "" then None
    else if s[0] == sep then Some(("", s[1..]))
    else
      match Cut(s[1..], sep)
      case None => None
      case Some((a, b)) => Some(([s[0]] + a, b))
  }

  lemma {:induction false} CutAtFirst(a: string, sep: char, rest: string)
    requires sep !in a
    ensures Cut(a + [sep] + rest, sep) == Some((a, rest))
  {
    var s := a + [sep] + rest;
    if a == "" {
      assert s[1..] == rest;
    } else {
      assert s[1..] == a[1..] + [sep] + rest;
      CutAtFirst(a[1..], sep, rest);
      assert [a[0]] + a[1..] == a;
    }
  }

  // ---- Decimal numbers ----

  predicate IsDigit(c: char) { '0' <= c <= '9' }

  predicate AllDigits(s: string) { forall c :: c in s ==> IsDigit(c) }

  function DigitsOf(n: nat): (s: string)
    ensures s != "" && AllDigits(s)
  {
    if n < 10 then [('0' as int + n) as char] else DigitsOf(n / 10) + [('0' as int + n % 10) as char]
  }

  function ValueOf(s: string): nat
    requires AllDigits(s)
  {
    if s == "" then 0
    else
      assert IsDigit(s[|s| - 1]);
      ValueOf(s[..|s| - 1]) * 10 + (s[|s| - 1] as int - '0' as int)
  }

  /** `%d`. */
  function Decimal(n: int): string {
    if n < 0 then "-" + DigitsOf(-n) else DigitsOf(n)
  }

  /** `strconv.ParseInt(s, 10, 32)`: an optional sign, at least one digit, and the int32 range. */
  function ParseInt32(s: string): (r: Result<int>)
    ensures r.Ok? ==> MIN_INT32 <= r.value <= MAX_INT32
  {
    var signed := s != "" && (s[0] == '-' || s[0] == '+');
    var digits := if signed then s[1..] else s;
    if digits == "" || !AllDigits(digits) then Err
    else
      var n: int := if signed && s[0] == '-' then 0 - ValueOf(digits) else ValueOf(digits);
      if MIN_INT32 <= n <= MAX_INT32 then Ok(n) else Err
  }

  lemma {:induction false} ValueOfDigits(n: nat)
    ensures ValueOf(DigitsOf(n)) == n
  {
    if n >= 10 {
      ValueOfDigits(n / 10);
      var s := DigitsOf(n);
      assert s[..|s| - 1] == DigitsOf(n / 10);
    } else {
      assert DigitsOf(n)[..0] == "";
    }
  }

  /** Printing and parsing are inverse within int32, and parsing rejects everything beyond it. */
  lemma ParseDecimal(n: int)
    ensures ParseInt32(Decimal(n)) == if MIN_INT32 <= n <= MAX_INT32 then Ok(n) else Err
  {
    var abs := if n < 0 then -n else n;
    ValueOfDigits(abs);
    if n < 0 {
      assert Decimal(n)[1..] == DigitsOf(abs);
    } else {
      assert IsDigit(Decimal(n)[0]);
    }
  }

  /** What an optional sign in front of digits stands for. */
  ghost predicate Reads(s: string, n: int) {
    exists sign, digits :: s == sign + digits && sign in ["", "+", "-"] && digits != "" && AllDigits(digits)
      && n == if sign == "-" then 0 - ValueOf(digits) else ValueOf(digits)
  }

  /** Exactly the int32 numbers that are written as an optional sign and digits are parsed. */
  lemma ParseInt32Exact(s: string, n: int)
    ensures ParseInt32(s) == Ok(n) <==> Reads(s, n) && MIN_INT32 <= n <= MAX_INT32
  {
    if ParseInt32(s) == Ok(n) {
      var signed := s[0] == '-' || s[0] == '+';
      var sign, digits := if signed then [s[0]] else "", if signed then s[1..] else s;
      assert s == sign + digits && sign in ["", "+", "-"];
    }
    if Reads(s, n) {
      var sign, digits :| s == sign + digits && sign in ["", "+", "-"] && digits != "" && AllDigits(digits)
        && n == if sign == "-" then 0 - ValueOf(digits) else ValueOf(digits);
      if sign == "" {
        assert s == digits && s[0] in digits;
      } else {
        assert s[1..] == digits && s[0] == sign[0];
      }
    }
  }

  lemma DecimalCharacters(n: int)
    ensures Decimal(n) != "" && forall c :: c in Decimal(n) ==> IsDigit(c) || c == '-'
  {
  }
}
