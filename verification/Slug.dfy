/** Tag slugs (internal/netbox/client.go:465-499). */
module Slug {
  import opened Text

  /** Go's Unicode tables: lower-casing and the letter and digit classes. */
  datatype Unicode = Unicode(lower: char -> char, letter: char -> bool, digit: char -> bool)

  predicate Ascii(c: char) { c < '\U{0080}' }

  predicate IsLower(c: char) { 'a' <= c <= 'z' }

  predicate IsUpper(c: char) { 'A' <= c <= 'Z' }

  /** The tables agree with ASCII on ASCII, and lower-casing leaves no ASCII capital. */
  ghost predicate AgreesWithAscii(u: Unicode) {
    && (forall c :: Ascii(c) ==> (u.letter(c) <==> IsLower(c) || IsUpper(c)))
    && (forall c :: Ascii(c) ==> (u.digit(c) <==> IsDigit(c)))
    && (forall c :: Ascii(c) && !IsUpper(c) ==> u.lower(c) == c)
    && (forall c :: !IsUpper(u.lower(c)))
  }

  predicate IsSeparator(c: char) { c == '-' || c == '_' }

  predicate IsAlnum(c: char) { IsLower(c) || IsDigit(c) }

  predicate IsSlugChar(c: char) { IsAlnum(c) || IsSeparator(c) }

  function ToLower(u: Unicode, s: string): string {
    seq(|s|, i requires 0 <= i < |s| => u.lower(s[i]))
  }

  // ---- The three passes ----

  /** The builder after one more character: letters and digits are kept, anything else becomes one
      separator, and no separator follows another or comes first. */
  function Emit(u: Unicode, b: string, c: char): string {
    if u.letter(c) || u.digit(c) then b + [c]
    else if b == "" || IsSeparator(b[|b| - 1]) then b
    else b + [if IsSeparator(c) then c else '-']
  }

  function Emitted(u: Unicode, s: string): string {
    if s == "" then "" else Emit(u, Emitted(u, s[..|s| - 1]), s[|s| - 1])
  }

  /** Every maximal run of characters outside `[a-z0-9_-]` becomes one hyphen. */
  function Squash(s: string): string {
    if s == "" then ""
    else
      var last := |s| - 1;
      Squash(s[..last]) +
      (if IsSlugChar(s[last]) then [s[last]] else if last > 0 && !IsSlugChar(s[last - 1]) then [] else "-")
  }

  function Normalised(u: Unicode, value: string): string {
    Trim(ToLower(u, value))
  }

  function Cleaned(built: string): string {
    TrimBy(IsSeparator, Squash(TrimBy(IsSeparator, built)))
  }

  function SlugOf(u: Unicode, value: string): string {
    var v := Normalised(u, value);
    if v == "" then "tag"
    else
      var slug := Cleaned(Emitted(u, v));
      if slug == "" then "tag" else slug
  }

  /** The code's loop keeps a flag instead of looking at the last character written. */
  method SlugifyTag(u: Unicode, value: string) returns (r: string)
    requires AgreesWithAscii(u)
    ensures r == SlugOf(u, value)
  {
    hide Squash, TrimBy;
    var v := Trim(ToLower(u, value));
    if v == "" {
      return "tag";
    }
    var b := "";
    var lastHyphen := false;
    for i := 0 to |v|
      invariant b == Emitted(u, v[..i])
      invariant lastHyphen <==> b != "" && IsSeparator(b[|b| - 1])
    {
      assert v[..i + 1][..i] == v[..i];
      var c := v[i];
      if u.letter(c) || u.digit(c) {
        assert !IsSeparator(c);
        b := b + [c];
        lastHyphen := false;
      } else if c == '_' || c == '-' {
        if !lastHyphen && |b| > 0 {
          b := b + [c];
          lastHyphen := true;
        }
      } else if !lastHyphen && |b| > 0 {
        b := b + "-";
        lastHyphen := true;
      }
    }
    assert v[..|v|] == v;
    hide AgreesWithAscii, Emitted, Trim;
    var slug := TrimBy(IsSeparator, b);
    slug := Squash(slug);
    slug := TrimBy(IsSeparator, slug);
    if slug == "" {
      return "tag";
    }
    return slug;
  }

  // ---- What a slug looks like ----

  /** A non-empty string over `[a-z0-9_-]` that starts and ends with a letter or digit. */
  predicate SlugShaped(s: string) {
    && s != ""
    && (forall c :: c in s ==> IsSlugChar(c))
    && IsAlnum(s[0]) && IsAlnum(s[|s| - 1])
  }

  predicate NoAdjacentSeparators(s: string) {
    forall i :: 0 < i < |s| ==> !(IsSeparator(s[i - 1]) && IsSeparator(s[i]))
  }

  predicate IsSlug(s: string) {
    SlugShaped(s) && NoAdjacentSeparators(s)
  }

  lemma {:induction false} SquashIsSlugChars(s: string)
    ensures forall c :: c in Squash(s) ==> IsSlugChar(c)
    ensures (forall c :: c in s ==> IsSlugChar(c)) ==> Squash(s) == s
  {
    if s != "" {
      var last := |s| - 1;
      SquashIsSlugChars(s[..last]);
      assert s == s[..last] + [s[last]];
      assert s[last] in s && forall c :: c in s[..last] ==> c in s;
    }
  }

  /** Every name gets a well-shaped slug. */
  lemma SlugHasShape(u: Unicode, value: string)
    ensures SlugShaped(SlugOf(u, value))
  {
    CleanedShape(Emitted(u, Normalised(u, value)));
    hide Emitted, Normalised, Cleaned;
  }

  lemma CleanedShape(e: string)
    ensures Cleaned(e) != "" ==> SlugShaped(Cleaned(e))
  {
    var squashed := Squash(TrimBy(IsSeparator, e));
    SquashIsSlugChars(TrimBy(IsSeparator, e));
    hide Squash;
    TrimByClean(IsSeparator, squashed);
    hide TrimBy;
    var slug := TrimBy(IsSeparator, squashed);
    assert slug != "" ==> slug[0] in slug && slug[|slug| - 1] in slug;
  }

  /** The letters and digits of the lower-cased name are ASCII; any other character is allowed. */
  predicate AsciiWords(u: Unicode, value: string) {
    forall c :: c in Normalised(u, value) && (u.letter(c) || u.digit(c)) ==> Ascii(c)
  }

  lemma {:induction false} EmittedAscii(u: Unicode, s: string)
    requires AgreesWithAscii(u)
    requires forall c :: c in s && (u.letter(c) || u.digit(c)) ==> IsAlnum(c)
    ensures forall c :: c in Emitted(u, s) ==> IsSlugChar(c)
    ensures NoAdjacentSeparators(Emitted(u, s))
  {
    if s != "" {
      EmittedAscii(u, s[..|s| - 1]);
      assert s[|s| - 1] in s;
    }
  }

  lemma NormalisedHasNoCapitals(u: Unicode, value: string, c: char)
    requires AgreesWithAscii(u) && c in Normalised(u, value)
    ensures !IsUpper(c)
  {
    TrimByClean(IsSpace, ToLower(u, value));
    var i :| 0 <= i < |value| && ToLower(u, value)[i] == c;
  }

  lemma AsciiSlug(u: Unicode, value: string)
    requires AgreesWithAscii(u) && AsciiWords(u, value)
    ensures IsSlug(SlugOf(u, value))
  {
    SlugHasShape(u, value);
    var v := Normalised(u, value);
    forall c | c in v && (u.letter(c) || u.digit(c))
      ensures IsAlnum(c)
    {
      NormalisedHasNoCapitals(u, value, c);
    }
    EmittedAscii(u, v);
    var cut := TrimBy(IsSeparator, Emitted(u, v));
    TrimByClean(IsSeparator, Emitted(u, v));
    SquashIsSlugChars(cut);
    TrimByClean(IsSeparator, cut);
  }

  lemma {:induction false} EmittedSlug(u: Unicode, s: string)
    requires AgreesWithAscii(u)
    requires forall c :: c in s ==> IsSlugChar(c)
    requires NoAdjacentSeparators(s) && (s != "" ==> IsAlnum(s[0]))
    ensures Emitted(u, s) == s
  {
    if s != "" {
      var w, c := s[..|s| - 1], s[|s| - 1];
      assert s == w + [c] && c in s;
      assert forall d :: d in w ==> d in s;
      ShorterSlug(s);
      EmittedSlug(u, w);
      hide Emitted, NoAdjacentSeparators;
      EmitSlugChar(u, w, c);
      EmittedOn(u, w, c);
    }
  }

  lemma EmittedOn(u: Unicode, w: string, c: char)
    ensures Emitted(u, w + [c]) == Emit(u, Emitted(u, w), c)
  {
    assert (w + [c])[..|w|] == w;
  }

  lemma ShorterSlug(s: string)
    requires s != "" && NoAdjacentSeparators(s) && IsAlnum(s[0])
    ensures NoAdjacentSeparators(s[..|s| - 1])
    ensures IsSeparator(s[|s| - 1]) ==> |s| > 1 && !IsSeparator(s[|s| - 2])
  {
  }

  lemma EmitSlugChar(u: Unicode, w: string, c: char)
    requires AgreesWithAscii(u) && IsSlugChar(c)
    requires IsSeparator(c) ==> w != "" && !IsSeparator(w[|w| - 1])
    ensures Emit(u, w, c) == w + [c]
  {
    assert Ascii(c);
  }

  lemma ShapedIsNormal(u: Unicode, s: string)
    requires AgreesWithAscii(u) && SlugShaped(s)
    ensures Normalised(u, s) == s
  {
    forall i | 0 <= i < |s|
      ensures u.lower(s[i]) == s[i]
    {
      assert s[i] in s;
    }
    assert ToLower(u, s) == s;
    TrimIsTrimmed(s);
  }

  lemma ShapedIsClean(s: string)
    requires SlugShaped(s)
    ensures Cleaned(s) == s
  {
    TrimByClean(IsSeparator, s);
    SquashIsSlugChars(s);
  }

  lemma SlugIsFixed(u: Unicode, s: string)
    requires AgreesWithAscii(u) && IsSlug(s)
    ensures SlugOf(u, s) == s
  {
    ShapedIsNormal(u, s);
    EmittedSlug(u, s);
    ShapedIsClean(s);
  }

  lemma ShapedIsAscii(u: Unicode, s: string)
    requires SlugShaped(s) && Normalised(u, s) == s
    ensures AsciiWords(u, s)
  {
  }

  /** The names that are their own slug are exactly the slugs. */
  lemma FixedPointsAreSlugs(u: Unicode, s: string)
    requires AgreesWithAscii(u)
    ensures SlugOf(u, s) == s <==> IsSlug(s)
  {
    if IsSlug(s) {
      SlugIsFixed(u, s);
    }
    if SlugOf(u, s) == s {
      SlugHasShape(u, s);
      ShapedIsNormal(u, s);
      ShapedIsAscii(u, s);
      hide Normalised, Cleaned, Emitted;
      AsciiSlug(u, s);
    }
  }

  /** Slugs of names with ASCII words are stable. */
  lemma SlugIdempotent(u: Unicode, value: string)
    requires AgreesWithAscii(u) && AsciiWords(u, value)
    ensures SlugOf(u, SlugOf(u, value)) == SlugOf(u, value)
  {
    AsciiSlug(u, value);
    SlugIsFixed(u, SlugOf(u, value));
  }

  /** Without ASCII words they need not be: a letter outside ASCII after a hyphen leaves two hyphens, and
      slugging again removes one. */
  lemma ForeignLetterBreaksIdempotence(u: Unicode, letter: char)
    requires AgreesWithAscii(u)
    requires u.letter(letter) && !Ascii(letter) && u.lower(letter) == letter
    ensures SlugOf(u, ['a', '-', letter, 'b']) == "a--b"
    ensures SlugOf(u, "a--b") == "a-b"
  {
    FirstPass(u, letter);
    SecondPass(u);
  }

  lemma FirstPass(u: Unicode, letter: char)
    requires AgreesWithAscii(u)
    requires u.letter(letter) && !Ascii(letter) && u.lower(letter) == letter
    ensures SlugOf(u, ['a', '-', letter, 'b']) == "a--b"
  {
    var name := ['a', '-', letter, 'b'];
    assert Normalised(u, name) == name by {
      assert Ascii('a') && Ascii('b') && Ascii('-');
      assert ToLower(u, name) == name;
      TrimIsTrimmed(name);
    }
    assert Emitted(u, name) == name by {
      assert Ascii('a') && Ascii('b') && Ascii('-');
      EmitFour(u, 'a', '-', letter, 'b');
    }
    assert Cleaned(name) == "a--b" by {
      TrimByClean(IsSeparator, name);
      SquashFour(letter);
      TrimByClean(IsSeparator, "a--b");
    }
  }

  lemma SecondPass(u: Unicode)
    requires AgreesWithAscii(u)
    ensures SlugOf(u, "a--b") == "a-b"
  {
    ShapedIsNormal(u, "a--b");
    EmitFour(u, 'a', '-', '-', 'b');
    assert Ascii('a') && Ascii('b') && Ascii('-');
    assert Emitted(u, "a--b") == "a-b";
    ShapedIsClean("a-b");
  }

  lemma SquashFour(letter: char)
    requires !Ascii(letter)
    ensures Squash(['a', '-', letter, 'b']) == "a--b"
  {
    var s := ['a', '-', letter, 'b'];
    assert s[..3] == ['a', '-', letter] && s[..3][..2] == "a-";
    SquashIsSlugChars("a-");
    assert Squash(s[..3]) == Squash("a-") + "-";
    assert Squash(s) == Squash(s[..3]) + "b";
  }

  lemma EmitFour(u: Unicode, a: char, b: char, c: char, d: char)
    ensures Emitted(u, [a, b, c, d]) == Emit(u, Emit(u, Emit(u, Emit(u, "", a), b), c), d)
  {
    var s := [a, b, c, d];
    assert s[..3] == [a, b, c] && s[..3][..2] == [a, b] && [a, b][..1] == [a] && [a][..0] == "";
    assert Emitted(u, [a]) == Emit(u, "", a);
    assert Emitted(u, [a, b]) == Emit(u, Emitted(u, [a]), b);
    assert Emitted(u, [a, b, c]) == Emit(u, Emitted(u, [a, b]), c);
  }

  // ---- Exactly when slugs are stable ----

  /** A letter or digit outside `[a-z0-9]`. */
  predicate IsForeign(u: Unicode, c: char) {
    (u.letter(c) || u.digit(c)) && !IsAlnum(c)
  }

  predicate IsOther(u: Unicode, c: char) {
    !u.letter(c) && !u.digit(c)
  }

  /** Between the ASCII letters or digits at `i` and `j`, and with none in between, there are both a foreign letter
      or digit and a character that is neither letter nor digit. */
  predicate MixedBetween(u: Unicode, v: string, i: int, j: int) {
    && 0 <= i < j < |v| && IsAlnum(v[i]) && IsAlnum(v[j])
    && (forall k :: i < k < j ==> !IsAlnum(v[k]))
    && (exists k :: i < k < j && IsForeign(u, v[k]))
    && (exists k :: i < k < j && IsOther(u, v[k]))
  }

  predicate HasMixedStretch(u: Unicode, v: string) {
    exists i, j :: 0 <= i < j < |v| && MixedBetween(u, v, i, j)
  }

  /** Reading from the left: whether an ASCII letter or digit was seen, what was seen since the last one, and
      whether a mixed stretch was completed. */
  datatype Reading = Reading(open: bool, foreign: bool, other: bool, mixed: bool)

  function ReadOn(u: Unicode, r: Reading, c: char): Reading {
    if IsAlnum(c) then Reading(true, false, false, r.mixed || (r.open && r.foreign && r.other))
    else if IsForeign(u, c) then r.(foreign := true)
    else r.(other := true)
  }

  function Read(u: Unicode, v: string): Reading {
    if v == "" then Reading(false, false, false, false) else ReadOn(u, Read(u, v[..|v| - 1]), v[|v| - 1])
  }

  /** The index after the last ASCII letter or digit. */
  function Since(v: string): (n: nat)
    ensures n <= |v|
    ensures forall k :: n <= k < |v| ==> !IsAlnum(v[k])
    ensures n > 0 ==> IsAlnum(v[n - 1])
  {
    if v == "" then 0
    else if IsAlnum(v[|v| - 1]) then |v|
    else Since(v[..|v| - 1])
  }

  /** What the reading says about the text. */
  lemma {:induction false} ReadMeans(u: Unicode, v: string)
    requires AgreesWithAscii(u)
    ensures var r, n := Read(u, v), Since(v);
      && (r.open <==> n > 0)
      && (r.foreign <==> exists k :: n <= k < |v| && IsForeign(u, v[k]))
      && (r.other <==> exists k :: n <= k < |v| && IsOther(u, v[k]))
      && (r.mixed <==> HasMixedStretch(u, v))
  {
    if v != "" {
      var w, c := v[..|v| - 1], v[|v| - 1];
      ReadMeans(u, w);
      StretchOn(u, v);
      hide HasMixedStretch;
      if IsAlnum(c) {
        assert Ascii(c);
      } else {
        SinceOn(u, v);
        hide Since;
        assert IsForeign(u, c) <==> !IsOther(u, c);
      }
    }
  }

  /** A character that is no ASCII letter or digit adds itself to what was seen. */
  lemma SinceOn(u: Unicode, v: string)
    requires v != "" && !IsAlnum(v[|v| - 1])
    ensures var w, c := v[..|v| - 1], v[|v| - 1];
      var n := Since(w);
      && Since(v) == n
      && ((exists k :: n <= k < |v| && IsForeign(u, v[k])) <==> IsForeign(u, c) || exists k :: n <= k < |w| && IsForeign(u, w[k]))
      && ((exists k :: n <= k < |v| && IsOther(u, v[k])) <==> IsOther(u, c) || exists k :: n <= k < |w| && IsOther(u, w[k]))
  {
    var w, c := v[..|v| - 1], v[|v| - 1];
    assert v == w + [c];
    assert forall k :: 0 <= k < |w| ==> v[k] == w[k];
    if k :| Since(w) <= k < |w| && IsForeign(u, w[k]) {
      assert IsForeign(u, v[k]);
    }
    if k :| Since(w) <= k < |w| && IsOther(u, w[k]) {
      assert IsOther(u, v[k]);
    }
    assert IsForeign(u, c) ==> IsForeign(u, v[|w|]);
    assert IsOther(u, c) ==> IsOther(u, v[|w|]);
  }

  /** Both kinds stand after the last ASCII letter or digit. */
  predicate BothSince(u: Unicode, w: string) {
    var n := Since(w);
    && n > 0
    && (exists k :: n <= k < |w| && IsForeign(u, w[k])) && (exists k :: n <= k < |w| && IsOther(u, w[k]))
  }

  /** A mixed stretch of the longer text is one of the shorter, or ends with the last character. */
  lemma StretchOn(u: Unicode, v: string)
    requires v != ""
    ensures HasMixedStretch(u, v) <==>
      (HasMixedStretch(u, v[..|v| - 1]) || (IsAlnum(v[|v| - 1]) && BothSince(u, v[..|v| - 1])))
  {
    var w := v[..|v| - 1];
    if HasMixedStretch(u, w) {
      StretchStays(u, v);
    }
    if IsAlnum(v[|v| - 1]) && BothSince(u, w) {
      StretchEnds(u, v);
    }
    if HasMixedStretch(u, v) {
      StretchSplits(u, v);
    }
  }

  lemma StretchStays(u: Unicode, v: string)
    requires v != "" && HasMixedStretch(u, v[..|v| - 1])
    ensures HasMixedStretch(u, v)
  {
    var w := v[..|v| - 1];
    var i, j :| 0 <= i < j < |w| && MixedBetween(u, w, i, j);
    SameBetween(u, v, i, j);
  }

  lemma SameBetween(u: Unicode, v: string, i: int, j: int)
    requires 0 <= i < j < |v| - 1
    ensures MixedBetween(u, v[..|v| - 1], i, j) <==> MixedBetween(u, v, i, j)
  {
    var w := v[..|v| - 1];
    assert forall k :: 0 <= k < |w| ==> w[k] == v[k];
    if MixedBetween(u, w, i, j) {
      var f :| i < f < j && IsForeign(u, w[f]);
      var o :| i < o < j && IsOther(u, w[o]);
      assert IsForeign(u, v[f]) && IsOther(u, v[o]);
    }
    if MixedBetween(u, v, i, j) {
      var f :| i < f < j && IsForeign(u, v[f]);
      var o :| i < o < j && IsOther(u, v[o]);
      assert IsForeign(u, w[f]) && IsOther(u, w[o]);
    }
  }

  lemma StretchEnds(u: Unicode, v: string)
    requires v != "" && IsAlnum(v[|v| - 1]) && BothSince(u, v[..|v| - 1])
    ensures HasMixedStretch(u, v)
  {
    var w := v[..|v| - 1];
    var n := Since(w);
    assert forall k :: 0 <= k < |w| ==> w[k] == v[k];
    var f :| n <= f < |w| && IsForeign(u, w[f]);
    var o :| n <= o < |w| && IsOther(u, w[o]);
    assert IsForeign(u, v[f]) && IsOther(u, v[o]);
    assert MixedBetween(u, v, n - 1, |w|);
  }

  lemma StretchSplits(u: Unicode, v: string)
    requires v != "" && HasMixedStretch(u, v)
    ensures HasMixedStretch(u, v[..|v| - 1]) || (IsAlnum(v[|v| - 1]) && BothSince(u, v[..|v| - 1]))
  {
    var w := v[..|v| - 1];
    var i, j :| 0 <= i < j < |v| && MixedBetween(u, v, i, j);
    if j < |w| {
      SameBetween(u, v, i, j);
    } else {
      assert forall k :: 0 <= k < |w| ==> w[k] == v[k];
      var f :| i < f < j && IsForeign(u, v[f]);
      var o :| i < o < j && IsOther(u, v[o]);
      assert IsForeign(u, w[f]) && IsOther(u, w[o]);
      assert Since(w) == i + 1;
    }
  }

  // ---- Runs of separators ----

  /** The same reading of a text over `[a-z0-9_-]`: how many separators since the last letter or digit, and whether
      two or more ever stood between two of them. */
  datatype Spacing = Spacing(open: bool, gap: nat, wide: bool)

  function SpaceOn(p: Spacing, c: char): Spacing {
    if IsAlnum(c) then Spacing(true, 0, p.wide || (p.open && p.gap > 1)) else p.(gap := p.gap + 1)
  }

  function Spaces(s: string): Spacing {
    if s == "" then Spacing(false, 0, false) else SpaceOn(Spaces(s[..|s| - 1]), s[|s| - 1])
  }

  /** Of what kind the last character written is. */
  predicate Fits(u: Unicode, e: string, r: Reading) {
    && (r.open ==> e != "")
    && (e != "" ==>
          var c := e[|e| - 1];
          && (IsAlnum(c) ==> r.open && !r.foreign && !r.other)
          && (IsForeign(u, c) ==> r.foreign)
          && (IsSeparator(c) ==> r.other)
          && (IsAlnum(c) || IsForeign(u, c) || IsSeparator(c))
          && (r.open && !r.foreign && !r.other ==> IsAlnum(c)))
  }

  /** Squashing what was written leaves two separators after the last letter or digit exactly if both kinds were
      read there. */
  predicate Mirrors(u: Unicode, e: string, p: Spacing, r: Reading) {
    && Fits(u, e, r)
    && p.open == r.open && p.wide == r.mixed
    && (r.open ==> (p.gap > 1 <==> r.foreign && r.other) && (p.gap > 0 <==> r.foreign || r.other))
  }

  lemma {:induction false} SquashedSpacing(u: Unicode, v: string)
    requires AgreesWithAscii(u) && forall c :: c in v ==> !IsUpper(c)
    ensures Mirrors(u, Emitted(u, v), Spaces(Squash(Emitted(u, v))), Read(u, v))
  {
    if v != "" {
      var last := |v| - 1;
      var w, c := v[..last], v[last];
      assert c in v && forall d :: d in w ==> d in v;
      SquashedSpacing(u, w);
      var e := Emitted(u, w);
      KindsDiffer(u, c);
      SpacingOn(u, e, c);
      hide Squash, Spaces, AgreesWithAscii, Emit, Mirrors;
      NeverForeign(u, e);
      MirrorsOn(u, e, Spaces(Squash(e)), Read(u, w), c);
    }
  }

  /** What is written and squashed for one more character. */
  lemma SpacingOn(u: Unicode, e: string, c: char)
    requires AgreesWithAscii(u) && !IsUpper(c)
    ensures Spaces(Squash(Emit(u, e, c))) == SpacingAfter(u, e, Spaces(Squash(e)), c)
  {
    assert IsAlnum(c) || IsSeparator(c) ==> Ascii(c);
    KindsDiffer(u, c);
    hide Squash, Spaces, AgreesWithAscii;
    if u.letter(c) || u.digit(c) {
      SquashOn(e, c);
    } else if e != "" && !IsSeparator(e[|e| - 1]) {
      var d := if IsSeparator(c) then c else '-';
      SquashOn(e, d);
      assert SpaceOn(Spaces(Squash(e)), d) == SpaceOn(Spaces(Squash(e)), '-');
    }
  }

  lemma NeverForeign(u: Unicode, e: string)
    requires AgreesWithAscii(u)
    ensures e != "" && IsForeign(u, e[|e| - 1]) ==> !IsSlugChar(e[|e| - 1])
  {
    if e != "" {
      assert Ascii(e[|e| - 1]) || !IsSlugChar(e[|e| - 1]);
    }
  }

  lemma KindsDiffer(u: Unicode, c: char)
    requires AgreesWithAscii(u) && !IsUpper(c)
    ensures IsAlnum(c) || IsForeign(u, c) || IsOther(u, c)
    ensures IsAlnum(c) ==> !IsOther(u, c)
    ensures IsForeign(u, c) ==> !IsSlugChar(c)
    ensures !IsForeign(u, '-')
  {
    assert Ascii(c) || !IsSlugChar(c);
    assert Ascii('-');
  }

  /** The spacing after one more character has been written and squashed. */
  function SpacingAfter(u: Unicode, e: string, p: Spacing, c: char): Spacing {
    if IsAlnum(c) then SpaceOn(p, c)
    else if IsForeign(u, c) then (if e != "" && !IsSlugChar(e[|e| - 1]) then p else SpaceOn(p, '-'))
    else if e == "" || IsSeparator(e[|e| - 1]) then p
    else SpaceOn(p, '-')
  }

  lemma MirrorsOn(u: Unicode, e: string, p: Spacing, r: Reading, c: char)
    requires Mirrors(u, e, p, r)
    requires IsAlnum(c) || IsForeign(u, c) || IsOther(u, c)
    requires (IsAlnum(c) ==> !IsOther(u, c)) && (IsForeign(u, c) ==> !IsSlugChar(c))
    requires !IsForeign(u, '-') && (e != "" && IsForeign(u, e[|e| - 1]) ==> !IsSlugChar(e[|e| - 1]))
    ensures Mirrors(u, Emit(u, e, c), SpacingAfter(u, e, p, c), ReadOn(u, r, c))
  {
  }

  /** Squashing one more character. */
  lemma SquashOn(e: string, c: char)
    ensures Spaces(Squash(e + [c])) ==
      if IsSlugChar(c) then SpaceOn(Spaces(Squash(e)), c)
      else if e != "" && !IsSlugChar(e[|e| - 1]) then Spaces(Squash(e))
      else SpaceOn(Spaces(Squash(e)), '-')
  {
    LastSquashed(e, c);
    var q := Squash(e);
    assert q + [] == q;
    assert (q + [c])[..|q|] == q && (q + "-")[..|q|] == q;
  }

  // ---- Trimming ----

  /** Separators around a text do not change what lies between its letters and digits. */
  lemma {:induction false} SpacesBefore(l: string, s: string)
    requires forall c :: c in l ==> !IsAlnum(c)
    ensures Spaces(l + s).open == Spaces(s).open && Spaces(l + s).wide == Spaces(s).wide
    ensures Spaces(s).open ==> Spaces(l + s).gap == Spaces(s).gap
  {
    if s != "" {
      assert (l + s)[..|l + s| - 1] == l + s[..|s| - 1];
      SpacesBefore(l, s[..|s| - 1]);
    } else {
      assert l + s == l;
      OnlySpaces(l);
    }
  }

  lemma {:induction false} OnlySpaces(l: string)
    requires forall c :: c in l ==> !IsAlnum(c)
    ensures !Spaces(l).open && !Spaces(l).wide
  {
    if l != "" {
      assert forall c :: c in l[..|l| - 1] ==> c in l;
      assert l[|l| - 1] in l;
      OnlySpaces(l[..|l| - 1]);
    }
  }

  lemma {:induction false} SpacesAfter(s: string, r: string)
    requires forall c :: c in r ==> !IsAlnum(c)
    ensures Spaces(s + r).open == Spaces(s).open && Spaces(s + r).wide == Spaces(s).wide
  {
    if r != "" {
      assert (s + r)[..|s + r| - 1] == s + r[..|r| - 1];
      assert r[|r| - 1] in r && forall c :: c in r[..|r| - 1] ==> c in r;
      SpacesAfter(s, r[..|r| - 1]);
    } else {
      assert s + r == s;
    }
  }

  /** Slug characters at the ends pass through squashing. */
  lemma {:induction false} SquashBefore(l: string, s: string)
    requires forall c :: c in l ==> IsSlugChar(c)
    ensures Squash(l + s) == l + Squash(s)
  {
    if s == "" {
      assert l + s == l && l + Squash(s) == l;
      SquashIsSlugChars(l);
    } else {
      hide Squash, IsSlugChar;
      var w, c := s[..|s| - 1], s[|s| - 1];
      assert s == w + [c] && l + s == (l + w) + [c];
      SquashBefore(l, w);
      SquashBeforeOn(l, w, c);
    }
  }

  lemma SquashBeforeOn(l: string, w: string, c: char)
    requires forall d :: d in l ==> IsSlugChar(d)
    requires Squash(l + w) == l + Squash(w)
    ensures Squash((l + w) + [c]) == l + Squash(w + [c])
  {
    hide Squash;
    LastSquashed(l + w, c);
    LastSquashed(w, c);
    assert LastOf(l + w, c) == LastOf(w, c) by {
      assert w == "" && l != "" ==> (l + w)[|l + w| - 1] == l[|l| - 1] && l[|l| - 1] in l;
    }
    hide LastOf, IsSlugChar;
    assert (l + Squash(w)) + LastOf(w, c) == l + (Squash(w) + LastOf(w, c));
  }

  /** What squashing makes of one more character. */
  function LastOf(e: string, c: char): string {
    if IsSlugChar(c) then [c] else if e != "" && !IsSlugChar(e[|e| - 1]) then [] else "-"
  }

  lemma LastSquashed(e: string, c: char)
    ensures Squash(e + [c]) == Squash(e) + LastOf(e, c)
  {
    assert (e + [c])[..|e|] == e;
  }

  lemma {:induction false} SquashAfter(s: string, r: string)
    requires forall c :: c in r ==> IsSlugChar(c)
    ensures Squash(s + r) == Squash(s) + r
  {
    if r == "" {
      assert s + r == s && Squash(s) + r == Squash(s);
    } else {
      var last := |r| - 1;
      assert (s + r)[..|s + r| - 1] == s + r[..last];
      assert r[last] in r && forall c :: c in r[..last] ==> c in r;
      SquashAfter(s, r[..last]);
      assert Squash(s) + r == Squash(s) + r[..last] + [r[last]];
    }
  }

  /** Trimming before and after squashing does not matter to what lies between letters and digits. */
  lemma CleanedSpacing(e: string)
    ensures Spaces(Cleaned(e)).wide == Spaces(Squash(e)).wide
  {
    var t := TrimBy(IsSeparator, e);
    var l, r := TrimByParts(IsSeparator, e);
    SquashAfter(l + t, r);
    SquashBefore(l, t);
    SpacesAfter(l + Squash(t), r);
    SpacesBefore(l, Squash(t));
    var l', r' := TrimByParts(IsSeparator, Squash(t));
    SpacesAfter(l' + Cleaned(e), r');
    SpacesBefore(l', Cleaned(e));
  }

  /** In a text that starts with a letter or digit, adjacent separators are wide gaps, or stand at its end. */
  lemma {:induction false} AdjacentIsWide(s: string)
    requires s != "" && IsAlnum(s[0]) && forall c :: c in s ==> IsSlugChar(c)
    ensures Spaces(s).open
    ensures NoAdjacentSeparators(s) <==> !Spaces(s).wide && Spaces(s).gap <= 1
    ensures Spaces(s).gap > 0 <==> IsSeparator(s[|s| - 1])
  {
    var last := |s| - 1;
    var w := s[..last];
    assert s[last] in s && forall c :: c in w ==> c in s;
    if last > 0 {
      AdjacentIsWide(w);
      OneMoreAdjacent(s);
      hide NoAdjacentSeparators;
    } else {
      assert w == "";
    }
  }

  lemma OneMoreAdjacent(s: string)
    requires |s| > 1
    ensures NoAdjacentSeparators(s) <==>
      NoAdjacentSeparators(s[..|s| - 1]) && !(IsSeparator(s[|s| - 2]) && IsSeparator(s[|s| - 1]))
  {
    var w := s[..|s| - 1];
    assert forall i :: 0 <= i < |w| ==> w[i] == s[i];
    if NoAdjacentSeparators(w) && !(IsSeparator(s[|s| - 2]) && IsSeparator(s[|s| - 1])) {
      forall i | 0 < i < |s|
        ensures !(IsSeparator(s[i - 1]) && IsSeparator(s[i]))
      {
        assert i < |w| ==> !(IsSeparator(w[i - 1]) && IsSeparator(w[i]));
      }
    }
  }

  /** The slug has no two adjacent separators, and is its own slug, if and only if the normalised name has no stretch
      between two ASCII letters or digits with both a foreign letter or digit and a character that is neither. */
  lemma StableIffNoMixedStretch(u: Unicode, value: string)
    requires AgreesWithAscii(u)
    ensures NoAdjacentSeparators(SlugOf(u, value)) <==> !HasMixedStretch(u, Normalised(u, value))
    ensures SlugOf(u, SlugOf(u, value)) == SlugOf(u, value) <==> !HasMixedStretch(u, Normalised(u, value))
  {
    var v, slug := Normalised(u, value), SlugOf(u, value);
    SlugHasShape(u, value);
    FixedPointsAreSlugs(u, slug);
    AdjacentIsWide(slug);
    ReadMeans(u, v);
    forall c | c in v
      ensures !IsUpper(c)
    {
      NormalisedHasNoCapitals(u, value, c);
    }
    SquashedSpacing(u, v);
    CleanedSpacing(Emitted(u, v));
    hide HasMixedStretch, Emitted, Squash, Normalised, Spaces;
    TagIsPlain();
  }

  lemma TagIsPlain()
    ensures NoAdjacentSeparators("tag") && !Spaces("").wide && !Spaces("tag").wide
  {
    AdjacentIsWide("tag");
  }

  // ---- Which letters and digits a slug holds ----

  /** The ASCII letters and digits, in order. */
  function Alnums(s: string): string {
    if s == "" then ""
    else Alnums(s[..|s| - 1]) + (if IsAlnum(s[|s| - 1]) then [s[|s| - 1]] else "")
  }

  lemma AlnumsOn(s: string, c: char)
    ensures Alnums(s + [c]) == Alnums(s) + (if IsAlnum(c) then [c] else "")
  {
    assert (s + [c])[..|s|] == s;
  }

  lemma {:induction false} AlnumsJoin(a: string, b: string)
    ensures Alnums(a + b) == Alnums(a) + Alnums(b)
  {
    if b == "" {
      assert a + b == a;
    } else {
      var w, c := b[..|b| - 1], b[|b| - 1];
      assert b == w + [c] && a + b == (a + w) + [c];
      hide Alnums;
      AlnumsJoin(a, w);
      AlnumsOn(a + w, c);
      AlnumsOn(w, c);
    }
  }

  lemma {:induction false} NoAlnums(s: string)
    requires forall c :: c in s ==> !IsAlnum(c)
    ensures Alnums(s) == ""
  {
    if s != "" {
      assert s[|s| - 1] in s && forall c :: c in s[..|s| - 1] ==> c in s;
      NoAlnums(s[..|s| - 1]);
    }
  }

  /** Trimming cuts none, if it cuts no letter or digit. */
  lemma TrimKeepsAlnums(cut: char -> bool, s: string)
    requires forall c :: cut(c) ==> !IsAlnum(c)
    ensures Alnums(TrimBy(cut, s)) == Alnums(s)
  {
    var l, r := TrimByParts(cut, s);
    hide TrimBy, Alnums;
    AlnumsJoin(l + TrimBy(cut, s), r);
    AlnumsJoin(l, TrimBy(cut, s));
    NoAlnums(l);
    NoAlnums(r);
  }

  lemma {:induction false} EmittedKeepsAlnums(u: Unicode, s: string)
    requires AgreesWithAscii(u)
    ensures Alnums(Emitted(u, s)) == Alnums(s)
  {
    if s != "" {
      var w, c := s[..|s| - 1], s[|s| - 1];
      EmittedKeepsAlnums(u, w);
      assert IsAlnum(c) ==> u.letter(c) || u.digit(c) by {
        assert IsAlnum(c) ==> Ascii(c);
      }
      var e := Emitted(u, w);
      AlnumsOn(e, c);
      AlnumsOn(e, '-');
    }
  }

  lemma {:induction false} SquashKeepsAlnums(s: string)
    ensures Alnums(Squash(s)) == Alnums(s)
  {
    if s != "" {
      var w, c := s[..|s| - 1], s[|s| - 1];
      SquashKeepsAlnums(w);
      AlnumsOn(Squash(w), c);
      AlnumsOn(Squash(w), '-');
      assert Squash(w) + [] == Squash(w);
    }
  }

  lemma SomeAlnum(s: string)
    requires s != "" && IsAlnum(s[|s| - 1])
    ensures Alnums(s) != ""
  {
  }

  /** A slug holds the ASCII letters and digits of the lower-cased name, in order; a name without any gets the slug
      `tag`. */
  lemma SlugKeepsLetters(u: Unicode, value: string)
    requires AgreesWithAscii(u)
    ensures var kept := Alnums(ToLower(u, value));
      if kept == "" then SlugOf(u, value) == "tag" else Alnums(SlugOf(u, value)) == kept
  {
    var lower := ToLower(u, value);
    TrimKeepsAlnums(IsSpace, lower);
    var v := Normalised(u, value);
    var e := Emitted(u, v);
    EmittedKeepsAlnums(u, v);
    TrimKeepsAlnums(IsSeparator, e);
    SquashKeepsAlnums(TrimBy(IsSeparator, e));
    TrimKeepsAlnums(IsSeparator, Squash(TrimBy(IsSeparator, e)));
    CleanedShape(e);
    hide TrimBy, Squash, Emitted, ToLower;
    if Cleaned(e) != "" {
      SomeAlnum(Cleaned(e));
    }
  }
}
