/** The textual UUID form of section 3 of RFC 4122: 32 hexadecimal digits in five
    hyphen-separated groups of 8, 4, 4, 4 and 12 digits; digits of either case. */
module Uuid {

  predicate IsHexDigit(c: char) {
    '0' <= c <= '9' || 'a' <= c <= 'f' || 'A' <= c <= 'F'
  }

  /** The positions of the four hyphens in a 36-character UUID. */
  predicate IsHyphenPosition(i: int) {
    i == 8 || i == 13 || i == 18 || i == 23
  }

  /** The check behind `z.string().uuid()`, stated position by position. */
  predicate IsUuid(s: string) {
    |s| == 36 &&
    forall i :: 0 <= i < |s| ==> if IsHyphenPosition(i) then s[i] == '-' else IsHexDigit(s[i])
  }

  /** A group of exactly `n` hexadecimal digits. */
  predicate IsHexGroup(g: string, n: nat) {
    |g| == n && forall i :: 0 <= i < |g| ==> IsHexDigit(g[i])
  }

  /** The five groups written with hyphens between them. */
  function Hyphenate(a: string, b: string, c: string, d: string, e: string): string {
    a + "-" + b + "-" + c + "-" + d + "-" + e
  }

  /** Five groups of the right lengths always form a UUID. */
  lemma {:induction false} GroupsFormUuid(a: string, b: string, c: string, d: string, e: string)
    requires IsHexGroup(a, 8) && IsHexGroup(b, 4) && IsHexGroup(c, 4) && IsHexGroup(d, 4) && IsHexGroup(e, 12)
    ensures IsUuid(Hyphenate(a, b, c, d, e))
  {
    var s := Hyphenate(a, b, c, d, e);
    assert |s| == 36;
    forall i | 0 <= i < 36
      ensures if IsHyphenPosition(i) then s[i] == '-' else IsHexDigit(s[i])
    {
      if i < 8 { assert s[i] == a[i]; }
      else if i == 8 { }
      else if i < 13 { assert s[i] == b[i - 9]; }
      else if i == 13 { }
      else if i < 18 { assert s[i] == c[i - 14]; }
      else if i == 18 { }
      else if i < 23 { assert s[i] == d[i - 19]; }
      else if i == 23 { }
      else { assert s[i] == e[i - 24]; }
    }
  }

  /** Every UUID splits at its hyphens into five groups of the right lengths. */
  lemma {:induction false} UuidSplits(s: string)
    requires IsUuid(s)
    ensures IsHexGroup(s[..8], 8) && IsHexGroup(s[9..13], 4) && IsHexGroup(s[14..18], 4)
    ensures IsHexGroup(s[19..23], 4) && IsHexGroup(s[24..], 12)
    ensures s == Hyphenate(s[..8], s[9..13], s[14..18], s[19..23], s[24..])
  {
    assert IsHexGroup(s[..8], 8) by {
      forall i | 0 <= i < 8 ensures IsHexDigit(s[..8][i]) { assert !IsHyphenPosition(i); }
    }
    assert IsHexGroup(s[9..13], 4) by {
      forall i | 0 <= i < 4 ensures IsHexDigit(s[9..13][i]) { assert !IsHyphenPosition(i + 9); }
    }
    assert IsHexGroup(s[14..18], 4) by {
      forall i | 0 <= i < 4 ensures IsHexDigit(s[14..18][i]) { assert !IsHyphenPosition(i + 14); }
    }
    assert IsHexGroup(s[19..23], 4) by {
      forall i | 0 <= i < 4 ensures IsHexDigit(s[19..23][i]) { assert !IsHyphenPosition(i + 19); }
    }
    assert IsHexGroup(s[24..], 12) by {
      forall i | 0 <= i < 12 ensures IsHexDigit(s[24..][i]) { assert !IsHyphenPosition(i + 24); }
    }
    assert IsHyphenPosition(8) && IsHyphenPosition(13) && IsHyphenPosition(18) && IsHyphenPosition(23);
    var h := Hyphenate(s[..8], s[9..13], s[14..18], s[19..23], s[24..]);
    assert |h| == 36;
    forall i | 0 <= i < 36 ensures h[i] == s[i] {
      if i < 8 { assert h[i] == s[..8][i]; }
      else if i == 8 { }
      else if i < 13 { assert h[i] == s[9..13][i - 9]; }
      else if i == 13 { }
      else if i < 18 { assert h[i] == s[14..18][i - 14]; }
      else if i == 18 { }
      else if i < 23 { assert h[i] == s[19..23][i - 19]; }
      else if i == 23 { }
      else { assert h[i] == s[24..][i - 24]; }
    }
  }

  /** The position-wise check and the five-group form describe the same strings. */
  lemma UuidIffGroups(s: string)
    ensures IsUuid(s) <==>
      exists a, b, c, d, e :: IsHexGroup(a, 8) && IsHexGroup(b, 4) && IsHexGroup(c, 4) &&
                              IsHexGroup(d, 4) && IsHexGroup(e, 12) && s == Hyphenate(a, b, c, d, e)
  {
    if IsUuid(s) {
      UuidSplits(s);
    }
    if exists a, b, c, d, e :: IsHexGroup(a, 8) && IsHexGroup(b, 4) && IsHexGroup(c, 4) &&
                               IsHexGroup(d, 4) && IsHexGroup(e, 12) && s == Hyphenate(a, b, c, d, e) {
      var a, b, c, d, e :| IsHexGroup(a, 8) && IsHexGroup(b, 4) && IsHexGroup(c, 4) &&
                           IsHexGroup(d, 4) && IsHexGroup(e, 12) && s == Hyphenate(a, b, c, d, e);
      GroupsFormUuid(a, b, c, d, e);
    }
  }

  /** A string of any other length, or with a non-hexadecimal character in a digit position,
      or without a hyphen at a hyphen position, is rejected. */
  lemma UuidRejects(s: string, i: int)
    requires |s| != 36 || (0 <= i < |s| && IsHyphenPosition(i) && s[i] != '-')
                       || (0 <= i < |s| && !IsHyphenPosition(i) && !IsHexDigit(s[i]))
    ensures !IsUuid(s)
  {
  }

  /** The lead's identifier in the seed data is accepted. */
  lemma SeedLeadIdIsUuid()
    ensures IsUuid(Hyphenate("407bdd34", "6b7c", "44d5", "81b1", "e7926f447f1a"))
  {
    var a, b, c, d, e := "407bdd34", "6b7c", "44d5", "81b1", "e7926f447f1a";
    assert IsHexGroup(a, 8) by { forall i | 0 <= i < 8 ensures IsHexDigit(a[i]) { } }
    assert IsHexGroup(b, 4) by { forall i | 0 <= i < 4 ensures IsHexDigit(b[i]) { } }
    assert IsHexGroup(c, 4) by { forall i | 0 <= i < 4 ensures IsHexDigit(c[i]) { } }
    assert IsHexGroup(d, 4) by { forall i | 0 <= i < 4 ensures IsHexDigit(d[i]) { } }
    assert IsHexGroup(e, 12) by { forall i | 0 <= i < 12 ensures IsHexDigit(e[i]) { } }
    GroupsFormUuid(a, b, c, d, e);
  }

  /** Dropping the hyphens, or a letter beyond `f`, makes the string no UUID. */
  lemma UuidRejectsExamples()
    ensures !IsUuid("123e4567e89b12d3a456426614174000")
    ensures !IsUuid("123e4567-e89b-12d3-a456-42661417400g")
  {
    UuidRejects("123e4567-e89b-12d3-a456-42661417400g", 35);
  }
}
