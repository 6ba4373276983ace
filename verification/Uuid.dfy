/** The four textual forms of a UUID, and the identifier a text denotes. */
module Uuid {
  import opened Common
  import Topic

  predicate HexDigit(c: char) { '0' <= c <= '9' || 'a' <= c <= 'f' || 'A' <= c <= 'F' }

  function Lower(c: char): char {
    if 'A' <= c <= 'F' then (c as int + 32) as char else c
  }

  /** The digits of `s` in lower case, or nothing when some character is not a hexadecimal digit. */
  function HexDigits(s: string): (digits: Option<string>)
    ensures digits.Some? ==> |digits.value| == |s| && forall c | c in s :: HexDigit(c)
  {
    if s == "" then Some("")
    else if !HexDigit(s[0]) then None
    else
      match HexDigits(s[1..])
      case None => None
      case Some(rest) => Some([Lower(s[0])] + rest)
  }

  function ParseSimple(s: string): Option<string> {
    if |s| == 32 then HexDigits(s) else None
  }

  function ParseHyphenated(s: string): Option<string> {
    if |s| == 36 && s[8] == '-' && s[13] == '-' && s[18] == '-' && s[23] == '-'
    then HexDigits(s[..8] + s[9..13] + s[14..18] + s[19..23] + s[24..])
    else None
  }

  /** The identifier as 32 lower-case digits, whichever form it is written in. */
  function Parse(s: string): Option<string> {
    if |s| == 32 then ParseSimple(s)
    else if |s| == 36 then ParseHyphenated(s)
    else if |s| == 38 && s[0] == '{' && s[37] == '}' then ParseHyphenated(s[1..37])
    else if |s| == 45 && s[..9] == "urn:uuid:" then ParseHyphenated(s[9..])
    else None
  }

  predicate IdChar(c: char) { HexDigit(c) || c == '-' || c == '{' || c == '}' }

  lemma HyphenatedChars(s: string)
    requires ParseHyphenated(s).Some?
    ensures forall c | c in s :: HexDigit(c) || c == '-'
  {
  }

  lemma UrnFormHasColon(s: string)
    ensures |s| == 45 && s[..9] == "urn:uuid:" ==> ':' in s
  {
    if |s| == 45 && s[..9] == "urn:uuid:" {
      assert s[..9][3] == s[3] == ':';
    }
  }

  /** A UUID written without a colon is one whole level on both sides of the topic scheme. */
  lemma UuidsArePlain(s: string)
    requires Parse(s).Some? && ':' !in s
    ensures Topic.PlainSegment(s) && !Topic.IsWildcard(s)
  {
    UrnFormHasColon(s);
    forall c | c in s ensures IdChar(c) {
      if |s| == 36 {
        HyphenatedChars(s);
      } else if |s| == 38 {
        HyphenatedChars(s[1..37]);
        assert s == [s[0]] + s[1..37] + [s[37]];
      }
    }
  }

  // ---------------------------------------------------------------- what is accepted, and as what

  function HexValue(c: char): nat
    requires HexDigit(c)
  {
    if c <= '9' then c as nat - '0' as nat
    else if c <= 'F' then c as nat - 'A' as nat + 10
    else c as nat - 'a' as nat + 10
  }

  /** The digits in groups of eight, four, four, four and twelve. */
  function Grouped(digits: string): string
    requires |digits| == 32
  {
    digits[..8] + "-" + digits[8..12] + "-" + digits[12..16] + "-" + digits[16..20] + "-" + digits[20..]
  }

  /** The four ways of writing 32 digits. */
  predicate Writes(s: string, digits: string) {
    && |digits| == 32
    && (s == digits || s == Grouped(digits) || s == "{" + Grouped(digits) + "}" || s == "urn:uuid:" + Grouped(digits))
  }

  /** The same number, digit by digit, the second in lower case. */
  predicate SameDigits(digits: string, id: string) {
    && |id| == |digits|
    && forall k | 0 <= k < |digits| ::
      && HexDigit(digits[k]) && HexDigit(id[k]) && HexValue(digits[k]) == HexValue(id[k])
      && !('A' <= id[k] <= 'F')
  }

  lemma LowerKeepsTheDigit(c: char, d: char)
    requires HexDigit(c)
    ensures d == Lower(c) <==> HexDigit(d) && HexValue(d) == HexValue(c) && !('A' <= d <= 'F')
  {
  }

  lemma SameDigitsSplit(s: string, id: string)
    requires s != "" && id != "" && HexDigit(s[0])
    ensures SameDigits(s, id) <==> id[0] == Lower(s[0]) && SameDigits(s[1..], id[1..])
  {
    LowerKeepsTheDigit(s[0], id[0]);
    if id[0] == Lower(s[0]) && SameDigits(s[1..], id[1..]) {
      forall k | 1 <= k < |s|
        ensures HexDigit(s[k]) && HexDigit(id[k]) && HexValue(s[k]) == HexValue(id[k]) && !('A' <= id[k] <= 'F')
      {
        assert s[k] == s[1..][k - 1] && id[k] == id[1..][k - 1];
      }
    }
  }

  lemma {:induction false} DigitsMean(s: string, id: string)
    ensures HexDigits(s) == Some(id) <==> SameDigits(s, id)
  {
    if s != "" && HexDigit(s[0]) && id != "" {
      DigitsMean(s[1..], id[1..]);
      SameDigitsSplit(s, id);
      assert id == [id[0]] + id[1..];
    }
  }

  lemma GroupedParts(s: string, d: string)
    requires |s| == 36 && |d| == 32
    ensures s == Grouped(d) <==>
              && s[8] == '-' && s[13] == '-' && s[18] == '-' && s[23] == '-'
              && d == s[..8] + s[9..13] + s[14..18] + s[19..23] + s[24..]
  {
    var g := Grouped(d);
    assert g[8] == '-' && g[13] == '-' && g[18] == '-' && g[23] == '-';
    assert g[..8] == d[..8] && g[9..13] == d[8..12] && g[14..18] == d[12..16] && g[19..23] == d[16..20];
    assert g[24..] == d[20..];
    assert d == d[..8] + d[8..12] + d[12..16] + d[16..20] + d[20..];
    assert s[8..9] == [s[8]] && s[13..14] == [s[13]] && s[18..19] == [s[18]] && s[23..24] == [s[23]];
    assert s == s[..8] + s[8..9] + s[9..13] + s[13..14] + s[14..18] + s[18..19] + s[19..23] + s[23..24] + s[24..];
  }

  ghost predicate GroupedAs(s: string, id: string) {
    exists d: string :: |d| == 32 && s == Grouped(d) && SameDigits(d, id)
  }

  lemma GroupsReadBack(s: string, id: string)
    ensures ParseHyphenated(s) == Some(id) <==> GroupedAs(s, id)
  {
    if |s| == 36 && s[8] == '-' && s[13] == '-' && s[18] == '-' && s[23] == '-' {
      var d := s[..8] + s[9..13] + s[14..18] + s[19..23] + s[24..];
      GroupedParts(s, d);
      DigitsMean(d, id);
    }
    forall e: string | |e| == 32 && s == Grouped(e)
      ensures |s| == 36 && s[8] == '-' && s[13] == '-' && s[18] == '-' && s[23] == '-'
      ensures e == s[..8] + s[9..13] + s[14..18] + s[19..23] + s[24..]
    {
      GroupedParts(s, e);
    }
  }

  lemma WrappedForms(s: string, g: string)
    requires |g| == 36
    ensures s == "{" + g + "}" <==> |s| == 38 && s[0] == '{' && s[37] == '}' && s[1..37] == g
    ensures s == "urn:uuid:" + g <==> |s| == 45 && s[..9] == "urn:uuid:" && s[9..] == g
  {
    var braced, urn := "{" + g + "}", "urn:uuid:" + g;
    assert braced[0] == '{' && braced[37] == '}' && braced[1..37] == g;
    assert urn[..9] == "urn:uuid:" && urn[9..] == g;
    if |s| == 38 && s[0] == '{' && s[37] == '}' {
      assert s == [s[0]] + s[1..37] + [s[37]];
    }
    if |s| == 45 {
      assert s == s[..9] + s[9..];
    }
  }

  /**
   A text is read as an identifier exactly if it writes that identifier's digits, in either case, in one of
   the four ways.
   */
  lemma ReadExactly(s: string, id: string)
    ensures Parse(s) == Some(id) <==> exists d: string :: Writes(s, d) && SameDigits(d, id)
  {
    if d: string :| Writes(s, d) && SameDigits(d, id) {
      WrappedForms(s, Grouped(d));
      if s == d {
        DigitsMean(s, id);
      } else {
        assert GroupedAs(Grouped(d), id);
        GroupsReadBack(Grouped(d), id);
      }
    }
    if Parse(s) == Some(id) {
      var inner := if |s| == 38 then s[1..37] else if |s| == 45 then s[9..] else s;
      if |s| == 32 {
        DigitsMean(s, id);
        assert Writes(s, s);
      } else {
        GroupsReadBack(inner, id);
        var d: string :| |d| == 32 && inner == Grouped(d) && SameDigits(d, id);
        WrappedForms(s, inner);
        assert Writes(s, d);
      }
    }
  }
}
