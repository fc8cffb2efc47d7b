/**
 * The table name a ticker's OHLCV data is written to
 * (equity_market_etl/data_ingestion/fetch_ohlcv.py:14-16): the ticker
 * lower-cased with Python's `str.lower`, every character outside
 * `[a-zA-Z0-9]` replaced by `_`, and the whole prefixed with `ohlcv_`.
 *
 * Characters are Unicode scalar values; a Python `str` may also hold lone
 * surrogates, which this model does not cover. `str.lower`
 * is modelled exactly where it can make a difference to the result: on
 * ASCII letters, and on the two non-ASCII characters whose lower case
 * contains an ASCII letter (KELVIN SIGN, which becomes `k`, and LATIN
 * CAPITAL LETTER I WITH DOT ABOVE, which becomes `i` followed by a
 * combining dot). Every other character is left as it is: its real lower
 * case is non-ASCII as well, and is replaced by `_` all the same.
 */
module TableName {

  const Prefix: string := "ohlcv_"

  const KelvinSign: char := '\U{212A}'
  const CapitalIWithDot: char := '\U{0130}'
  const CombiningDot: char := '\U{0307}'

  predicate IsUpperAscii(c: char) { 'A' <= c <= 'Z' }

  /** The class `[a-zA-Z0-9]` of the pattern of line 16. */
  predicate IsAsciiAlnum(c: char) {
    'a' <= c <= 'z' || 'A' <= c <= 'Z' || '0' <= c <= '9'
  }

  /** The characters a table name is made of after its prefix. */
  predicate IsNameChar(c: char) {
    'a' <= c <= 'z' || '0' <= c <= '9' || c == '_'
  }

  /** `str.lower` of one character. */
  function LowerChar(c: char): (r: string)
    ensures forall j :: 0 <= j < |r| ==> !IsUpperAscii(r[j])
    ensures |r| == if c == CapitalIWithDot then 2 else 1
  {
    if IsUpperAscii(c) then [(c as int + 32) as char]
    else if c == KelvinSign then "k"
    else if c == CapitalIWithDot then ['i', CombiningDot]
    else [c]
  }

  /** `str.lower`, character by character. */
  function Lower(s: string): (r: string)
    ensures forall j :: 0 <= j < |r| ==> !IsUpperAscii(r[j])
  {
    if s == [] then [] else LowerChar(s[0]) + Lower(s[1..])
  }

  /** `re.sub(r'[^a-zA-Z0-9]', '_', s)`: every character outside the class becomes `_`. */
  function ReplaceNonAlnum(s: string): (r: string)
    ensures |r| == |s|
    ensures forall i :: 0 <= i < |s| ==> r[i] == if IsAsciiAlnum(s[i]) then s[i] else '_'
    // only characters of the class and `_` remain, and a string of the class is unchanged
    ensures forall i :: 0 <= i < |r| ==> IsAsciiAlnum(r[i]) || r[i] == '_'
    ensures (forall i :: 0 <= i < |s| ==> IsAsciiAlnum(s[i])) ==> r == s
  {
    seq(|s|, i requires 0 <= i < |s| => if IsAsciiAlnum(s[i]) then s[i] else '_')
  }

  /** Replacing twice replaces nothing more. */
  lemma ReplaceNonAlnumIdempotent(s: string)
    ensures ReplaceNonAlnum(ReplaceNonAlnum(s)) == ReplaceNonAlnum(s)
  {
    var r := ReplaceNonAlnum(s);
    assert forall i :: 0 <= i < |r| ==> r[i] == if IsAsciiAlnum(r[i]) then r[i] else '_';
  }

  /** The part of the table name after the prefix. */
  function Suffix(ticker: string): string {
    ReplaceNonAlnum(Lower(ticker))
  }

  /** `sanitize_table_name` (lines 14-16). */
  function SanitizeTableName(ticker: string): (r: string)
    ensures |r| >= |Prefix| && r[..|Prefix|] == Prefix
  {
    Prefix + Suffix(ticker)
  }

  /** What one ticker character becomes in the name, when it is not CapitalIWithDot. */
  function NameChar(c: char): char {
    if IsUpperAscii(c) then (c as int + 32) as char
    else if c == KelvinSign then 'k'
    else if IsAsciiAlnum(c) then c
    else '_'
  }

  predicate NoCapitalIWithDot(s: string) {
    forall i :: 0 <= i < |s| ==> s[i] != CapitalIWithDot
  }

  /** Every character after the prefix is a lower-case letter, a digit or `_`. */
  lemma NameCharacters(ticker: string)
    ensures forall i :: |Prefix| <= i < |SanitizeTableName(ticker)| ==> IsNameChar(SanitizeTableName(ticker)[i])
  {
    var r := SanitizeTableName(ticker);
    var suffix := Suffix(ticker);
    assert r == Prefix + suffix;
    SuffixCharacters(ticker);
    forall i | |Prefix| <= i < |r| ensures IsNameChar(r[i]) {
      assert r[i] == suffix[i - |Prefix|];
    }
  }

  lemma SuffixCharacters(ticker: string)
    ensures forall j :: 0 <= j < |Suffix(ticker)| ==> IsNameChar(Suffix(ticker)[j])
  {
    var lower := Lower(ticker);
    forall j | 0 <= j < |Suffix(ticker)| ensures IsNameChar(Suffix(ticker)[j]) {
      assert !IsUpperAscii(lower[j]);
    }
  }

  /**
   * Without CapitalIWithDot, lower-casing maps character to character:
   * the result has the ticker's length and its i-th character is the
   * lower case of the ticker's i-th.
   */
  lemma {:induction false} LowerPointwise(s: string)
    requires NoCapitalIWithDot(s)
    ensures |Lower(s)| == |s|
    ensures forall i :: 0 <= i < |s| ==> Lower(s)[i] == LowerChar(s[i])[0]
  {
    if s != [] {
      LowerPointwise(s[1..]);
      forall i | 0 <= i < |s| ensures Lower(s)[i] == LowerChar(s[i])[0] {
        if i > 0 {
          assert Lower(s)[i] == Lower(s[1..])[i - 1];
        }
      }
    }
  }

  /**
   * Position by position: without CapitalIWithDot the name is the prefix
   * followed by one character per ticker character, ASCII letters lower-cased,
   * digits kept and everything else `_`.
   */
  lemma Pointwise(ticker: string)
    requires NoCapitalIWithDot(ticker)
    ensures |SanitizeTableName(ticker)| == |Prefix| + |ticker|
    ensures forall i :: 0 <= i < |ticker| ==> SanitizeTableName(ticker)[|Prefix| + i] == NameChar(ticker[i])
  {
    LowerPointwise(ticker);
    var r := SanitizeTableName(ticker);
    forall i | 0 <= i < |ticker| ensures r[|Prefix| + i] == NameChar(ticker[i]) {
      assert r[|Prefix| + i] == ReplaceNonAlnum(Lower(ticker))[i];
      NameCharOf(ticker[i]);
    }
  }

  /** One character lower-cased, then replaced unless it is in the class. */
  lemma NameCharOf(c: char)
    requires c != CapitalIWithDot
    ensures (if IsAsciiAlnum(LowerChar(c)[0]) then LowerChar(c)[0] else '_') == NameChar(c)
  {
  }

  /** An ASCII ticker gives a name six characters longer. */
  lemma AsciiLength(ticker: string)
    requires forall i :: 0 <= i < |ticker| ==> ticker[i] < 128 as char
    ensures |SanitizeTableName(ticker)| == 6 + |ticker|
  {
    Pointwise(ticker);
  }

  /** CapitalIWithDot lower-cases to two characters, so the name is longer than the ticker plus prefix. */
  lemma CapitalIWithDotGrows()
    ensures SanitizeTableName([CapitalIWithDot]) == "ohlcv_i_"
  {
    assert Lower([CapitalIWithDot]) == ['i', CombiningDot] + Lower([]);
  }

  /** The ticker configured in equity_market_etl/config/settings.py:12. */
  lemma CrudeOilFutures()
    ensures SanitizeTableName("CL=F") == "ohlcv_cl_f"
  {
    var ticker := "CL=F";
    LowerPointwise(ticker);
    var lower := Lower(ticker);
    assert lower == "cl=f" by {
      assert lower[0] == LowerChar('C')[0];
      assert lower[1] == LowerChar('L')[0];
      assert lower[2] == LowerChar('=')[0];
      assert lower[3] == LowerChar('F')[0];
    }
    assert ReplaceNonAlnum("cl=f") == "cl_f";
  }

  /** A string already made of name characters is left alone by lower-casing. */
  lemma {:induction false} LowerKeepsNameChars(s: string)
    requires forall i :: 0 <= i < |s| ==> IsNameChar(s[i])
    ensures Lower(s) == s
  {
    if s != [] {
      LowerKeepsNameChars(s[1..]);
      assert s == [s[0]] + s[1..];
    }
  }

  /** Sanitising the part after the prefix again changes nothing. */
  lemma SuffixIdempotent(ticker: string)
    ensures Suffix(Suffix(ticker)) == Suffix(ticker)
  {
    var t := Suffix(ticker);
    LowerKeepsNameChars(t);
  }

  /** The whole function is not idempotent: it prefixes again. */
  lemma NotIdempotent(ticker: string)
    ensures SanitizeTableName(SanitizeTableName(ticker)) != SanitizeTableName(ticker)
  {
    var r := SanitizeTableName(ticker);
    assert forall i :: 0 <= i < |r| ==> r[i] != CapitalIWithDot by {
      NameCharacters(ticker);
      forall i | 0 <= i < |r| ensures r[i] != CapitalIWithDot {
        if i < |Prefix| {
          assert r[i] == Prefix[i];
        }
      }
    }
    Pointwise(r);
  }
}
