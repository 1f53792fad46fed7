/** The few Python string operations the modelled code relies on: `strip()`,
    `lower()`, `split()`, `split(sep)`, `re.split(r'[.!?]+', ...)`, the `in`
    substring test, `re.findall(r'\d+', ...)[0]` and `str(n)`. Strings are
    sequences of code points, as Python's are. */
module Text {

  /** The code points Python's `str.isspace()` accepts, as inclusive ranges:
      the whitespace that `strip()` removes and `split()` splits on. */
  const WhitespaceRanges: seq<(char, char)> := [
    ('\t', '\r'), ('\U{1C}', ' '), ('\U{85}', '\U{85}'), ('\U{A0}', '\U{A0}'),
    ('\U{1680}', '\U{1680}'), ('\U{2000}', '\U{200A}'), ('\U{2028}', '\U{2029}'),
    ('\U{202F}', '\U{202F}'), ('\U{205F}', '\U{205F}'), ('\U{3000}', '\U{3000}')]

  predicate InRanges(c: char, ranges: seq<(char, char)>)
  {
    ranges != [] && (ranges[0].0 <= c <= ranges[0].1 || InRanges(c, ranges[1..]))
  }

  /** Python's `str.isspace()` for one code point. */
  predicate IsSpace(c: char)
  {
    InRanges(c, WhitespaceRanges)
  }

  predicate IsDigit(c: char)
  {
    '0' <= c <= '9'
  }

  predicate IsUpper(c: char)
  {
    'A' <= c <= 'Z'
  }

  function LowerChar(c: char): char
  {
    if IsUpper(c) then (c as int + 32) as char else c
  }

  function UpperChar(c: char): char
  {
    if 'a' <= c <= 'z' then (c as int - 32) as char else c
  }

  /** `s.lower()` */
  function Lower(s: string): (r: string)
    ensures |r| == |s|
  {
    seq(|s|, i requires 0 <= i < |s| => LowerChar(s[i]))
  }

  /** `lower()` maps each character on its own. */
  lemma {:induction false} LowerAt(s: string, i: nat)
    requires i < |s|
    ensures Lower(s)[i] == LowerChar(s[i])
  {
    if i > 0 {
      LowerAt(s[1..], i - 1);
    }
  }

  /** `s.capitalize()`: first character upper-cased, the rest lower-cased. */
  function Capitalize(s: string): (r: string)
    ensures |r| == |s|
  {
    if s == [] then [] else [UpperChar(s[0])] + Lower(s[1..])
  }

  /** Leading whitespace removed (`lstrip()`). */
  function StripLeft(s: string): (r: string)
    ensures |r| <= |s| && r == s[|s| - |r|..]
    ensures r != [] ==> !IsSpace(r[0])
    ensures forall i :: 0 <= i < |s| - |r| ==> IsSpace(s[i])
  {
    if s != [] && IsSpace(s[0]) then StripLeft(s[1..]) else s
  }

  /** Trailing whitespace removed (`rstrip()`). */
  function StripRight(s: string): (r: string)
    ensures |r| <= |s| && r == s[..|r|]
    ensures r != [] ==> !IsSpace(r[|r| - 1])
    ensures forall i :: |r| <= i < |s| ==> IsSpace(s[i])
  {
    if s != [] && IsSpace(s[|s| - 1]) then StripRight(s[..|s| - 1]) else s
  }

  /** Neither begins nor ends with whitespace. */
  predicate Trimmed(s: string)
  {
    s != [] ==> !IsSpace(s[0]) && !IsSpace(s[|s| - 1])
  }

  /** `s.strip()`: `s` is some whitespace, then `r`, then some whitespace,
      and `r` neither begins nor ends with whitespace. */
  function Strip(s: string): (r: string)
    ensures |r| <= |s|
    ensures Trimmed(r)
  {
    var l := StripLeft(s);
    var r := StripRight(l);
    assert r != [] ==> r[0] == l[0];
    r
  }

  /** `strip()` yields the empty string exactly when `s` is all whitespace. */
  lemma StripEmpty(s: string)
    ensures Strip(s) == [] <==> forall i :: 0 <= i < |s| ==> IsSpace(s[i])
  {
    var l := StripLeft(s);
    if StripRight(l) == [] {
      assert l == [];
    } else {
      assert !IsSpace(l[0]);
      assert l[0] == s[|s| - |l|];
    }
  }

  /** Stripping a trimmed string changes nothing. */
  lemma StripTrimmed(s: string)
    requires Trimmed(s)
    ensures Strip(s) == s
  {
    assert StripLeft(s) == s;
    assert StripRight(s) == s;
  }

  lemma StripIdempotent(s: string)
    ensures Strip(Strip(s)) == Strip(s)
  {
    StripTrimmed(Strip(s));
  }

  /** Length of the run of non-whitespace at the front of `s`. */
  function WordLen(s: string): (n: nat)
    ensures n <= |s|
    ensures forall i :: 0 <= i < n ==> !IsSpace(s[i])
    ensures n < |s| ==> IsSpace(s[n])
  {
    if s == [] || IsSpace(s[0]) then 0 else 1 + WordLen(s[1..])
  }

  /** A non-empty run without whitespace. */
  predicate IsWord(w: string)
  {
    w != [] && forall j :: 0 <= j < |w| ==> !IsSpace(w[j])
  }

  /** `s.split()`: the maximal runs of non-whitespace, in order. */
  function Words(s: string): (ws: seq<string>)
    decreases |s|
  {
    var t := StripLeft(s);
    if t == [] then []
    else
      var n := WordLen(t);
      [t[..n]] + Words(t[n..])
  }

  /** Every piece of `split()` is a non-empty run without whitespace. */
  lemma {:induction false} WordsAreWords(s: string)
    ensures forall k :: 0 <= k < |Words(s)| ==> IsWord(Words(s)[k])
    decreases |s|
  {
    var t := StripLeft(s);
    if t != [] {
      var n := WordLen(t);
      WordsAreWords(t[n..]);
      var ws := Words(s);
      assert ws == [t[..n]] + Words(t[n..]);
      forall k | 0 <= k < |ws| ensures IsWord(ws[k]) {
        if k > 0 {
          assert ws[k] == Words(t[n..])[k - 1];
        }
      }
    }
  }

  /** A string that is one non-empty run without whitespace is its own only word. */
  lemma WordsOfWord(w: string)
    requires IsWord(w)
    ensures Words(w) == [w]
  {
    assert StripLeft(w) == w;
    assert WordLen(w) == |w|;
    assert w[|w|..] == [] && w[..|w|] == w;
    assert StripLeft([]) == [];
  }

  /** `sep.join(parts)` */
  function JoinWith(parts: seq<string>, sep: string): string
  {
    if |parts| == 0 then []
    else if |parts| == 1 then parts[0]
    else parts[0] + sep + JoinWith(parts[1..], sep)
  }

  /** `s.split(d)` for a one-character separator: every occurrence of `d`
      separates two pieces, so empty pieces are kept. */
  function SplitOn(s: string, d: char): (parts: seq<string>)
    ensures |parts| >= 1
    ensures forall p :: p in parts ==> d !in p
  {
    if s == [] then [[]]
    else
      var rest := SplitOn(s[1..], d);
      if s[0] == d then [[]] + rest else [[s[0]] + rest[0]] + rest[1..]
  }

  /** Splitting on `d` and joining with `d` gives back the string. */
  lemma {:induction false} SplitOnJoin(s: string, d: char)
    ensures JoinWith(SplitOn(s, d), [d]) == s
  {
    if s != [] {
      var rest := SplitOn(s[1..], d);
      SplitOnJoin(s[1..], d);
      if s[0] == d {
        assert ([[]] + rest)[1..] == rest;
      } else {
        var parts := [[s[0]] + rest[0]] + rest[1..];
        assert parts[1..] == rest[1..];
        if |rest| > 1 {
          assert JoinWith(rest, [d]) == rest[0] + [d] + JoinWith(rest[1..], [d]);
        }
        assert s == [s[0]] + s[1..];
      }
    }
  }

  /** The sentence delimiters of `re.split(r'[.!?]+', ...)`. */
  predicate IsTerminator(c: char)
  {
    c == '.' || c == '!' || c == '?'
  }

  /** `re.split(r'[.!?]+', s)`: each maximal run of delimiters separates two
      pieces; a leading or trailing run leaves an empty piece. */
  function SplitSentences(s: string): (parts: seq<string>)
    ensures |parts| >= 1
    ensures forall k :: 0 <= k < |parts| ==> forall j :: 0 <= j < |parts[k]| ==> !IsTerminator(parts[k][j])
  {
    if s == [] then [[]]
    else
      var rest := SplitSentences(s[1..]);
      if IsTerminator(s[0]) then
        (if |s| > 1 && IsTerminator(s[1]) then rest else [[]] + rest)
      else [[s[0]] + rest[0]] + rest[1..]
  }

  function Concat(parts: seq<string>): string
  {
    if parts == [] then [] else parts[0] + Concat(parts[1..])
  }

  function RemoveTerminators(s: string): (r: string)
    ensures forall c :: c in r ==> !IsTerminator(c)
  {
    if s == [] then []
    else (if IsTerminator(s[0]) then [] else [s[0]]) + RemoveTerminators(s[1..])
  }

  /** Sentence splitting drops exactly the delimiters: the pieces, put back
      together, are the text without its `.`, `!` and `?`. */
  lemma {:induction false} SplitSentencesLosesOnlyDelimiters(s: string)
    ensures Concat(SplitSentences(s)) == RemoveTerminators(s)
  {
    if s != [] {
      var rest := SplitSentences(s[1..]);
      SplitSentencesLosesOnlyDelimiters(s[1..]);
      if IsTerminator(s[0]) {
        if !(|s| > 1 && IsTerminator(s[1])) {
          assert ([[]] + rest)[1..] == rest;
        }
      } else {
        var parts := [[s[0]] + rest[0]] + rest[1..];
        assert parts[1..] == rest[1..];
        assert Concat(rest) == rest[0] + Concat(rest[1..]);
      }
    }
  }

  /** `sub` occurs in `s` starting at position `i`. */
  predicate OccursAt(s: string, sub: string, i: int)
  {
    0 <= i <= |s| - |sub| && s[i..i + |sub|] == sub
  }

  /** Python's `sub in s`. */
  predicate Contains(s: string, sub: string)
  {
    sub <= s || (s != [] && Contains(s[1..], sub))
  }

  /** `sub in s` holds exactly when `sub` occurs at some position of `s`. */
  lemma {:induction false} ContainsAt(s: string, sub: string)
    ensures Contains(s, sub) <==> exists i :: OccursAt(s, sub, i)
  {
    if sub <= s {
      assert OccursAt(s, sub, 0);
    }
    if exists i :: OccursAt(s, sub, i) {
      var i :| OccursAt(s, sub, i);
      if i == 0 {
        assert sub == s[..|sub|];
      } else {
        assert s[1..][i - 1..i - 1 + |sub|] == sub;
        assert OccursAt(s[1..], sub, i - 1);
        ContainsAt(s[1..], sub);
      }
    }
    if s != [] && Contains(s[1..], sub) {
      ContainsAt(s[1..], sub);
      var i :| OccursAt(s[1..], sub, i);
      assert s[i + 1..i + 1 + |sub|] == sub;
      assert OccursAt(s, sub, i + 1);
    }
  }

  function DigitValue(c: char): nat
    requires IsDigit(c)
  {
    c as int - '0' as int
  }

  function DigitChar(d: nat): (c: char)
    requires d < 10
    ensures IsDigit(c) && DigitValue(c) == d
  {
    ('0' as int + d) as char
  }

  /** Length of the run of decimal digits at the front of `s`. */
  function DigitRunLen(s: string): (n: nat)
    ensures n <= |s|
    ensures forall i :: 0 <= i < n ==> IsDigit(s[i])
    ensures n < |s| ==> !IsDigit(s[n])
  {
    if s == [] || !IsDigit(s[0]) then 0 else 1 + DigitRunLen(s[1..])
  }

  /** `int(ds)` for a string of decimal digits. */
  function DecimalValue(ds: string): nat
    requires forall c :: c in ds ==> IsDigit(c)
  {
    if ds == [] then 0 else 10 * DecimalValue(ds[..|ds| - 1]) + DigitValue(ds[|ds| - 1])
  }

  /** `str(n)` */
  function NatToString(n: nat): (r: string)
    ensures r != [] && forall c :: c in r ==> IsDigit(c)
  {
    if n < 10 then [DigitChar(n)] else NatToString(n / 10) + [DigitChar(n % 10)]
  }

  lemma {:induction false} NatToStringRoundTrip(n: nat)
    ensures DecimalValue(NatToString(n)) == n
  {
    if n >= 10 {
      NatToStringRoundTrip(n / 10);
      var r := NatToString(n);
      assert r[..|r| - 1] == NatToString(n / 10);
    }
  }

  /** `int(re.findall(r'\d+', s)[0])`, or 0 when `s` holds no digit. */
  function FirstInt(s: string): nat
  {
    if s == [] then 0
    else if IsDigit(s[0]) then DecimalValue(s[..DigitRunLen(s)])
    else FirstInt(s[1..])
  }

  lemma {:induction false} DigitRunOfNumber(ds: string, rest: string)
    requires forall c :: c in ds ==> IsDigit(c)
    requires rest == [] || !IsDigit(rest[0])
    ensures DigitRunLen(ds + rest) == |ds|
  {
    if ds != [] {
      assert (ds + rest)[1..] == ds[1..] + rest;
      DigitRunOfNumber(ds[1..], rest);
    } else {
      assert ds + rest == rest;
    }
  }

  /** The number in a name `prefix + str(n) + suffix` is `n` when the prefix
      has no digit and the suffix does not start with one: `chunk_10.txt`
      sorts as 10, not between `chunk_1.txt` and `chunk_2.txt`. */
  lemma {:induction false} FirstIntOfName(prefix: string, n: nat, suffix: string)
    requires forall c :: c in prefix ==> !IsDigit(c)
    requires suffix == [] || !IsDigit(suffix[0])
    ensures FirstInt(prefix + NatToString(n) + suffix) == n
  {
    var s := prefix + NatToString(n) + suffix;
    if prefix == [] {
      assert s == NatToString(n) + suffix;
      DigitRunOfNumber(NatToString(n), suffix);
      assert s[..DigitRunLen(s)] == NatToString(n);
      NatToStringRoundTrip(n);
    } else {
      assert prefix[0] in prefix;
      assert s[1..] == prefix[1..] + NatToString(n) + suffix;
      FirstIntOfName(prefix[1..], n, suffix);
    }
  }

  /** `s[:n]`: the first `n` elements, or all of `s` when it is shorter. */
  function Take<T>(s: seq<T>, n: nat): (r: seq<T>)
    ensures r <= s
    ensures |r| == if n < |s| then n else |s|
  {
    if n < |s| then s[..n] else s
  }

  /** `s.split(sep)[-1]`: what follows the last occurrence of `sep`, or all
      of `s` when `sep` does not occur in it. */
  function LastPiece(s: string, sep: string): string
    requires sep != []
    decreases |s|
  {
    if sep <= s then LastPiece(s[|sep|..], sep)
    else if s != [] && Contains(s[1..], sep) then LastPiece(s[1..], sep)
    else s
  }

  /** The last piece is a suffix of `s` in which `sep` no longer occurs, and
      it is all of `s` exactly when `sep` does not occur at all. */
  lemma {:induction false} LastPieceIsSuffix(s: string, sep: string)
    requires sep != []
    ensures var r := LastPiece(s, sep);
      |r| <= |s| && r == s[|s| - |r|..] && !Contains(r, sep)
    ensures LastPiece(s, sep) == s <==> !Contains(s, sep)
    decreases |s|
  {
    if sep <= s {
      LastPieceIsSuffix(s[|sep|..], sep);
    } else if s != [] && Contains(s[1..], sep) {
      LastPieceIsSuffix(s[1..], sep);
    } else if s == [] {
      assert !(sep <= s);
    }
  }

  /** `strip()` cuts one contiguous piece out of `s`. */
  lemma StripSlice(s: string)
    ensures OccursAt(s, Strip(s), |s| - |StripLeft(s)|)
  {
    var l := StripLeft(s);
    var r := StripRight(l);
    var i := |s| - |l|;
    assert r == Strip(s);
    assert l == s[i..] && r == l[..|r|];
    assert s[i..i + |r|] == l[..|r|];
  }

  /** Whatever occurs in a piece of `s` occurs in `s`. */
  lemma ContainsWithin(s: string, piece: string, i: int, sub: string)
    requires OccursAt(s, piece, i) && Contains(piece, sub)
    ensures Contains(s, sub)
  {
    ContainsAt(piece, sub);
    var j :| OccursAt(piece, sub, j);
    assert piece == s[i..i + |piece|];
    forall k | 0 <= k < |sub|
      ensures s[i + j + k] == sub[k]
    {
      assert piece[j + k] == sub[k];
    }
    assert s[i + j..i + j + |sub|] == sub;
    assert OccursAt(s, sub, i + j);
    ContainsAt(s, sub);
  }
}
