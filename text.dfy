/**
 Strings as JavaScript's Array.prototype.join and String.prototype.split treat
 them (with a one-character separator), and the decimal rendering of a
 non-negative integer that template literals perform.

 A JavaScript string is a sequence of UTF-16 code units, and `.length`,
 `split` and `replace` all work code unit by code unit. Throughout this
 project a `string` stands for that code-unit sequence: each `char` is one
 UTF-16 code unit, so a character outside the Basic Multilingual Plane (an
 emoji, say) is two `char`s, exactly as `.length` counts it. A Dafny `char`
 cannot hold a lone surrogate (0xD800-0xDFFF), so the two halves of a pair are
 written as two other non-ASCII `char`s, one for one; nothing here looks at a
 `char` other than to compare it with a space, a quote or a digit, so lengths,
 splits and replacements come out as they do on the code units.
 */
module Text {

  /** `parts` joined with `sep` between neighbours, like `parts.join(sep)`. */
  function Join(parts: seq<string>, sep: char): string
  {
    if |parts| == 0 then ""
    else if |parts| == 1 then parts[0]
    else Join(parts[..|parts| - 1], sep) + [sep] + parts[|parts| - 1]
  }

  lemma JoinSnoc(parts: seq<string>, x: string, sep: char)
    requires |parts| > 0
    ensures Join(parts + [x], sep) == Join(parts, sep) + [sep] + x
  {
    assert (parts + [x])[..|parts|] == parts;
  }

  /** Index of the last `c` in `s`, or -1 when there is none. */
  function LastIndexOf(s: string, c: char): (k: int)
    ensures -1 <= k < |s|
    ensures k >= 0 ==> s[k] == c
    ensures forall j :: k < j < |s| ==> s[j] != c
  {
    if |s| == 0 then -1
    else if s[|s| - 1] == c then |s| - 1
    else LastIndexOf(s[..|s| - 1], c)
  }

  /** Index of the first `c` in `s`, or |s| when there is none. */
  function IndexOf(s: string, c: char): (k: nat)
    ensures k <= |s|
    ensures k < |s| ==> s[k] == c
    ensures forall j :: 0 <= j < k ==> s[j] != c
  {
    if |s| == 0 then 0
    else if s[0] == c then 0
    else 1 + IndexOf(s[1..], c)
  }

  /**
   `s.split(sep)`: the pieces between separators, in order. There is always
   at least one piece, and adjacent, leading or trailing separators give
   empty pieces.
   */
  function Split(s: string, sep: char): (pieces: seq<string>)
    ensures |pieces| >= 1
    decreases |s|
  {
    var k := LastIndexOf(s, sep);
    if k < 0 then [s] else Split(s[..k], sep) + [s[k + 1..]]
  }

  /** No piece produced by Split contains the separator. */
  lemma {:induction false} SplitPiecesHaveNoSeparator(s: string, sep: char)
    ensures forall w :: w in Split(s, sep) ==> sep !in w
    decreases |s|
  {
    var k := LastIndexOf(s, sep);
    if k >= 0 {
      SplitPiecesHaveNoSeparator(s[..k], sep);
      var last := s[k + 1..];
      forall j | 0 <= j < |last| ensures last[j] != sep {
        assert last[j] == s[k + 1 + j];
      }
    }
  }

  /** Joining the pieces again gives back the string: `s.split(c).join(c) === s`. */
  lemma {:induction false} JoinSplit(s: string, sep: char)
    ensures Join(Split(s, sep), sep) == s
    decreases |s|
  {
    var k := LastIndexOf(s, sep);
    if k >= 0 {
      JoinSplit(s[..k], sep);
      JoinSnoc(Split(s[..k], sep), s[k + 1..], sep);
      assert s == s[..k] + [sep] + s[k + 1..];
    }
  }

  /** Splitting a join of separator-free parts gives back the parts. */
  lemma {:induction false} SplitJoin(parts: seq<string>, sep: char)
    requires |parts| >= 1
    requires forall p :: p in parts ==> sep !in p
    ensures Split(Join(parts, sep), sep) == parts
  {
    if |parts| == 1 {
      assert sep !in parts[0];
    } else {
      var init, last := parts[..|parts| - 1], parts[|parts| - 1];
      assert parts == init + [last];
      assert forall p :: p in init ==> p in parts;
      var prefix := Join(init, sep);
      var s := Join(parts, sep);
      assert s == prefix + [sep] + last;
      var m := |prefix|;
      assert s[m] == sep;
      var k := LastIndexOf(s, sep);
      assert sep !in last;
      assert forall j :: m < j < |s| ==> s[j] == last[j - m - 1];
      assert k == m;
      assert s[..k] == prefix;
      assert s[k + 1..] == last;
      SplitJoin(init, sep);
    }
  }

  function Digit(d: nat): char
    requires d < 10
  {
    ('0' as int + d) as char
  }

  predicate IsDigit(c: char)
  {
    '0' <= c <= '9'
  }

  function DigitValue(c: char): nat
    requires IsDigit(c)
  {
    c as int - '0' as int
  }

  /** A non-empty string of decimal digits. */
  predicate IsNumeral(s: string)
  {
    |s| > 0 && forall i :: 0 <= i < |s| ==> IsDigit(s[i])
  }

  /** The number a string of decimal digits denotes, most significant digit first. */
  function DecimalValue(s: string): nat
    requires forall i :: 0 <= i < |s| ==> IsDigit(s[i])
  {
    if |s| == 0 then 0 else DecimalValue(s[..|s| - 1]) * 10 + DigitValue(s[|s| - 1])
  }

  /** The decimal rendering of `n`, as `${n}` gives for a non-negative integer. */
  function NatToString(n: nat): (r: string)
    ensures |r| > 0
  {
    if n < 10 then [Digit(n)] else NatToString(n / 10) + [Digit(n % 10)]
  }

  /**
   `NatToString(n)` is the canonical numeral of `n`: a string of decimal
   digits that denotes `n`, with no leading zero unless `n` is 0.
   */
  lemma {:induction false} NatToStringValue(n: nat)
    ensures IsNumeral(NatToString(n))
    ensures DecimalValue(NatToString(n)) == n
    ensures NatToString(n)[0] == '0' <==> n == 0
  {
    var r := NatToString(n);
    if n >= 10 {
      var p := NatToString(n / 10);
      NatToStringValue(n / 10);
      assert r == p + [Digit(n % 10)];
      assert r[..|r| - 1] == p;
      assert r[0] == p[0];
    }
  }

  /** A string made of separators only splits into empty pieces. */
  lemma {:induction false} SplitOfSeparatorsOnly(s: string, sep: char)
    requires forall i :: 0 <= i < |s| ==> s[i] == sep
    ensures forall w :: w in Split(s, sep) ==> w == ""
    decreases |s|
  {
    var k := LastIndexOf(s, sep);
    if k >= 0 {
      assert k == |s| - 1;
      SplitOfSeparatorsOnly(s[..k], sep);
    } else {
      assert |s| == 0;
    }
  }
}
