/**
 * The few pieces of Rust's string library the FEN codec relies on:
 * `str::split_whitespace`, `str::parse::<u32>` and `u32::to_string`.
 */
module Text {
  import opened Results

  /** `char::is_whitespace`: the characters with the Unicode White_Space property. */
  predicate IsWhitespace(c: char)
  {
    || '\t' <= c <= '\r'
    || c == ' '
    || c == '\U{85}'
    || c == '\U{A0}'
    || c == '\U{1680}'
    || '\U{2000}' <= c <= '\U{200A}'
    || c == '\U{2028}'
    || c == '\U{2029}'
    || c == '\U{202F}'
    || c == '\U{205F}'
    || c == '\U{3000}'
  }

  predicate NoWhitespace(s: string)
  {
    forall i :: 0 <= i < |s| ==> !IsWhitespace(s[i])
  }

  /** The characters of `s` that are not whitespace, in order. */
  function NonWhitespace(s: string): string
  {
    if s == [] then []
    else (if IsWhitespace(s[0]) then [] else [s[0]]) + NonWhitespace(s[1..])
  }

  function Concat(words: seq<string>): string
  {
    if words == [] then [] else words[0] + Concat(words[1..])
  }

  /** The pending word as a list of at most one field. */
  function Flush(word: string): seq<string>
  {
    if word == [] then [] else [word]
  }

  /**
   * Splits `s` at whitespace, `word` being the part of the current field
   * read so far. Every field is non-empty and holds no whitespace, and
   * together they hold exactly the non-whitespace characters read.
   */
  function SplitFrom(s: string, word: string): (fields: seq<string>)
    requires NoWhitespace(word)
    ensures forall i :: 0 <= i < |fields| ==> fields[i] != [] && NoWhitespace(fields[i])
    ensures Concat(fields) == word + NonWhitespace(s)
    decreases |s|
  {
    if s == [] then
      Flush(word)
    else if IsWhitespace(s[0]) then
      var rest := SplitFrom(s[1..], []);
      assert Concat(Flush(word) + rest) == word + Concat(rest) by {
        ConcatAppend(Flush(word), rest);
      }
      Flush(word) + rest
    else
      SplitFrom(s[1..], word + [s[0]])
  }

  lemma {:induction false} ConcatAppend(a: seq<string>, b: seq<string>)
    ensures Concat(a + b) == Concat(a) + Concat(b)
    decreases |a|
  {
    if a != [] {
      assert (a + b)[1..] == a[1..] + b;
      ConcatAppend(a[1..], b);
    } else {
      assert a + b == b;
    }
  }

  /** `str::split_whitespace().collect()`: the whitespace-separated fields of `s`. */
  function SplitWhitespace(s: string): (fields: seq<string>)
  {
    SplitFrom(s, [])
  }

  /** The fields joined by single spaces. */
  function JoinWords(words: seq<string>): string
  {
    if words == [] then []
    else if |words| == 1 then words[0]
    else words[0] + " " + JoinWords(words[1..])
  }

  lemma {:induction false} SplitWord(w: string, t: string, word: string)
    requires NoWhitespace(w) && NoWhitespace(word)
    ensures SplitFrom(w + t, word) == SplitFrom(t, word + w)
    decreases |w|
  {
    if w != [] {
      assert (w + t)[0] == w[0] && (w + t)[1..] == w[1..] + t;
      SplitWord(w[1..], t, word + [w[0]]);
      assert word + [w[0]] + w[1..] == word + w;
    } else {
      assert w + t == t && word + w == word;
    }
  }

  /**
   * Splitting fields joined by single spaces gives the fields back, when
   * none of them is empty or holds whitespace.
   */
  lemma {:induction false} SplitJoinWords(words: seq<string>)
    requires forall i :: 0 <= i < |words| ==> words[i] != [] && NoWhitespace(words[i])
    ensures SplitWhitespace(JoinWords(words)) == words
    decreases |words|
  {
    if |words| == 1 {
      SplitWord(words[0], [], []);
      assert words[0] + [] == words[0];
      assert [] + words[0] == words[0];
    } else if |words| > 1 {
      var rest := JoinWords(words[1..]);
      assert JoinWords(words) == words[0] + (" " + rest);
      SplitWord(words[0], " " + rest, []);
      assert [] + words[0] == words[0];
      assert (" " + rest)[1..] == rest;
      SplitJoinWords(words[1..]);
      assert words == [words[0]] + words[1..];
    }
  }

  /** A non-empty word without whitespace is a single field. */
  lemma SplitSingleWord(w: string)
    requires w != [] && NoWhitespace(w)
    ensures SplitWhitespace(w) == [w]
  {
    SplitWord(w, [], []);
    assert w + [] == w;
    assert [] + w == w;
  }

  /**
   * A whitespace character ends the field being read: what comes before it
   * and what comes after it are split separately. With SplitSingleWord this
   * pins the fields down as the maximal runs of non-whitespace characters.
   */
  lemma SplitAtWhitespace(a: string, c: char, b: string)
    requires IsWhitespace(c)
    ensures SplitWhitespace(a + [c] + b) == SplitWhitespace(a) + SplitWhitespace(b)
  {
    SplitFromAtWhitespace(a, c, b, []);
  }

  lemma {:induction false} SplitFromAtWhitespace(a: string, c: char, b: string, word: string)
    requires IsWhitespace(c) && NoWhitespace(word)
    ensures SplitFrom(a + [c] + b, word) == SplitFrom(a, word) + SplitWhitespace(b)
    decreases |a|
  {
    var s := a + [c] + b;
    if a == [] {
      assert s == [c] + b && s[1..] == b;
    } else {
      assert s[0] == a[0] && s[1..] == a[1..] + [c] + b;
      if IsWhitespace(a[0]) {
        SplitFromAtWhitespace(a[1..], c, b, []);
        assert SplitFrom(s, word) == Flush(word) + (SplitFrom(a[1..], []) + SplitWhitespace(b));
      } else {
        SplitFromAtWhitespace(a[1..], c, b, word + [a[0]]);
      }
    }
  }

  predicate IsDecimalDigit(c: char)
  {
    '0' <= c <= '9'
  }

  predicate AllDecimal(s: string)
  {
    forall i :: 0 <= i < |s| ==> IsDecimalDigit(s[i])
  }

  function DigitValue(c: char): (v: nat)
    requires IsDecimalDigit(c)
    ensures v < 10
  {
    c as int - '0' as int
  }

  function DigitChar(v: nat): (c: char)
    requires v < 10
    ensures IsDecimalDigit(c) && DigitValue(c) == v
  {
    ('0' as int + v) as char
  }

  /** The number a string of decimal digits denotes, most significant first. */
  function DecimalValue(s: string): nat
    requires AllDecimal(s)
  {
    if s == [] then 0 else DecimalValue(s[..|s| - 1]) * 10 + DigitValue(s[|s| - 1])
  }

  const U32Limit := 0x1_0000_0000

  /** The text after one optional leading '+'. */
  function Unsigned(s: string): string
  {
    if |s| > 0 && s[0] == '+' then s[1..] else s
  }

  /**
   * `str::parse::<u32>`: an optional '+' followed by at least one decimal
   * digit, denoting a value that fits in 32 bits. A '-' sign, an empty
   * string, a lone '+' and an overflowing value are all rejected.
   * ParseU32Spelling says exactly which strings spell which number.
   */
  function ParseU32(s: string): (r: Option<nat>)
    ensures r.Some? ==> r.value < U32Limit
    ensures r.Some? ==> s != [] && (s[0] == '+' || IsDecimalDigit(s[0]))
    ensures r.Some? ==> forall i :: 0 < i < |s| ==> IsDecimalDigit(s[i])
  {
    var digits := Unsigned(s);
    if digits != [] && AllDecimal(digits) && DecimalValue(digits) < U32Limit then
      Some(DecimalValue(digits))
    else
      None
  }

  /** A number with a minus sign is not a u32 ("-1" is rejected). */
  lemma NegativeIsRejected(s: string)
    requires s != [] && s[0] == '-'
    ensures ParseU32(s) == None
  {
  }

  /**
   * `to_string` of an unsigned number: its decimal digits without leading
   * zeros; they denote the number.
   */
  function NatToString(n: nat): (s: string)
    ensures s != [] && AllDecimal(s) && DecimalValue(s) == n
    ensures s[0] == '0' ==> s == "0"
    decreases n
  {
    if n < 10 then
      [DigitChar(n)]
    else
      var s := NatToString(n / 10) + [DigitChar(n % 10)];
      assert s[..|s| - 1] == NatToString(n / 10);
      s
  }

  /** Parsing the printed form of a 32-bit number gives the number back. */
  lemma ParseNatToString(n: nat)
    requires n < U32Limit
    ensures ParseU32(NatToString(n)) == Some(n)
  {
  }

  /** `k` zero digits. */
  function Zeros(k: nat): (z: string)
    ensures |z| == k && AllDecimal(z)
  {
    seq(k, _ => '0')
  }

  /** Leading zeros do not change the value of a digit string. */
  lemma {:induction false} LeadingZerosValue(k: nat, t: string)
    requires AllDecimal(t)
    ensures AllDecimal(Zeros(k) + t) && DecimalValue(Zeros(k) + t) == DecimalValue(t)
    decreases |t|
  {
    var s := Zeros(k) + t;
    assert AllDecimal(s) by {
      forall i | 0 <= i < |s| ensures IsDecimalDigit(s[i]) {
        if i >= k { assert s[i] == t[i - k]; }
      }
    }
    if t == [] {
      assert s == Zeros(k);
      ZerosValue(k);
    } else {
      var t' := t[..|t| - 1];
      assert s[..|s| - 1] == Zeros(k) + t';
      LeadingZerosValue(k, t');
    }
  }

  lemma {:induction false} ZerosValue(k: nat)
    ensures DecimalValue(Zeros(k)) == 0
    decreases k
  {
    if k > 0 {
      assert Zeros(k)[..k - 1] == Zeros(k - 1);
      ZerosValue(k - 1);
    }
  }

  /** A digit string that does not start with '0' is positive. */
  lemma {:induction false} LeadingDigitPositive(d: string)
    requires d != [] && AllDecimal(d) && d[0] != '0'
    ensures DecimalValue(d) >= 1
    decreases |d|
  {
    if |d| > 1 {
      LeadingDigitPositive(d[..|d| - 1]);
    }
  }

  /** A digit string without a leading zero is the printed form of its value. */
  lemma {:induction false} CanonicalDigits(d: string)
    requires d != [] && AllDecimal(d) && d[0] != '0'
    ensures NatToString(DecimalValue(d)) == d
    decreases |d|
  {
    if |d| > 1 {
      var d' := d[..|d| - 1];
      CanonicalDigits(d');
      LeadingDigitPositive(d');
      var v := DecimalValue(d);
      assert v / 10 == DecimalValue(d') && v % 10 == DigitValue(d[|d| - 1]);
      assert DigitChar(v % 10) == d[|d| - 1];
      assert d == d' + [d[|d| - 1]];
    }
  }

  /** Every digit string is leading zeros followed by the printed form of its value. */
  lemma {:induction false} DigitsSpelling(d: string)
    requires d != [] && AllDecimal(d)
    ensures |NatToString(DecimalValue(d))| <= |d|
    ensures d == Zeros(|d| - |NatToString(DecimalValue(d))|) + NatToString(DecimalValue(d))
    decreases |d|
  {
    if d[0] != '0' {
      CanonicalDigits(d);
      assert Zeros(0) + d == d;
    } else if |d| == 1 {
      assert d == "0" && Zeros(0) + "0" == "0";
    } else {
      var tail := d[1..];
      DigitsSpelling(tail);
      var n := NatToString(DecimalValue(tail));
      var k := |tail| - |n|;
      assert tail == Zeros(k) + n;
      LeadingZerosValue(1, tail);
      assert Zeros(1) + tail == d;
      assert NatToString(DecimalValue(d)) == n;
      PrependZero(k, n);
    }
  }

  lemma PrependZero(k: nat, n: string)
    ensures Zeros(1) + (Zeros(k) + n) == Zeros(k + 1) + n
  {
    assert Zeros(1) + Zeros(k) == Zeros(k + 1);
  }

  /**
   * Exactly which strings `str::parse::<u32>` reads as `n`: an optional
   * '+', then any number of zeros, then the printed form of `n`, for `n`
   * below 2^32 ("+5", "007" and "5" all read as 5).
   */
  lemma ParseU32Spelling(s: string, n: nat)
    ensures ParseU32(s) == Some(n) <==>
      && n < U32Limit
      && |NatToString(n)| <= |Unsigned(s)|
      && Unsigned(s) == Zeros(|Unsigned(s)| - |NatToString(n)|) + NatToString(n)
  {
    var d := Unsigned(s);
    if ParseU32(s) == Some(n) {
      DigitsSpelling(d);
    }
    if n < U32Limit && |NatToString(n)| <= |d| && d == Zeros(|d| - |NatToString(n)|) + NatToString(n) {
      LeadingZerosValue(|d| - |NatToString(n)|, NatToString(n));
    }
  }

  /** A printed number holds no whitespace. */
  lemma NatToStringNoWhitespace(n: nat)
    ensures NoWhitespace(NatToString(n))
  {
  }
}
