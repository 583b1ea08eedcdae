/**
 * Character-level helpers standing for the Python string methods the bot
 * uses: isdigit, replace, startswith, strip, split, float(), int() and the
 * "%Y-%m-%d %H:%M:%S" timestamp format.  Only ASCII digits and ASCII
 * whitespace are modelled.
 */
module Text {
  import opened Wrappers

  predicate IsDigit(c: char) {
    '0' <= c <= '9'
  }

  /** Every character is a digit (the empty string qualifies). */
  predicate AllDigits(s: string) {
    forall i :: 0 <= i < |s| ==> IsDigit(s[i])
  }

  /** Python's str.isdigit(): non-empty and all digits. */
  predicate IsDigitText(s: string) {
    s != [] && AllDigits(s)
  }

  predicate StartsWith(s: string, prefix: string) {
    |prefix| <= |s| && s[..|prefix|] == prefix
  }

  /** Texts that differ in their first character do not extend one another. */
  lemma {:induction false} FirstCharDiffers(s: string, prefix: string)
    requires s != [] && prefix != [] && s[0] != prefix[0]
    ensures !StartsWith(s, prefix)
  {
    if |prefix| <= |s| {
      assert s[..|prefix|][0] == s[0];
    }
  }

  /** s.replace(c, "") */
  function Without(s: string, c: char): (r: string)
    ensures |r| <= |s|
    ensures forall i :: 0 <= i < |r| ==> r[i] != c
  {
    if s == [] then []
    else (if s[0] == c then [] else [s[0]]) + Without(s[1..], c)
  }

  /** Number of occurrences of c in s. */
  function Count(s: string, c: char): nat {
    if s == [] then 0 else (if s[0] == c then 1 else 0) + Count(s[1..], c)
  }

  /** Index of the first c in s, or |s| when there is none. */
  function IndexOf(s: string, c: char): (k: nat)
    ensures k <= |s|
    ensures forall i :: 0 <= i < k ==> s[i] != c
    ensures k < |s| ==> s[k] == c
  {
    if s == [] then 0 else if s[0] == c then 0 else 1 + IndexOf(s[1..], c)
  }

  function DigitValue(c: char): nat
    requires IsDigit(c)
  {
    (c as int - '0' as int) as nat
  }

  /** The number a string of decimal digits denotes ("" denotes 0). */
  function DigitsValue(s: string): nat
    requires AllDigits(s)
  {
    if s == [] then 0 else DigitsValue(s[..|s| - 1]) * 10 + DigitValue(s[|s| - 1])
  }

  function Pow10(n: nat): (p: nat)
    ensures p >= 1
  {
    if n == 0 then 1 else 10 * Pow10(n - 1)
  }

  /**
   * Python's float() on the strings the model lets through: digits with at
   * most one '.', and at least one digit ("12", "12.5", "12.", ".5").
   */
  function ParseDecimal(s: string): Option<real> {
    var k := IndexOf(s, '.');
    var whole := s[..k];
    var fraction := if k < |s| then s[k + 1..] else "";
    if AllDigits(whole) && AllDigits(fraction) && whole + fraction != "" then
      Some(DigitsValue(whole) as real + DigitsValue(fraction) as real / Pow10(|fraction|) as real)
    else
      None
  }

  /** The message filter of handle_amount: text.replace('.', '').isdigit(). */
  predicate AmountFilter(s: string) {
    IsDigitText(Without(s, '.'))
  }

  /** s.replace(c, "") is empty exactly when s holds nothing but c. */
  lemma {:induction false} WithoutEmpty(s: string, c: char)
    ensures Without(s, c) == [] <==> forall i :: 0 <= i < |s| ==> s[i] == c
  {
    if s != [] {
      WithoutEmpty(s[1..], c);
      assert forall i :: 1 <= i < |s| ==> s[i] == s[1..][i - 1];
    }
  }

  lemma {:induction false} AllDigitsConcat(a: string, b: string)
    ensures AllDigits(a + b) <==> AllDigits(a) && AllDigits(b)
  {
    var ab := a + b;
    assert forall i :: 0 <= i < |a| ==> ab[i] == a[i];
    assert forall i :: 0 <= i < |b| ==> ab[|a| + i] == b[i];
  }

  /** s.replace(c, "") is all digits exactly when every other character of s is. */
  lemma {:induction false} WithoutDigits(s: string, c: char)
    ensures AllDigits(Without(s, c)) <==> forall i :: 0 <= i < |s| && s[i] != c ==> IsDigit(s[i])
  {
    if s != [] {
      WithoutDigits(s[1..], c);
      var w := Without(s[1..], c);
      assert AllDigits(w) <==> forall i :: 1 <= i < |s| && s[i] != c ==> IsDigit(s[i]) by {
        assert forall i :: 1 <= i < |s| ==> s[i] == s[1..][i - 1];
      }
      if s[0] != c {
        var v := [s[0]] + w;
        assert Without(s, c) == v;
        AllDigitsConcat([s[0]], w);
      } else {
        assert Without(s, c) == w;
      }
    }
  }

  lemma {:induction false} CountSplit(s: string, c: char, k: nat)
    requires k <= |s|
    ensures Count(s, c) == Count(s[..k], c) + Count(s[k..], c)
  {
    if k > 0 {
      CountSplit(s[1..], c, k - 1);
      assert s[1..][..k - 1] == s[..k][1..];
      assert s[1..][k - 1..] == s[k..];
    }
  }

  lemma {:induction false} CountZero(s: string, c: char)
    ensures Count(s, c) == 0 <==> forall i :: 0 <= i < |s| ==> s[i] != c
  {
    if s != [] {
      CountZero(s[1..], c);
      assert forall i :: 1 <= i < |s| ==> s[i] == s[1..][i - 1];
    }
  }

  /** The dots of s are the one at IndexOf(s, '.') and those after it. */
  lemma {:induction false} DotsAfterFirst(s: string)
    ensures IndexOf(s, '.') == |s| ==> Count(s, '.') == 0
    ensures IndexOf(s, '.') < |s| ==> Count(s, '.') == 1 + Count(s[IndexOf(s, '.') + 1..], '.')
  {
    var k := IndexOf(s, '.');
    var head := s[..k];
    assert forall i :: 0 <= i < |head| ==> head[i] != '.';
    CountZero(head, '.');
    CountSplit(s, '.', k);
    if k < |s| {
      var tail := s[k..];
      assert tail[0] == '.' && tail[1..] == s[k + 1..];
      assert Count(tail, '.') == 1 + Count(tail[1..], '.');
    }
  }

  /** Text that passes the amount filter is all digits and dots, at least one digit. */
  lemma {:induction false} FilterMeaning(s: string)
    requires AmountFilter(s)
    ensures forall i :: 0 <= i < |s| && s[i] != '.' ==> IsDigit(s[i])
    ensures exists j :: 0 <= j < |s| && s[j] != '.'
  {
    WithoutEmpty(s, '.');
    WithoutDigits(s, '.');
  }

  /**
   * Text that passes handle_amount's filter parses as a number exactly when
   * it holds at most one '.': "1.2.3" passes the filter and makes float() raise.
   */
  lemma {:induction false} AmountParsesIffOneDot(s: string)
    requires AmountFilter(s)
    ensures ParseDecimal(s).Some? <==> Count(s, '.') <= 1
  {
    FilterMeaning(s);
    DotsAfterFirst(s);
    var k := IndexOf(s, '.');
    var j :| 0 <= j < |s| && s[j] != '.';
    if k < |s| {
      var fraction := s[k + 1..];
      CountZero(fraction, '.');
      assert forall i :: 0 <= i < |fraction| ==> fraction[i] == s[k + 1 + i];
      if Count(s, '.') <= 1 {
        assert AllDigits(s[..k]) && AllDigits(fraction);
        assert s[..k] + fraction != "" by {
          if j < k { assert s[..k][j] == s[j]; } else { assert fraction[j - k - 1] == s[j]; }
        }
      } else {
        var i :| 0 <= i < |fraction| && fraction[i] == '.';
        assert !AllDigits(fraction);
      }
    } else {
      assert s[..k] == s;
      assert AllDigits(s);
    }
  }

  predicate IsSpace(c: char) {
    c == ' ' || c == '\t' || c == '\n' || c == '\r' || c == '\U{000B}' || c == '\U{000C}'
  }

  function TrimStart(s: string): (r: string)
    ensures |r| <= |s| && r == s[|s| - |r|..]
    ensures r != [] ==> !IsSpace(r[0])
    ensures forall i :: 0 <= i < |s| - |r| ==> IsSpace(s[i])
  {
    if s != [] && IsSpace(s[0]) then TrimStart(s[1..]) else s
  }

  function TrimEnd(s: string): (r: string)
    ensures |r| <= |s| && r == s[..|r|]
    ensures r != [] ==> !IsSpace(r[|r| - 1])
    ensures forall i :: |r| <= i < |s| ==> IsSpace(s[i])
  {
    if s != [] && IsSpace(s[|s| - 1]) then TrimEnd(s[..|s| - 1]) else s
  }

  /** Python's str.strip(): drop leading and trailing whitespace. */
  function Strip(s: string): (r: string)
    ensures r != [] ==> !IsSpace(r[0]) && !IsSpace(r[|r| - 1])
    ensures exists a, b :: 0 <= a <= b <= |s| && r == s[a..b]
                           && (forall i :: 0 <= i < a ==> IsSpace(s[i]))
                           && (forall i :: b <= i < |s| ==> IsSpace(s[i]))
  {
    var t := TrimStart(s);
    var r := TrimEnd(t);
    var a := |s| - |t|;
    assert r == s[a..a + |r|];
    r
  }

  /** Characters up to the first whitespace. */
  function TakeWord(s: string): (r: string)
    ensures |r| <= |s| && r == s[..|r|]
    ensures forall i :: 0 <= i < |r| ==> !IsSpace(r[i])
    ensures |r| < |s| ==> IsSpace(s[|r|])
  {
    if s == [] || IsSpace(s[0]) then [] else [s[0]] + TakeWord(s[1..])
  }

  /** text.split(maxsplit=1)[0]: the first whitespace-separated word. */
  function FirstWord(s: string): string {
    TakeWord(TrimStart(s))
  }

  /**
   * Python's int() on the strings the model lets through: an optional sign
   * and at least one digit.
   */
  function ParseInt(s: string): (r: Option<int>)
    ensures r.Some? ==> s != []
    ensures r.Some? <==> IsDigitText(s) || (|s| > 0 && s[0] in "+-" && IsDigitText(s[1..]))
    ensures IsDigitText(s) ==> r == Some(DigitsValue(s) as int)
    ensures |s| > 0 && s[0] == '-' && IsDigitText(s[1..]) ==> r == Some(-(DigitsValue(s[1..]) as int))
    ensures |s| > 0 && s[0] == '+' && IsDigitText(s[1..]) ==> r == Some(DigitsValue(s[1..]) as int)
  {
    if s != [] && s[0] == '-' && IsDigitText(s[1..]) then Some(-(DigitsValue(s[1..]) as int))
    else if s != [] && s[0] == '+' && IsDigitText(s[1..]) then Some(DigitsValue(s[1..]) as int)
    else if IsDigitText(s) then Some(DigitsValue(s) as int)
    else None
  }

  /**
   * A stored expense ID is a uuid4 text, whose ninth character is a dash:
   * int() refuses it, so the edit path never gets a row number from it.
   */
  lemma {:induction false} DashedIdIsNotAnInt(s: string)
    requires |s| > 8 && s[8] == '-'
    ensures ParseInt(s) == None
  {
    assert !IsDigit(s[8]);
    assert !AllDigits(s);
    assert s[1..][7] == '-';
    assert !AllDigits(s[1..]);
  }

  /** The shape "%Y-%m-%d %H:%M:%S" gives: YYYY-MM-DD HH:MM:SS. */
  predicate IsTimestamp(s: string) {
    && |s| == 19
    && s[4] == '-' && s[7] == '-' && s[10] == ' ' && s[13] == ':' && s[16] == ':'
    && forall i :: 0 <= i < 19 && i != 4 && i != 7 && i != 10 && i != 13 && i != 16 ==> IsDigit(s[i])
  }

  /** The fourteen digits of a timestamp read as one number YYYYMMDDHHMMSS. */
  function TimestampKey(s: string): nat
    requires IsTimestamp(s)
  {
    DigitsValue(s[0..4] + s[5..7] + s[8..10] + s[11..13] + s[14..16] + s[17..19])
  }

  /** datetime.now().strftime("%Y-%m") as the prefix of the full timestamp. */
  function MonthOf(now: string): (m: string)
    requires IsTimestamp(now)
    ensures |m| == 7 && StartsWith(now, m)
  {
    now[..7]
  }
}
