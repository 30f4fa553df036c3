/**
 * The phone field of the checkout form: the input mask that rewrites the
 * field into the `+7 (XXX) XXX-XX-XX` form on every input event, and the
 * pattern the submit handler checks the phone against.
 */
module PhoneMask {

  /** `\d` of a JavaScript regular expression without the `u` flag: an ASCII digit. */
  predicate IsDigit(c: char)
  {
    '0' <= c <= '9'
  }

  /** `replace(/\D/g, '')`: the digits of `s`, in order. */
  function Digits(s: string): (d: string)
    ensures |d| <= |s|
    ensures forall i :: 0 <= i < |d| ==> IsDigit(d[i])
  {
    if s == [] then [] else (if IsDigit(s[0]) then [s[0]] else []) + Digits(s[1..])
  }

  /** One character survives exactly when it is a digit. */
  lemma DigitsOfChar(c: char)
    ensures Digits([c]) == (if IsDigit(c) then [c] else [])
  {
  }

  lemma {:induction false} DigitsConcat(a: string, b: string)
    ensures Digits(a + b) == Digits(a) + Digits(b)
  {
    if a == [] {
      assert a + b == b;
    } else {
      assert (a + b)[1..] == a[1..] + b;
      DigitsConcat(a[1..], b);
    }
  }

  /** A string of digits is its own digit string. */
  lemma {:induction false} DigitsOfDigits(d: string)
    requires forall i :: 0 <= i < |d| ==> IsDigit(d[i])
    ensures Digits(d) == d
  {
    if d != [] {
      DigitsOfDigits(d[1..]);
    }
  }

  /**
   * The submit handler's pattern `^\+7 \(\d{3}\) \d{3}-\d{2}-\d{2}$`,
   * character by character: 18 characters, the punctuation at positions
   * 0-3, 7, 8, 12 and 15, a digit everywhere else.
   */
  predicate IsPhone(p: string)
  {
    && |p| == 18
    && p[0] == '+' && p[1] == '7' && p[2] == ' ' && p[3] == '('
    && IsDigit(p[4]) && IsDigit(p[5]) && IsDigit(p[6])
    && p[7] == ')' && p[8] == ' '
    && IsDigit(p[9]) && IsDigit(p[10]) && IsDigit(p[11])
    && p[12] == '-'
    && IsDigit(p[13]) && IsDigit(p[14])
    && p[15] == '-'
    && IsDigit(p[16]) && IsDigit(p[17])
  }

  function Min(a: int, b: int): int
  {
    if a < b then a else b
  }

  /**
   * The mask's layout of a digit string `v`, by length, as the input
   * handler writes it. From 4 digits on, the first digit is taken as the
   * country code and dropped behind the fixed `+7`; with 1 to 3 digits it is
   * kept. Digits after the eleventh are dropped.
   */
  function FormatAsWritten(v: string): string
  {
    if |v| == 0 then ""
    else if |v| <= 3 then "+7 (" + v
    else if |v| <= 6 then "+7 (" + v[1..4] + ") " + v[4..]
    else if |v| <= 8 then "+7 (" + v[1..4] + ") " + v[4..7] + "-" + v[7..]
    else "+7 (" + v[1..4] + ") " + v[4..7] + "-" + v[7..9] + "-" + v[9..Min(|v|, 11)]
  }

  /** The input handler as written: keep the digits, then lay them out. */
  function MaskAsWritten(s: string): (r: string)
    ensures r == "" <==> Digits(s) == ""
    ensures r != "" ==> |r| >= 4 && r[..4] == "+7 ("
  {
    FormatAsWritten(Digits(s))
  }

  /**
   * The layout with the first digit taken as the country code at every
   * length, the 1-to-3-digit case included.
   */
  function Format(v: string): string
  {
    if |v| == 0 then ""
    else if |v| <= 3 then "+7 (" + v[1..]
    else if |v| <= 6 then "+7 (" + v[1..4] + ") " + v[4..]
    else if |v| <= 8 then "+7 (" + v[1..4] + ") " + v[4..7] + "-" + v[7..]
    else "+7 (" + v[1..4] + ") " + v[4..7] + "-" + v[7..9] + "-" + v[9..Min(|v|, 11)]
  }

  /** The input handler with the corrected short case. */
  function Mask(s: string): (r: string)
    ensures r == "" <==> Digits(s) == ""
    ensures r != "" ==> |r| >= 4 && r[..4] == "+7 ("
  {
    Format(Digits(s))
  }

  /**
   * Both layouts agree from 4 digits on; below that they stay under 8
   * characters, and with fewer than 11 digits neither reaches 18.
   */
  lemma FormatsAgree(v: string)
    ensures |v| >= 4 ==> FormatAsWritten(v) == Format(v)
    ensures |v| <= 3 ==> |FormatAsWritten(v)| <= 7 && |Format(v)| <= 7
    ensures |v| <= 10 ==> |FormatAsWritten(v)| <= 17 && |Format(v)| <= 17
  {
  }

  /** A digit string passes the pattern once laid out exactly when it has at least 11 digits. */
  lemma FormatIsPhone(v: string)
    requires forall i :: 0 <= i < |v| ==> IsDigit(v[i])
    ensures IsPhone(Format(v)) <==> |v| >= 11
  {
    if |v| >= 11 {
      var r := Format(v);
      assert r == "+7 (" + v[1..4] + ") " + v[4..7] + "-" + v[7..9] + "-" + v[9..11];
      assert |r| == 18;
      assert r[4] == v[1] && r[5] == v[2] && r[6] == v[3];
      assert r[9] == v[4] && r[10] == v[5] && r[11] == v[6];
      assert r[13] == v[7] && r[14] == v[8];
      assert r[16] == v[9] && r[17] == v[10];
    } else if |v| >= 9 {
      assert |Format(v)| == 7 + |v|;
    }
  }

  /**
   * For any input, the masked value passes the submit handler's pattern
   * exactly when the input holds at least 11 digits; with 1 to 10 digits it
   * fails.
   */
  lemma MaskIsPhone(s: string)
    ensures IsPhone(Mask(s)) <==> |Digits(s)| >= 11
    ensures IsPhone(MaskAsWritten(s)) <==> |Digits(s)| >= 11
  {
    FormatIsPhone(Digits(s));
    FormatsAgree(Digits(s));
  }

  /** Appending digits appends them to the digit string. */
  lemma DigitsAppendDigits(s: string, x: string)
    requires forall i :: 0 <= i < |x| ==> IsDigit(x[i])
    ensures Digits(s + x) == Digits(s) + x
  {
    DigitsConcat(s, x);
    DigitsOfDigits(x);
  }

  /** Appending punctuation leaves the digit string as it is. */
  lemma DigitsAppendPunct(s: string, x: string)
    requires Digits(x) == ""
    ensures Digits(s + x) == Digits(s)
  {
    DigitsConcat(s, x);
  }

  /** The digits of the fixed pieces of the layout: only the country digit 7. */
  lemma LiteralDigits()
    ensures Digits("+7 (") == "7" && Digits(") ") == "" && Digits("-") == ""
  {
  }

  /**
   * The full layout: "+7 (", three digits, ") ", three digits, "-", two
   * digits, "-", and the rest.
   */
  function Layout(a: string, b: string, c: string, d: string): string
  {
    "+7 (" + a + ") " + b + "-" + c + "-" + d
  }

  /** The digits of the full layout are 7 followed by its four groups. */
  lemma LayoutDigits(a: string, b: string, c: string, d: string)
    requires forall i :: 0 <= i < |a| ==> IsDigit(a[i])
    requires forall i :: 0 <= i < |b| ==> IsDigit(b[i])
    requires forall i :: 0 <= i < |c| ==> IsDigit(c[i])
    requires forall i :: 0 <= i < |d| ==> IsDigit(d[i])
    ensures Digits(Layout(a, b, c, d)) == "7" + a + b + c + d
  {
    LiteralDigits();
    DigitsAppendDigits("+7 (", a);
    DigitsAppendPunct("+7 (" + a, ") ");
    DigitsAppendDigits("+7 (" + a + ") ", b);
    DigitsAppendPunct("+7 (" + a + ") " + b, "-");
    DigitsAppendDigits("+7 (" + a + ") " + b + "-", c);
    DigitsAppendPunct("+7 (" + a + ") " + b + "-" + c, "-");
    DigitsAppendDigits("+7 (" + a + ") " + b + "-" + c + "-", d);
  }

  /** A complete phone is the full layout of its four digit groups. */
  lemma PhoneLayout(p: string)
    requires IsPhone(p)
    ensures p == Layout(p[4..7], p[9..12], p[13..15], p[16..18])
  {
    var l := Layout(p[4..7], p[9..12], p[13..15], p[16..18]);
    assert |l| == 18;
    forall i | 0 <= i < 18 ensures l[i] == p[i] {
    }
  }

  /** Masking a complete phone number gives it back unchanged, with either layout. */
  lemma MaskKeepsPhone(p: string)
    requires IsPhone(p)
    ensures Mask(p) == p
    ensures MaskAsWritten(p) == p
  {
    PhoneLayout(p);
    LayoutDigits(p[4..7], p[9..12], p[13..15], p[16..18]);
    var v := Digits(p);
    assert v == "7" + p[4..7] + p[9..12] + p[13..15] + p[16..18];
    assert |v| == 11;
    assert v[1..4] == p[4..7] && v[4..7] == p[9..12] && v[7..9] == p[13..15] && v[9..11] == p[16..18];
  }

  /** The 1-to-3-digit case: "+7 (" and the digits after the first. */
  lemma DigitsOfShortFormat(v: string)
    requires forall i :: 0 <= i < |v| ==> IsDigit(v[i])
    requires 1 <= |v| <= 3
    ensures Digits(Format(v)) == "7" + v[1..]
  {
    LiteralDigits();
    DigitsAppendDigits("+7 (", v[1..]);
  }

  /** The 4-to-6-digit case. */
  lemma DigitsOfAreaFormat(v: string)
    requires forall i :: 0 <= i < |v| ==> IsDigit(v[i])
    requires 4 <= |v| <= 6
    ensures Digits(Format(v)) == "7" + v[1..]
  {
    LiteralDigits();
    DigitsAppendDigits("+7 (", v[1..4]);
    DigitsAppendPunct("+7 (" + v[1..4], ") ");
    DigitsAppendDigits("+7 (" + v[1..4] + ") ", v[4..]);
    assert v[1..4] + v[4..] == v[1..];
  }

  /** The 7-to-8-digit case. */
  lemma DigitsOfExchangeFormat(v: string)
    requires forall i :: 0 <= i < |v| ==> IsDigit(v[i])
    requires 7 <= |v| <= 8
    ensures Digits(Format(v)) == "7" + v[1..]
  {
    LiteralDigits();
    DigitsAppendDigits("+7 (", v[1..4]);
    DigitsAppendPunct("+7 (" + v[1..4], ") ");
    DigitsAppendDigits("+7 (" + v[1..4] + ") ", v[4..7]);
    DigitsAppendPunct("+7 (" + v[1..4] + ") " + v[4..7], "-");
    DigitsAppendDigits("+7 (" + v[1..4] + ") " + v[4..7] + "-", v[7..]);
    assert v[1..4] + v[4..7] + v[7..] == v[1..];
  }

  /** From 9 digits on: the full layout, cut after the eleventh digit. */
  lemma DigitsOfFullFormat(v: string)
    requires forall i :: 0 <= i < |v| ==> IsDigit(v[i])
    requires |v| >= 9
    ensures Digits(Format(v)) == "7" + v[1..Min(|v|, 11)]
  {
    var m := Min(|v|, 11);
    var a, b, c, d := v[1..4], v[4..7], v[7..9], v[9..m];
    assert Format(v) == Layout(a, b, c, d);
    LayoutDigits(a, b, c, d);
    assert a + b + c + d == v[1..m];
  }

  /**
   * The digits of a laid-out value: the fixed country digit 7 followed by
   * the digits the layout kept, the second to at most the eleventh.
   */
  lemma DigitsOfFormat(v: string)
    requires forall i :: 0 <= i < |v| ==> IsDigit(v[i])
    requires |v| >= 1
    ensures Digits(Format(v)) == "7" + v[1..Min(|v|, 11)]
  {
    if |v| <= 3 {
      DigitsOfShortFormat(v);
    } else if |v| <= 6 {
      DigitsOfAreaFormat(v);
    } else if |v| <= 8 {
      DigitsOfExchangeFormat(v);
    } else {
      DigitsOfFullFormat(v);
    }
  }

  /**
   * The layout reads only the length bucket and the digits from the second
   * to the eleventh, so a digit string that agrees on those lays out the same.
   */
  lemma FormatReadsTail(v: string, w: string)
    requires |v| >= 1 && |w| == Min(|v|, 11)
    requires w[1..] == v[1..|w|]
    ensures Format(w) == Format(v)
  {
    var n := |w|;
    assert forall i :: 1 <= i < n ==> w[i] == v[i] by {
      forall i | 1 <= i < n ensures w[i] == v[i] {
        assert w[1..][i - 1] == v[1..n][i - 1];
      }
    }
    if n <= 3 {
      assert w[1..] == v[1..];
    } else if n <= 6 {
      assert w[1..4] == v[1..4] && w[4..] == v[4..];
    } else if n <= 8 {
      assert w[1..4] == v[1..4] && w[4..7] == v[4..7] && w[7..] == v[7..];
    } else {
      assert w[1..4] == v[1..4] && w[4..7] == v[4..7] && w[7..9] == v[7..9];
      assert w[9..Min(n, 11)] == v[9..Min(|v|, 11)];
    }
  }

  /**
   * The corrected mask is a fixed point of itself: rewriting a field the
   * mask has already rewritten leaves it as it is, at every length.
   */
  lemma MaskIdempotent(s: string)
    ensures Mask(Mask(s)) == Mask(s)
  {
    var v := Digits(s);
    if v != [] {
      DigitsOfFormat(v);
      var w := "7" + v[1..Min(|v|, 11)];
      assert w[1..] == v[1..Min(|v|, 11)];
      FormatReadsTail(v, w);
    }
  }

  /**
   * The pattern accepts the masked form and refuses the bare digits, the
   * unpunctuated form and the empty string.
   */
  lemma PatternExamples()
    ensures IsPhone("+7 (912) 345-67-89")
    ensures !IsPhone("89123456789") && !IsPhone("+7 912 345 67 89") && !IsPhone("")
  {
  }

  /**
   * The layout of the eleven digits 89123456789. The literal comes in as a
   * parameter pinned by `requires` so that the verifier does not unfold the
   * layout function on the literal at every use.
   */
  lemma FormatOfExample(v: string)
    requires v == "89123456789"
    ensures FormatAsWritten(v) == "+7 (912) 345-67-89"
  {
    assert v[1..4] == [v[1], v[2], v[3]] == "912";
    assert v[4..7] == [v[4], v[5], v[6]] == "345";
    assert v[7..9] == [v[7], v[8]] == "67";
    assert v[9..11] == [v[9], v[10]] == "89";
  }

  /** The mask turns eleven bare digits starting with 8 into the accepted form. */
  lemma MaskExample()
    ensures MaskAsWritten("89123456789") == "+7 (912) 345-67-89"
  {
    DigitsOfDigits("89123456789");
    FormatOfExample("89123456789");
  }

  /**
   * The mask as written is not a fixed point of itself: a field holding the
   * single digit 9 becomes "+7 (9", and the next input event turns that
   * into "+7 (79", the 7 of the prefix now counted as a typed digit.
   */
  lemma MaskAsWrittenNotIdempotent()
    ensures MaskAsWritten("9") == "+7 (9"
    ensures MaskAsWritten("+7 (9") == "+7 (79"
    ensures MaskAsWritten(MaskAsWritten("9")) != MaskAsWritten("9")
  {
    assert Digits("9") == "9";
    assert Digits("+7 (9") == "79" by {
      DigitsConcat("+7 (", "9");
      assert Digits("+7 (") == "7";
      assert "+7 (" + "9" == "+7 (9";
    }
  }

  /** The digits the mask reads back from its own prefix followed by typed digits. */
  lemma DigitsAfterPrefix(t: string)
    requires forall i :: 0 <= i < |t| ==> IsDigit(t[i])
    ensures Digits("+7 (" + t) == "7" + t
  {
    DigitsConcat("+7 (", t);
    assert Digits("+7 (") == "7";
    DigitsOfDigits(t);
  }

  /**
   * The layouts the as-written mask gives the digit strings 791 and 77912.
   * The literals come in as parameters for the same reason as in
   * `FormatOfExample`.
   */
  lemma FormatOfTyping(u: string, w: string)
    requires u == "791" && w == "77912"
    ensures FormatAsWritten(u) == "+7 (791"
    ensures FormatAsWritten(w) == "+7 (791) 2"
  {
    assert w[1..4] == [w[1], w[2], w[3]] == "791";
    assert w[4..] == [w[4]] == "2";
  }

  /**
   * Typing 9, 1 and 2 into the empty field: each input event re-masks the
   * field, the prefix's 7 is read back as the first typed digit, and the
   * area code keeps the spurious 7 from then on.
   */
  lemma MaskAsWrittenTyping()
    ensures MaskAsWritten("9") == "+7 (9"
    ensures MaskAsWritten("+7 (9" + "1") == "+7 (791"
    ensures MaskAsWritten("+7 (791" + "2") == "+7 (791) 2"
  {
    assert Digits("9") == "9";
    assert "+7 (9" + "1" == "+7 (" + "91";
    assert "+7 (791" + "2" == "+7 (" + "7912";
    DigitsAfterPrefix("91");
    DigitsAfterPrefix("7912");
    assert "7" + "91" == "791" && "7" + "7912" == "77912";
    FormatOfTyping("791", "77912");
  }
}
