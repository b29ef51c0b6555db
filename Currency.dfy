/** `formatearCLP`: Chilean-peso rendering of an amount. The digits of
    `valor.toString()` get a "." at every position the regular expression
    `\B(?=(\d{3})+(?!\d))` matches, and the result is prefixed with "$". */
module Currency {
  import opened Digits

  /** What the substitution does to a run of digits, read left to right: the
      position after the first character is a non-boundary between two
      digits, and the lookahead succeeds there exactly when the count of digits
      still to come is a positive multiple of three. */
  function RegexSeparated(s: string): (t: string)
    ensures |s| <= 1 ==> t == s
    ensures |s| >= 1 ==> |t| == |s| + (|s| - 1) / 3 && t[0] == s[0]
  {
    if |s| <= 1 then s else [s[0]] + Separator(|s| - 1) + RegexSeparated(s[1..])
  }

  /** What the substitution inserts before a run of `following` digits. */
  function Separator(following: int): string
  {
    if following % 3 == 0 then "." else ""
  }

  /** The thousands grouping, read right to left: the last three digits are
      one group, and the rest is grouped the same way before a ".". */
  function Grouped(s: string): (t: string)
    ensures |t| >= |s|
  {
    if |s| <= 3 then s else Grouped(s[..|s| - 3]) + "." + s[|s| - 3..]
  }

  /** The amount rendered: "$", the sign of a negative number, and its digits
      separated by the substitution. */
  function FormatClp(n: int): (r: string)
    ensures |r| >= 2 && r[0] == '$'
  {
    if n < 0 then "$" + "-" + RegexSeparated(DecimalDigits(-n))
    else "$" + RegexSeparated(DecimalDigits(n))
  }

  /** The string with every "." removed. */
  function Strip(t: string): string
  {
    if |t| == 0 then [] else (if t[0] == '.' then [] else [t[0]]) + Strip(t[1..])
  }

  lemma StripAfterDot(b: string)
    ensures Strip("." + b) == Strip(b)
  {
    assert ("." + b)[1..] == b;
  }

  lemma {:induction false} StripConcat(a: string, b: string)
    ensures Strip(a + b) == Strip(a) + Strip(b)
  {
    if |a| > 0 {
      StripConcat(a[1..], b);
      assert (a + b)[1..] == a[1..] + b;
    } else {
      assert a + b == b;
    }
  }

  lemma {:induction false} StripNoDots(s: string)
    requires '.' !in s
    ensures Strip(s) == s
  {
    if |s| > 0 {
      StripNoDots(s[1..]);
    }
  }

  /** One step of the substitution: the first digit, then a separator when
      the digits after it are a multiple of three. */
  lemma RegexSeparatedStep(s: string)
    requires |s| >= 2
    ensures RegexSeparated(s) == [s[0]] + Separator(|s| - 1) + RegexSeparated(s[1..])
  {
  }

  lemma RegexSeparatedShort(s: string)
    requires |s| <= 3
    ensures RegexSeparated(s) == s
  {
    if |s| == 2 {
      RegexSeparatedStep(s);
      assert s == [s[0]] + s[1..];
    } else if |s| == 3 {
      RegexSeparatedStep(s[1..]);
      RegexSeparatedStep(s);
      assert s[1..] == [s[1]] + s[2..];
      assert s == [s[0]] + s[1..];
    }
  }

  /** Prefixing a string that ends before a multiple-of-three suffix. */
  lemma RegexSeparatedHead(a: string, b: string)
    requires |a| >= 1 && |b| % 3 == 0
    ensures |a| >= 2 ==> RegexSeparated(a + b) == [a[0]] + Separator(|a| - 1) + RegexSeparated(a[1..] + b)
    ensures |a| == 1 && |b| >= 3 ==> RegexSeparated(a + b) == a + "." + RegexSeparated(b)
  {
    var s := a + b;
    if |s| >= 2 {
      assert s[0] == a[0] && s[1..] == a[1..] + b;
      assert Separator(|s| - 1) == Separator(|a| - 1) by {
        SeparatorShift(|a| - 1, |b|);
      }
      RegexSeparatedStep(s);
      if |a| == 1 {
        assert a == [a[0]] && a[1..] + b == b;
      }
    }
  }

  /** Only the remainder modulo three of the digits that follow matters. */
  lemma SeparatorShift(k: int, m: int)
    requires m % 3 == 0
    ensures Separator(k + m) == Separator(k)
  {
    assert (k + m) % 3 == k % 3;
  }

  /** The substitution splits before any suffix whose length is a positive
      multiple of three. */
  lemma {:induction false} RegexSeparatedSplit(a: string, b: string)
    requires |a| >= 1 && |b| >= 3 && |b| % 3 == 0
    ensures RegexSeparated(a + b) == RegexSeparated(a) + "." + RegexSeparated(b)
  {
    if |a| == 1 {
      RegexSeparatedHead(a, b);
    } else {
      var h, x, y := [a[0]] + Separator(|a| - 1), RegexSeparated(a[1..]), RegexSeparated(b);
      assert RegexSeparated(a + b) == h + (x + "." + y) by {
        RegexSeparatedHead(a, b);
        RegexSeparatedSplit(a[1..], b);
      }
      assert RegexSeparated(a) == h + x by {
        RegexSeparatedStep(a);
      }
      ConcatAssoc(h, x, y);
    }
  }

  lemma ConcatAssoc(h: string, x: string, y: string)
    ensures h + (x + "." + y) == (h + x) + "." + y
  {
  }

  /** The regular expression does exactly the right-to-left grouping. */
  lemma {:induction false} RegexIsGrouping(s: string)
    ensures RegexSeparated(s) == Grouped(s)
  {
    if |s| <= 3 {
      RegexSeparatedShort(s);
    } else {
      var a, b := s[..|s| - 3], s[|s| - 3..];
      assert s == a + b;
      RegexIsGrouping(a);
      RegexSeparatedShort(b);
      RegexSeparatedSplit(a, b);
    }
  }

  /** Removing the separators gives back the digits. */
  lemma {:induction false} GroupedStrip(s: string)
    requires '.' !in s
    ensures Strip(Grouped(s)) == s
  {
    if |s| <= 3 {
      StripNoDots(s);
    } else {
      var a, b := s[..|s| - 3], s[|s| - 3..];
      var g := Grouped(a);
      assert Grouped(s) == g + ("." + b);
      assert Strip(Grouped(s)) == Strip(g) + Strip("." + b) by {
        StripConcat(g, "." + b);
      }
      assert Strip(g) == a && Strip("." + b) == b by {
        SplitNoDots(s);
        GroupedStrip(a);
        StripAfterDot(b);
        StripNoDots(b);
      }
      assert s == a + b;
    }
  }

  /** A separator at i has a digit group before it and is followed by exactly
      three digits and then either the end or the next separator. */
  predicate SeparatorSpaced(t: string, i: int)
    requires 0 <= i < |t|
  {
    0 < i && i + 3 < |t| && t[i + 1] != '.' && t[i + 2] != '.' && t[i + 3] != '.' &&
    (i + 4 == |t| || t[i + 4] == '.')
  }

  /** A separator at i has a multiple of three digits to its right. */
  predicate SeparatorAligned(t: string, i: int)
    requires 0 <= i < |t|
  {
    |Strip(t[i + 1..])| % 3 == 0
  }

  lemma SplitNoDots(s: string)
    requires '.' !in s && |s| > 3
    ensures '.' !in s[..|s| - 3] && '.' !in s[|s| - 3..]
  {
    var a, b := s[..|s| - 3], s[|s| - 3..];
    assert forall i :: 0 <= i < |a| ==> a[i] == s[i];
    assert forall i :: 0 <= i < |b| ==> b[i] == s[|s| - 3 + i];
  }

  /** Every separator of the grouping is spaced as SeparatorSpaced says. */
  lemma {:induction false} GroupedDots(s: string)
    requires '.' !in s
    ensures forall i :: 0 <= i < |Grouped(s)| && Grouped(s)[i] == '.' ==> SeparatorSpaced(Grouped(s), i)
  {
    var t := Grouped(s);
    if |s| > 3 {
      var a, b := s[..|s| - 3], s[|s| - 3..];
      SplitNoDots(s);
      GroupedDots(a);
      var g := Grouped(a);
      assert t == g + "." + b;
      assert forall k :: |g| < k < |t| ==> t[k] == b[k - |g| - 1];
      forall i | 0 <= i < |t| && t[i] == '.'
        ensures SeparatorSpaced(t, i)
      {
        if i < |g| {
          assert g[i] == '.';
          assert SeparatorSpaced(g, i);
          assert t[i + 1] == g[i + 1] && t[i + 2] == g[i + 2] && t[i + 3] == g[i + 3];
          if i + 4 < |g| {
            assert t[i + 4] == g[i + 4];
          } else {
            assert t[i + 4] == '.';
          }
        } else {
          assert i == |g|;
          assert t[i + 1] == b[0] && t[i + 2] == b[1] && t[i + 3] == b[2];
        }
      }
    }
  }

  lemma AlignedAfterAppend(g: string, b: string, i: int)
    requires 0 <= i < |g| && g[i] == '.' && SeparatorAligned(g, i)
    requires '.' !in b && |b| == 3
    ensures SeparatorAligned(g + "." + b, i)
  {
    var t := g + "." + b;
    assert t[i + 1..] == g[i + 1..] + ("." + b);
    StripConcat(g[i + 1..], "." + b);
    StripAfterDot(b);
    StripNoDots(b);
  }

  /** Every separator of the grouping has a multiple of three digits to its
      right. */
  lemma {:induction false} GroupedDotsRight(s: string)
    requires '.' !in s
    ensures forall i :: 0 <= i < |Grouped(s)| && Grouped(s)[i] == '.' ==> SeparatorAligned(Grouped(s), i)
  {
    var t := Grouped(s);
    if |s| > 3 {
      var a, b := s[..|s| - 3], s[|s| - 3..];
      SplitNoDots(s);
      GroupedDotsRight(a);
      var g := Grouped(a);
      assert t == g + "." + b;
      assert forall k :: |g| < k < |t| ==> t[k] == b[k - |g| - 1];
      StripNoDots(b);
      assert t[|g| + 1..] == b;
      forall i | 0 <= i < |g| && t[i] == '.'
        ensures SeparatorAligned(t, i)
      {
        assert g[i] == '.';
        AlignedAfterAppend(g, b, i);
      }
    }
  }

  /** A separator among the four characters from i on. */
  predicate DotWithinFour(t: string, i: int)
    requires 0 <= i && i + 3 < |t|
  {
    '.' in t[i..i + 4]
  }

  /** No run of four characters is free of separators: the leading group,
      like every other, has at most three digits. */
  lemma {:induction false} GroupedRuns(s: string)
    ensures forall i :: 0 <= i && i + 3 < |Grouped(s)| ==> DotWithinFour(Grouped(s), i)
  {
    var t := Grouped(s);
    if |s| > 3 {
      var a, b := s[..|s| - 3], s[|s| - 3..];
      GroupedRuns(a);
      var g := Grouped(a);
      assert t == g + "." + b;
      forall i | 0 <= i && i + 3 < |t|
        ensures DotWithinFour(t, i)
      {
        if i + 3 < |g| {
          assert DotWithinFour(g, i);
          assert t[i..i + 4] == g[i..i + 4];
        } else {
          assert t[i..i + 4][|g| - i] == '.';
        }
      }
    }
  }

  /** A separator appears exactly when there are more than three digits. */
  lemma GroupedHasDot(s: string)
    requires '.' !in s
    ensures '.' in Grouped(s) <==> |s| > 3
  {
    if |s| <= 3 {
      assert Grouped(s) == s;
    } else {
      var g := Grouped(s[..|s| - 3]);
      assert Grouped(s)[|g|] == '.';
    }
  }

  /** What `formatearCLP` promises for a non-negative amount: a "$", then the
      decimal digits of the amount with separators; every separator stands
      after a leading group, before exactly three digits and then the end or
      the next separator, with a multiple of three digits to its right; no
      group is longer than three digits; and there is a separator exactly
      when the amount is 1000 or more. */
  lemma FormatClpShape(n: nat)
    ensures FormatClp(n)[0] == '$'
    ensures Strip(FormatClp(n)[1..]) == DecimalDigits(n)
    ensures var t := FormatClp(n)[1..];
      forall i :: 0 <= i < |t| && t[i] == '.' ==> SeparatorSpaced(t, i) && SeparatorAligned(t, i)
    ensures var t := FormatClp(n)[1..];
      forall i :: 0 <= i && i + 3 < |t| ==> DotWithinFour(t, i)
    ensures '.' in FormatClp(n) <==> n >= 1000
  {
    var s := DecimalDigits(n);
    assert '.' !in s by {
      assert forall i :: 0 <= i < |s| ==> IsDigit(s[i]);
    }
    assert FormatClp(n)[1..] == RegexSeparated(s);
    RegexIsGrouping(s);
    GroupedStrip(s);
    GroupedDots(s);
    GroupedDotsRight(s);
    GroupedRuns(s);
    GroupedHasDot(s);
    DigitCount(n, 3);
    assert Pow10(3) == 1000;
    assert '.' in FormatClp(n) <==> '.' in FormatClp(n)[1..] by {
      assert FormatClp(n) == "$" + FormatClp(n)[1..];
    }
  }

  /** A negative amount is rendered as its magnitude with "-" after the "$". */
  lemma FormatClpNegative(n: int)
    requires n < 0
    ensures FormatClp(n) == "$-" + FormatClp(-n)[1..]
  {
  }

  lemma DigitsOfExamples()
    ensures DecimalDigits(0) == "0" && DecimalDigits(999) == "999"
    ensures DecimalDigits(1234567) == "1234567"
  {
    assert DecimalDigits(99) == "99" by {
      assert DecimalDigits(9) == "9";
    }
    assert DecimalDigits(1234) == "1234" by {
      assert DecimalDigits(12) == "12" by {
        assert DecimalDigits(1) == "1";
      }
      assert DecimalDigits(123) == "123";
    }
    assert DecimalDigits(123456) == "123456" by {
      assert DecimalDigits(12345) == "12345";
    }
  }

  lemma RegexOfExample()
    ensures RegexSeparated("1234567") == "1.234.567"
  {
    assert "1234567" == "1" + "234567" && "234567" == "234" + "567";
    RegexSeparatedSplit("1", "234567");
    RegexSeparatedSplit("234", "567");
    RegexSeparatedShort("234");
    RegexSeparatedShort("567");
  }

  /** A seven-digit amount gets two separators. */
  lemma FormatClpMillion()
    ensures FormatClp(1234567) == "$1.234.567"
  {
    DigitsOfExamples();
    RegexOfExample();
  }

  /** Amounts below 1000 are rendered without a separator. */
  lemma FormatClpSmall()
    ensures FormatClp(999) == "$999" && FormatClp(0) == "$0"
  {
    DigitsOfExamples();
    RegexSeparatedShort("999");
  }
}
