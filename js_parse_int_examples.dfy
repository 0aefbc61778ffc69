/** What `parseInt` makes of a few inputs the forms meet. */
module JsParseIntExamples {
  import opened JsString
  import opened JsParseInt

  /** `parseInt("2.5")` is 2: the fraction is ignored. */
  lemma ParseIntIgnoresFraction()
    ensures ParseInt("2.5") == Int(2)
  {
    var s := "2.5";
    ParseIntAccepts([], NoSign, [s[0]], s[1..]);
    assert [] + SignText(NoSign) + [s[0]] + s[1..] == s;
  }

  /** `parseInt("2024abc")` is 2024: the trailing letters are ignored. */
  lemma ParseIntIgnoresTrailingText()
    ensures ParseInt("2024abc") == Int(2024)
  {
    var s := "2024abc";
    var d := [s[0], s[1], s[2], s[3]];
    assert DigitsValue(d) == 2024 by {
      var d1, d2, d3 := [s[0]], [s[0], s[1]], [s[0], s[1], s[2]];
      assert d1[..0] == [] && DigitsValue(d1) == 2;
      assert d2[..1] == d1 && DigitsValue(d2) == 20;
      assert d3[..2] == d2 && DigitsValue(d3) == 202;
      assert d[..3] == d3;
    }
    ParseIntAccepts([], NoSign, d, s[4..]);
    assert [] + SignText(NoSign) + d + s[4..] == s;
  }

  /** `parseInt(" -7")` is -7: leading white space and a minus sign are read. */
  lemma ParseIntReadsSign()
    ensures ParseInt(" -7") == Int(-7)
  {
    var s := " -7";
    ParseIntAccepts([s[0]], Minus, [s[2]], []);
    assert [s[0]] + SignText(Minus) + [s[2]] + [] == s;
  }

  /** `parseInt("abc")` is NaN: there is no digit to read. */
  lemma ParseIntWithoutDigits()
    ensures ParseInt("abc") == NaN
  {
    var s := "abc";
    ParseIntRejects([], NoSign, s);
    assert [] + SignText(NoSign) + s == s;
  }
}
