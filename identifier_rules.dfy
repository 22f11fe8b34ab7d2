/**
 * The two pure rules of the web form about the 12-digit identifier:
 * how it is masked for display (`maskAadhaar`) and when the lookup form
 * accepts it (`validateAadhaarInput`).  A JavaScript value that may be
 * `null` or `undefined` is an `Option<string>`.
 */
module IdentifierRules {
  import opened Wrappers
  import opened CharClasses

  const NotAvailable := "N/A"
  const MaskPrefix := "XXXX-XXXX-"
  const IdentifierDigits := 12

  /** `s.replace(/\s+/g, "")`: every whitespace character removed. */
  function RemoveSpaces(s: string): (r: string)
    ensures |r| <= |s|
    ensures forall i :: 0 <= i < |r| ==> !IsJsSpace(r[i])
  {
    if s == [] then []
    else if IsJsSpace(s[0]) then RemoveSpaces(s[1..])
    else [s[0]] + RemoveSpaces(s[1..])
  }

  /** `s.replace(/\D/g, "")`: only the digit characters kept. */
  function KeepDigits(s: string): (r: string)
    ensures |r| <= |s|
    ensures forall i :: 0 <= i < |r| ==> IsDigit(r[i])
  {
    if s == [] then []
    else if IsDigit(s[0]) then [s[0]] + KeepDigits(s[1..])
    else KeepDigits(s[1..])
  }

  /** The number of digit characters in `s`, counted on its multiset of characters. */
  function DigitCount(s: string): nat {
    var m := multiset(s);
    m['0'] + m['1'] + m['2'] + m['3'] + m['4'] + m['5'] + m['6'] + m['7'] + m['8'] + m['9']
  }

  /** Putting one character in front adds one to the count exactly when it is a digit. */
  lemma DigitCountCons(c: char, t: string)
    ensures DigitCount([c] + t) == DigitCount(t) + (if IsDigit(c) then 1 else 0)
  {
  }

  /** Keeping the digits keeps exactly as many characters as `s` has digits. */
  lemma {:induction false} KeepDigitsCount(s: string)
    ensures |KeepDigits(s)| == DigitCount(s)
  {
    if s != [] {
      KeepDigitsCount(s[1..]);
      assert s == [s[0]] + s[1..];
      DigitCountCons(s[0], s[1..]);
    }
  }

  /** Removing whitespace distributes over concatenation. */
  lemma {:induction false} RemoveSpacesAppend(a: string, b: string)
    ensures RemoveSpaces(a + b) == RemoveSpaces(a) + RemoveSpaces(b)
  {
    if a != [] {
      var ab := a + b;
      assert ab != [] && ab[0] == a[0] && ab[1..] == a[1..] + b;
      RemoveSpacesAppend(a[1..], b);
      if IsJsSpace(a[0]) {
        assert RemoveSpaces(ab) == RemoveSpaces(a[1..] + b);
      } else {
        assert RemoveSpaces(ab) == [a[0]] + RemoveSpaces(a[1..] + b);
      }
    } else {
      assert a + b == b;
    }
  }

  /** A string without whitespace is left as it is. */
  lemma {:induction false} RemoveSpacesNoSpace(s: string)
    requires forall i :: 0 <= i < |s| ==> !IsJsSpace(s[i])
    ensures RemoveSpaces(s) == s
  {
    if s != [] {
      RemoveSpacesNoSpace(s[1..]);
    }
  }

  /** Keeping the digits distributes over concatenation. */
  lemma {:induction false} KeepDigitsAppend(a: string, b: string)
    ensures KeepDigits(a + b) == KeepDigits(a) + KeepDigits(b)
  {
    if a != [] {
      var ab := a + b;
      assert ab != [] && ab[0] == a[0] && ab[1..] == a[1..] + b;
      KeepDigitsAppend(a[1..], b);
      if IsDigit(a[0]) {
        assert KeepDigits(ab) == [a[0]] + KeepDigits(a[1..] + b);
      } else {
        assert KeepDigits(ab) == KeepDigits(a[1..] + b);
      }
    } else {
      assert a + b == b;
    }
  }

  /** A string of digits only is left as it is, so keeping the digits is idempotent. */
  lemma {:induction false} KeepDigitsAllDigits(s: string)
    requires forall i :: 0 <= i < |s| ==> IsDigit(s[i])
    ensures KeepDigits(s) == s
  {
    if s != [] {
      KeepDigitsAllDigits(s[1..]);
    }
  }

  /**
   * `maskAadhaar(s)`: "N/A" for a missing or empty value, the value itself
   * when it is shorter than 4 characters or when it does not have exactly 12
   * non-whitespace characters, and otherwise "XXXX-XXXX-" followed by the last
   * four non-whitespace characters.
   */
  function MaskAadhaar(s: Option<string>): (r: string)
    ensures s == None || s == Some("") ==> r == NotAvailable
    ensures s.Some? && s.value != "" && |RemoveSpaces(s.value)| != IdentifierDigits ==> r == s.value
    ensures s.Some? && |RemoveSpaces(s.value)| == IdentifierDigits ==>
              |r| == 14 && r[..10] == MaskPrefix && r[10..] == RemoveSpaces(s.value)[8..]
  {
    if s.None? || s.value == "" then NotAvailable
    else if |s.value| < 4 then s.value
    else
      var clean := RemoveSpaces(s.value);
      if |clean| != IdentifierDigits then s.value
      else MaskPrefix + clean[|clean| - 4..]
  }

  /** A non-empty value shorter than four characters is shown unchanged. */
  lemma MaskKeepsShortValue(s: string)
    requires 0 < |s| < 4
    ensures MaskAadhaar(Some(s)) == s
  {
  }

  /**
   * A value without whitespace whose length is not 12 is shown unchanged:
   * only whitespace is stripped, so "1234-5678-9012" is not masked.
   */
  lemma MaskKeepsValueWithoutSpaces(s: string)
    requires s != [] && |s| != IdentifierDigits
    requires forall i :: 0 <= i < |s| ==> !IsJsSpace(s[i])
    ensures MaskAadhaar(Some(s)) == s
  {
    RemoveSpacesNoSpace(s);
  }

  /** The dashed form of an identifier is one such value. */
  lemma MaskKeepsDashedIdentifier()
    ensures MaskAadhaar(Some("1234-5678-9012")) == "1234-5678-9012"
  {
    MaskKeepsValueWithoutSpaces("1234-5678-9012");
  }

  /** A masked value depends only on the last four non-whitespace characters. */
  lemma MaskDependsOnlyOnLastFour(a: string, b: string)
    requires |RemoveSpaces(a)| == IdentifierDigits && |RemoveSpaces(b)| == IdentifierDigits
    requires RemoveSpaces(a)[8..] == RemoveSpaces(b)[8..]
    ensures MaskAadhaar(Some(a)) == MaskAadhaar(Some(b))
  {
  }

  /**
   * Three groups of four non-whitespace characters separated by single
   * whitespace characters (the way the identifier is printed) are masked to
   * "XXXX-XXXX-" followed by the last group.
   */
  lemma {:induction false} MaskGroupedIdentifier(g1: string, g2: string, g3: string, s1: char, s2: char)
    requires |g1| == 4 && |g2| == 4 && |g3| == 4
    requires forall i :: 0 <= i < 4 ==> !IsJsSpace(g1[i]) && !IsJsSpace(g2[i]) && !IsJsSpace(g3[i])
    requires IsJsSpace(s1) && IsJsSpace(s2)
    ensures MaskAadhaar(Some(g1 + [s1] + g2 + [s2] + g3)) == MaskPrefix + g3
  {
    var p1 := g1 + [s1];
    var p2 := p1 + g2;
    var p3 := p2 + [s2];
    var s := p3 + g3;
    RemoveSpacesNoSpace(g1);
    RemoveSpacesNoSpace(g2);
    RemoveSpacesNoSpace(g3);
    assert RemoveSpaces([s1]) == [] && RemoveSpaces([s2]) == [];
    RemoveSpacesAppend(g1, [s1]);
    assert RemoveSpaces(p1) == g1;
    RemoveSpacesAppend(p1, g2);
    assert RemoveSpaces(p2) == g1 + g2;
    RemoveSpacesAppend(p2, [s2]);
    assert RemoveSpaces(p3) == g1 + g2;
    RemoveSpacesAppend(p3, g3);
    assert RemoveSpaces(s) == g1 + g2 + g3;
    var r := MaskAadhaar(Some(s));
    assert r == r[..10] + r[10..];
    assert (g1 + g2 + g3)[8..] == g3;
  }

  /**
   * `validateAadhaarInput(s)`: true exactly when `s` holds 12 digit
   * characters, whatever else it holds; a missing input counts as "".
   */
  function ValidateAadhaarInput(s: Option<string>): (ok: bool)
    ensures s == None ==> !ok
    ensures ok <==> DigitCount(s.GetOr("")) == IdentifierDigits
  {
    var input := s.GetOr("");
    KeepDigitsCount(input);
    |KeepDigits(input)| == IdentifierDigits
  }

  /** The separators of a printed identifier do not matter to the lookup form. */
  lemma ValidateAcceptsSpacedIdentifier()
    ensures ValidateAadhaarInput(Some("1234 5678 9012"))
    ensures !ValidateAadhaarInput(Some("12345"))
  {
    var g1, g2, g3 := "1234", "5678", "9012";
    KeepDigitsAllDigits(g1);
    KeepDigitsAllDigits(g2);
    KeepDigitsAllDigits(g3);
    assert KeepDigits(" ") == [];
    KeepDigitsAppend(g1, " ");
    KeepDigitsAppend(g1 + " ", g2);
    KeepDigitsAppend(g1 + " " + g2, " ");
    KeepDigitsAppend(g1 + " " + g2 + " ", g3);
    assert g1 + " " + g2 + " " + g3 == "1234 5678 9012";
  }
}
