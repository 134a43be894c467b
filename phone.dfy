/** The Brazilian phone-number normaliser and the canonical phone pattern.

    The repository carries the normaliser three times, character for character
    (the validator, the entity extractor and the API's LLM integration); this
    module is the single definition all three models use. */
module Phone {
  import opened Text

  /** `"".join(filter(str.isdigit, s))`: the digits of `s`, in order. */
  function Digits(s: string): (d: string)
    ensures |d| <= |s|
    ensures AllDigits(d)
  {
    if s == [] then []
    else (if IsDigit(s[0]) then [s[0]] else []) + Digits(s[1..])
  }

  lemma {:induction false} DigitsConcat(a: string, b: string)
    ensures Digits(a + b) == Digits(a) + Digits(b)
  {
    if a == [] {
      assert a + b == b;
    } else {
      assert (a + b)[1..] == a[1..] + b;
      DigitsConcat(a[1..], b);
    }
  }

  lemma {:induction false} DigitsOfDigits(s: string)
    requires AllDigits(s)
    ensures Digits(s) == s
  {
    if s != [] {
      DigitsOfDigits(s[1..]);
    }
  }

  /** `s` is `a` digits, a dash, `b` digits, a dash and `c` digits. */
  predicate DashedDigits(s: string, a: nat, b: nat, c: nat) {
    && |s| == a + b + c + 2
    && s[a] == '-' && s[a + b + 1] == '-'
    && AllDigits(s[..a]) && AllDigits(s[a + 1..a + b + 1]) && AllDigits(s[a + b + 2..])
  }

  /** Mobile format `DD-DDDDD-DDDD`. */
  predicate IsMobileFormat(s: string) {
    DashedDigits(s, 2, 5, 4)
  }

  /** Landline format `DD-DDDD-DDDD`. */
  predicate IsLandlineFormat(s: string) {
    DashedDigits(s, 2, 4, 4)
  }

  /** The whole-string part of `^\d{2}-\d{4,5}-\d{4}$`. */
  predicate IsCanonical(s: string) {
    IsMobileFormat(s) || IsLandlineFormat(s)
  }

  /** `re.compile(r"^\d{2}-\d{4,5}-\d{4}$").match(s)`: Python's `$` also
      matches just before a final newline. */
  predicate PhonePatternMatches(s: string) {
    IsCanonical(s) || (|s| > 0 && s[|s| - 1] == '\n' && IsCanonical(s[..|s| - 1]))
  }

  /** `_normalize_phone`: exactly 11 digits give `DD-DDDDD-DDDD`, exactly 10
      give `DD-DDDD-DDDD`, anything else comes back unchanged. */
  function NormalizePhone(phone: string): (r: string)
  {
    var d := Digits(phone);
    if |d| == 11 then d[0..2] + "-" + d[2..7] + "-" + d[7..]
    else if |d| == 10 then d[0..2] + "-" + d[2..6] + "-" + d[6..]
    else phone
  }

  /** Formatting digit groups with dashes keeps exactly those digits. */
  lemma DigitsOfDashed(x: string, y: string, z: string)
    requires AllDigits(x) && AllDigits(y) && AllDigits(z)
    ensures Digits(x + "-" + y + "-" + z) == x + y + z
  {
    assert Digits("-") == [];
    DigitsOfDigits(x);
    DigitsOfDigits(y);
    DigitsOfDigits(z);
    DigitsConcat(x, "-");
    assert Digits(x + "-") == x;
    DigitsConcat(x + "-", y);
    assert Digits(x + "-" + y) == x + y;
    DigitsConcat(x + "-" + y, "-");
    assert Digits(x + "-" + y + "-") == x + y;
    DigitsConcat(x + "-" + y + "-", z);
  }

  /** The digits of a dashed string are its three groups. */
  lemma DigitsOfDashedDigits(s: string, a: nat, b: nat, c: nat)
    requires DashedDigits(s, a, b, c)
    ensures Digits(s) == s[..a] + s[a + 1..a + b + 1] + s[a + b + 2..]
    ensures |Digits(s)| == a + b + c
  {
    assert s == s[..a] + "-" + s[a + 1..a + b + 1] + "-" + s[a + b + 2..];
    DigitsOfDashed(s[..a], s[a + 1..a + b + 1], s[a + b + 2..]);
  }

  /** The shape of the normaliser's output, and that it keeps the digits. */
  lemma NormalizeShape(phone: string)
    ensures |Digits(phone)| == 11 ==> IsMobileFormat(NormalizePhone(phone))
    ensures |Digits(phone)| == 10 ==> IsLandlineFormat(NormalizePhone(phone))
    ensures |Digits(phone)| in {10, 11} ==> Digits(NormalizePhone(phone)) == Digits(phone)
    ensures |Digits(phone)| !in {10, 11} ==> NormalizePhone(phone) == phone
  {
    var d := Digits(phone);
    var r := NormalizePhone(phone);
    if |d| == 11 {
      assert d == d[0..2] + d[2..7] + d[7..];
      DigitsOfDashed(d[0..2], d[2..7], d[7..]);
      assert r[..2] == d[0..2] && r[3..8] == d[2..7] && r[9..] == d[7..];
    } else if |d| == 10 {
      assert d == d[0..2] + d[2..6] + d[6..];
      DigitsOfDashed(d[0..2], d[2..6], d[6..]);
      assert r[..2] == d[0..2] && r[3..7] == d[2..6] && r[8..] == d[6..];
    }
  }

  /** Normalising twice is normalising once. */
  lemma NormalizeIdempotent(phone: string)
    ensures NormalizePhone(NormalizePhone(phone)) == NormalizePhone(phone)
  {
    NormalizeShape(phone);
    var d := Digits(phone);
    var r := NormalizePhone(phone);
    if |d| in {10, 11} {
      NormalizeShape(r);
    }
  }

  /** A string already in canonical form is left as it is. */
  lemma CanonicalIsFixedPoint(s: string)
    requires IsCanonical(s)
    ensures NormalizePhone(s) == s
  {
    if IsMobileFormat(s) {
      DigitsOfDashedDigits(s, 2, 5, 4);
      var d := Digits(s);
      assert d[0..2] == s[..2] && d[2..7] == s[3..8] && d[7..] == s[9..];
      assert s == s[..2] + "-" + s[3..8] + "-" + s[9..];
    } else {
      DigitsOfDashedDigits(s, 2, 4, 4);
      var d := Digits(s);
      assert d[0..2] == s[..2] && d[2..6] == s[3..7] && d[6..] == s[8..];
      assert s == s[..2] + "-" + s[3..7] + "-" + s[8..];
    }
  }

  /** A string the phone pattern accepts carries 10 or 11 digits. */
  lemma PatternHasTenOrElevenDigits(s: string)
    requires PhonePatternMatches(s)
    ensures |Digits(s)| in {10, 11}
  {
    var t := if IsCanonical(s) then s else s[..|s| - 1];
    assert IsCanonical(t);
    if IsMobileFormat(t) { DigitsOfDashedDigits(t, 2, 5, 4); }
    else { DigitsOfDashedDigits(t, 2, 4, 4); }
    if t != s {
      assert s == t + "\n";
      DigitsConcat(t, "\n");
    }
  }

  /** The validator's phone rule: after normalising, the pattern accepts a
      phone exactly when it has 10 or 11 digits.  */
  lemma NormalizedMatchesIff(phone: string)
    ensures PhonePatternMatches(NormalizePhone(phone)) <==> |Digits(phone)| in {10, 11}
  {
    NormalizeShape(phone);
    if |Digits(phone)| in {10, 11} {
      assert IsCanonical(NormalizePhone(phone));
    } else if PhonePatternMatches(NormalizePhone(phone)) {
      PatternHasTenOrElevenDigits(phone);
    }
  }

  /** Ten or eleven digits, however they are split into an area code (2),
      a middle group (4 or 5) and a last group (4), come out dashed between
      those groups. */
  lemma NormalizeGrouped(s: string, x: string, y: string, z: string)
    requires AllDigits(x) && AllDigits(y) && AllDigits(z)
    requires |x| == 2 && (|y| == 4 || |y| == 5) && |z| == 4
    requires Digits(s) == x + y + z
    ensures NormalizePhone(s) == x + "-" + y + "-" + z
  {
    var d := x + y + z;
    assert d[0..2] == x && d[2..2 + |y|] == y && d[2 + |y|..] == z;
  }

  lemma SeparatorDigits()
    ensures Digits("(") == [] && Digits(") ") == [] && Digits("-") == [] && Digits(" ") == []
  {
  }

  /** The digits of a phone written `(XX) YYYY-ZZZZ`. */
  lemma DigitsBracketed(x: string, y: string, z: string)
    requires AllDigits(x) && AllDigits(y) && AllDigits(z)
    ensures Digits("(" + x + ") " + y + "-" + z) == x + y + z
  {
    SeparatorDigits();
    DigitsOfDigits(x);
    DigitsOfDigits(y);
    DigitsOfDigits(z);
    DigitsConcat("(", x);
    var p := "(" + x;
    assert Digits(p) == x;
    DigitsConcat(p, ") ");
    p := p + ") ";
    assert Digits(p) == x;
    DigitsConcat(p, y);
    p := p + y;
    assert Digits(p) == x + y;
    DigitsConcat(p, "-");
    p := p + "-";
    assert Digits(p) == x + y;
    DigitsConcat(p, z);
  }

  /** The digits of a phone written `XX YYYY ZZZZ`. */
  lemma DigitsSpaced(x: string, y: string, z: string)
    requires AllDigits(x) && AllDigits(y) && AllDigits(z)
    ensures Digits(x + " " + y + " " + z) == x + y + z
  {
    SeparatorDigits();
    DigitsOfDigits(x);
    DigitsOfDigits(y);
    DigitsOfDigits(z);
    DigitsConcat(x, " ");
    var p := x + " ";
    assert Digits(p) == x;
    DigitsConcat(p, y);
    p := p + y;
    assert Digits(p) == x + y;
    DigitsConcat(p, " ");
    p := p + " ";
    assert Digits(p) == x + y;
    DigitsConcat(p, z);
  }

  /** The formats the test suites exercise. */
  lemma NormalizeExampleParens(p: string)
    requires p == "(11) 9999-8888"
    ensures NormalizePhone(p) == "11-9999-8888"
  {
    DigitsBracketed("11", "9999", "8888");
    assert "(" + "11" + ") " + "9999" + "-" + "8888" == p;
    NormalizeGrouped(p, "11", "9999", "8888");
  }

  /** A phone already in canonical form, as the parser test returns it. */
  lemma NormalizeExampleCanonical(p: string)
    requires p == "11-8888-7777"
    ensures NormalizePhone(p) == p
  {
    assert p[..2] == "11" && p[3..7] == "8888" && p[8..] == "7777";
    CanonicalIsFixedPoint(p);
  }

  lemma NormalizeExampleSpaces(p: string)
    requires p == "11 9999 8888"
    ensures NormalizePhone(p) == "11-9999-8888"
  {
    DigitsSpaced("11", "9999", "8888");
    assert "11" + " " + "9999" + " " + "8888" == p;
    NormalizeGrouped(p, "11", "9999", "8888");
  }

  lemma NormalizeExampleBare(p: string)
    requires p == "1199998888"
    ensures NormalizePhone(p) == "11-9999-8888"
  {
    assert "11" + "9999" + "8888" == p;
    DigitsOfDigits(p);
    NormalizeGrouped(p, "11", "9999", "8888");
  }

  lemma NormalizeExampleNoDigits()
    ensures NormalizePhone("invalid") == "invalid"
  {
    assert Digits("invalid") == "";
  }
}
