/**
 * The phone-number normaliser of the bulk sender (`format_phone_number`):
 * strip surrounding whitespace, delete the separators `-`, space, `(` and
 * `)`, then give the number an international prefix, assuming India (+91)
 * when the number carries none.
 */
module Phone {

  /** The characters Python's `str.isspace()` accepts, which `str.strip()` removes. */
  predicate IsSpace(c: char) {
    || ('\t' <= c <= '\r')
    || ('\U{1C}' <= c <= '\U{1F}')
    || c == ' ' || c == '\U{85}' || c == '\U{A0}' || c == '\U{1680}'
    || ('\U{2000}' <= c <= '\U{200A}')
    || c == '\U{2028}' || c == '\U{2029}' || c == '\U{202F}' || c == '\U{205F}' || c == '\U{3000}'
  }

  /** The four characters the normaliser deletes. */
  predicate IsSeparator(c: char) {
    c == '-' || c == ' ' || c == '(' || c == ')'
  }

  predicate HasPrefix(s: string, p: string) {
    |p| <= |s| && s[..|p|] == p
  }

  /** Leading whitespace removed (`str.lstrip()`). */
  function StripStart(s: string): string {
    if s != [] && IsSpace(s[0]) then StripStart(s[1..]) else s
  }

  /** Trailing whitespace removed (`str.rstrip()`). */
  function StripEnd(s: string): string {
    if s != [] && IsSpace(s[|s| - 1]) then StripEnd(s[..|s| - 1]) else s
  }

  /** `str.strip()`: the longest infix that neither starts nor ends with whitespace. */
  function Strip(s: string): string {
    StripEnd(StripStart(s))
  }

  /** `s.replace(c, '')`: every occurrence of `c` deleted, the rest kept in order. */
  function Remove(s: string, c: char): (r: string)
    ensures |r| <= |s|
    ensures forall i :: 0 <= i < |r| ==> r[i] != c && r[i] in s
  {
    if s == [] then []
    else if s[0] == c then Remove(s[1..], c)
    else [s[0]] + Remove(s[1..], c)
  }

  /** `StripStart(s)` is a suffix of `s` that does not start with whitespace, and only whitespace precedes it. */
  lemma {:induction false} StripStartShape(s: string)
    ensures var r := StripStart(s);
      && |r| <= |s| && r == s[|s| - |r|..]
      && (r == [] || !IsSpace(r[0]))
      && (forall i :: 0 <= i < |s| - |r| ==> IsSpace(s[i]))
  {
    if s != [] && IsSpace(s[0]) {
      var t := s[1..];
      StripStartShape(t);
      var r := StripStart(t);
      assert s[|s| - |r|..] == t[|t| - |r|..];
      forall i | 0 <= i < |s| - |r|
        ensures IsSpace(s[i])
      {
        if i > 0 {
          assert s[i] == t[i - 1];
        }
      }
    }
  }

  /** `StripEnd(s)` is a prefix of `s` that does not end with whitespace, and only whitespace follows it. */
  lemma {:induction false} StripEndShape(s: string)
    ensures var r := StripEnd(s);
      && |r| <= |s| && r == s[..|r|]
      && (r == [] || !IsSpace(r[|r| - 1]))
      && (forall i :: |r| <= i < |s| ==> IsSpace(s[i]))
  {
    if s != [] && IsSpace(s[|s| - 1]) {
      StripEndShape(s[..|s| - 1]);
    }
  }

  /** The chain of four `replace` calls of `format_phone_number`, in its order. */
  function RemoveSeparators(s: string): (r: string)
    ensures |r| <= |s|
    ensures forall i :: 0 <= i < |r| ==> !IsSeparator(r[i])
  {
    Remove(Remove(Remove(Remove(s, '-'), ' '), '('), ')')
  }

  /** The number once stripped and rid of separators, before any prefix is added. */
  function Cleaned(phone: string): string {
    RemoveSeparators(Strip(phone))
  }

  /** `format_phone_number`. */
  function FormatPhoneNumber(phone: string): (r: string)
    ensures |r| > 0 && r[0] == '+'
    ensures forall i :: 0 <= i < |r| ==> !IsSeparator(r[i])
  {
    var p := Cleaned(phone);
    CountryCodeShape(p);
    WithCountryCode(p)
  }

  /** The country-code rule applied to a cleaned number: India's `+91` unless the number already has a `+`. */
  function WithCountryCode(p: string): string {
    if HasPrefix(p, "+") then p
    else if !HasPrefix(p, "91") then "+91" + p
    else "+" + p
  }

  /** The country-code rule puts a `+` in front and adds no separator. */
  lemma CountryCodeShape(p: string)
    requires forall i :: 0 <= i < |p| ==> !IsSeparator(p[i])
    ensures var r := WithCountryCode(p);
      && |r| > 0 && r[0] == '+'
      && forall i :: 0 <= i < |r| ==> !IsSeparator(r[i])
  {
    if !HasPrefix(p, "+") {
      var q := if HasPrefix(p, "91") then "+" else "+91";
      assert WithCountryCode(p) == q + p;
      forall i | 0 <= i < |q + p|
        ensures !IsSeparator((q + p)[i])
      {
        if i >= |q| {
          assert (q + p)[i] == p[i - |q|];
        }
      }
    }
  }

  /** Reference definition: the characters of `s` that are not separators, in order. */
  function KeepNonSeparators(s: string): string {
    if s == [] then []
    else if IsSeparator(s[0]) then KeepNonSeparators(s[1..])
    else [s[0]] + KeepNonSeparators(s[1..])
  }

  /** The four chained `replace` calls delete exactly the separators and keep every other character in order. */
  lemma {:induction false} RemoveSeparatorsKeepsTheRest(s: string)
    ensures RemoveSeparators(s) == KeepNonSeparators(s)
  {
    if s != [] {
      RemoveSeparatorsKeepsTheRest(s[1..]);
      var t := s[1..];
      assert s == [s[0]] + t;
      if !IsSeparator(s[0]) {
        assert RemoveSeparators(s) == [s[0]] + RemoveSeparators(t);
      }
    }
  }

  /**
   * The prefix rule, read on the cleaned number: a number that already has
   * its own `+` is kept as it is; any other number is sent to country code
   * 91, and a number that already begins with the digits 91 is taken to carry
   * that code already.
   */
  lemma PrefixRule(phone: string)
    ensures var c, r := Cleaned(phone), FormatPhoneNumber(phone);
      && (HasPrefix(c, "+") ==> r == c)
      && (!HasPrefix(c, "+") ==>
            HasPrefix(r, "+91") && r == "+91" + (if HasPrefix(c, "91") then c[2..] else c))
  {
    var c, r := Cleaned(phone), FormatPhoneNumber(phone);
    if HasPrefix(c, "+") {
      assert r == c;
    } else if HasPrefix(c, "91") {
      assert r == "+" + c;
      assert c == "91" + c[2..];
      assert r == "+91" + c[2..];
    } else {
      assert r == "+91" + c;
    }
  }

  /** Filtering a character in front of `s`. */
  lemma KeepCons(c: char, s: string)
    ensures KeepNonSeparators([c] + s) == (if IsSeparator(c) then [] else [c]) + KeepNonSeparators(s)
  {
    assert ([c] + s)[1..] == s;
  }

  /** Removing separators distributes over concatenation. */
  lemma {:induction false} KeepAppend(a: string, b: string)
    ensures KeepNonSeparators(a + b) == KeepNonSeparators(a) + KeepNonSeparators(b)
  {
    if a == [] {
      assert a + b == b;
    } else {
      var t := a[1..];
      assert a == [a[0]] + t;
      assert a + b == [a[0]] + (t + b);
      KeepAppend(t, b);
      KeepCons(a[0], t + b);
      KeepCons(a[0], t);
    }
  }

  lemma {:induction false} KeepUnseparated(s: string)
    requires forall i :: 0 <= i < |s| ==> !IsSeparator(s[i])
    ensures KeepNonSeparators(s) == s
  {
    if s != [] {
      KeepUnseparated(s[1..]);
      assert s == [s[0]] + s[1..];
    }
  }

  lemma {:induction false} KeepFromInput(s: string, x: char)
    requires x in KeepNonSeparators(s)
    ensures x in s && !IsSeparator(x)
  {
    if s != [] && (x != s[0] || IsSeparator(s[0])) {
      KeepFromInput(s[1..], x);
    }
  }

  /** A string that neither starts nor ends with whitespace is its own strip. */
  lemma StripUnspaced(s: string)
    requires s != [] && !IsSpace(s[0]) && !IsSpace(s[|s| - 1])
    ensures Strip(s) == s
  {
    assert StripStart(s) == s;
  }

  /** A string that neither starts nor ends with whitespace and has no separator is left alone by the cleaning. */
  lemma CleanedFixedPoint(r: string)
    requires r != [] && !IsSpace(r[0]) && !IsSpace(r[|r| - 1])
    requires forall i :: 0 <= i < |r| ==> !IsSeparator(r[i])
    ensures Cleaned(r) == r
  {
    StripUnspaced(r);
    RemoveSeparatorsKeepsTheRest(r);
    KeepUnseparated(r);
  }

  /** Every character of the cleaned number occurs in the input. */
  lemma CleanedFromInput(phone: string, x: char)
    requires x in Cleaned(phone)
    ensures x in phone && !IsSeparator(x)
  {
    var a := StripStart(phone);
    var b := StripEnd(a);
    StripStartShape(phone);
    StripEndShape(a);
    RemoveSeparatorsKeepsTheRest(b);
    KeepFromInput(b, x);
    assert x in a[..|b|];
    assert x in phone[|phone| - |a|..];
  }

  /** Four worked examples, all normalising to the same number. */
  lemma Examples()
    ensures FormatPhoneNumber("9876543210") == "+919876543210"
    ensures FormatPhoneNumber("91 9876 543210") == "+919876543210"
    ensures FormatPhoneNumber("(98)76543210") == "+919876543210"
    ensures FormatPhoneNumber("+919876543210") == "+919876543210"
  {
    ExampleBare("9876543210");
    ExampleSpaced("91 9876 543210");
    ExampleParenthesised("(98)76543210");
    ExampleInternational("+919876543210");
  }

  lemma ExampleBare(phone: string)
    requires phone == "9876543210"
    ensures FormatPhoneNumber(phone) == "+919876543210"
  {
    CleanedFixedPoint(phone);
    NationalNumber(phone);
  }

  lemma ExampleInternational(phone: string)
    requires phone == "+919876543210"
    ensures FormatPhoneNumber(phone) == "+919876543210"
  {
    CleanedFixedPoint(phone);
    assert phone[..1] == "+";
  }

  lemma ExampleSpaced(phone: string)
    requires phone == "91 9876 543210"
    ensures FormatPhoneNumber(phone) == "+919876543210"
  {
    StripUnspaced(phone);
    RemoveSeparatorsKeepsTheRest(phone);
    SpacedKept(phone);
    NumberWithCode(phone);
  }

  lemma SpacedKept(phone: string)
    requires phone == "91 9876 543210"
    ensures KeepNonSeparators(phone) == "919876543210"
  {
    var a, b, c := "91 98", "76 54", "3210";
    SpacedPieces();
    assert phone == a + (b + c);
    KeepAppend(a, b + c);
    KeepAppend(b, c);
    SpacedPiece1();
    SpacedPiece2();
    SpacedPiece3();
    SpacedJoined();
  }

  lemma SpacedPieces() ensures "91 9876 543210" == "91 98" + ("76 54" + "3210") { }
  lemma SpacedPiece1() ensures KeepNonSeparators("91 98") == "9198" { }
  lemma SpacedPiece2() ensures KeepNonSeparators("76 54") == "7654" { }
  lemma SpacedPiece3() ensures KeepNonSeparators("3210") == "3210" { }
  lemma SpacedJoined() ensures "9198" + ("7654" + "3210") == "919876543210" { }

  lemma ExampleParenthesised(phone: string)
    requires phone == "(98)76543210"
    ensures FormatPhoneNumber(phone) == "+919876543210"
  {
    StripUnspaced(phone);
    RemoveSeparatorsKeepsTheRest(phone);
    ParenthesisedKept(phone);
    NationalNumber(phone);
  }

  lemma ParenthesisedKept(phone: string)
    requires phone == "(98)76543210"
    ensures KeepNonSeparators(phone) == "9876543210"
  {
    ParenthesisedPieces();
    KeepAppend("(98)", "76543210");
    ParenthesisedPiece();
    KeepUnseparated("76543210");
    ParenthesisedJoined();
  }

  lemma ParenthesisedPieces() ensures "(98)76543210" == "(98)" + "76543210" { }
  lemma ParenthesisedPiece() ensures KeepNonSeparators("(98)") == "98" { }
  lemma ParenthesisedJoined() ensures "98" + "76543210" == "9876543210" { }

  lemma NationalNumber(phone: string)
    requires Cleaned(phone) == "9876543210"
    ensures FormatPhoneNumber(phone) == "+919876543210"
  {
    CodeAdded();
  }

  lemma CodeAdded() ensures WithCountryCode("9876543210") == "+919876543210" {
    assert "9876543210"[..1] == "9" && "9876543210"[..2] == "98";
  }

  lemma NumberWithCode(phone: string)
    requires Cleaned(phone) == "919876543210"
    ensures FormatPhoneNumber(phone) == "+919876543210"
  {
    CodeCompleted();
  }

  lemma CodeCompleted() ensures WithCountryCode("919876543210") == "+919876543210" {
    assert "919876543210"[..1] == "9" && "919876543210"[..2] == "91";
  }

  /**
   * Normalising twice is normalising once exactly when the first result
   * does not end in whitespace: a whitespace character left at the end (from
   * an input such as "98\t)") is stripped by the second pass.
   */
  lemma IdempotentIff(phone: string)
    ensures var r := FormatPhoneNumber(phone);
      FormatPhoneNumber(r) == r <==> !IsSpace(r[|r| - 1])
  {
    NormalFormFixedIff(FormatPhoneNumber(phone));
  }

  /** A string with a leading `+` and no separator is its own normal form iff it does not end in whitespace. */
  lemma NormalFormFixedIff(r: string)
    requires r != [] && r[0] == '+'
    requires forall i :: 0 <= i < |r| ==> !IsSeparator(r[i])
    ensures FormatPhoneNumber(r) == r <==> !IsSpace(r[|r| - 1])
  {
    assert r[..1] == "+";
    if !IsSpace(r[|r| - 1]) {
      CleanedFixedPoint(r);
    } else {
      assert StripStart(r) == r;
      StripEndShape(r[..|r| - 1]);
      assert |Strip(r)| < |r|;
      PlusSurvivesCleaning(r);
    }
  }

  /** A number that starts with `+` keeps it through the cleaning, so no prefix is added to it. */
  lemma PlusSurvivesCleaning(r: string)
    requires r != [] && r[0] == '+'
    ensures Cleaned(r) != [] && Cleaned(r)[0] == '+'
    ensures FormatPhoneNumber(r) == Cleaned(r)
  {
    assert StripStart(r) == r;
    StripEndKeepsHead(r);
    StripEndShape(r);
    var t := Strip(r);
    RemoveSeparatorsKeepsTheRest(t);
    assert t == [t[0]] + t[1..];
    assert Cleaned(r)[..1] == "+";
  }

  lemma {:induction false} StripEndKeepsHead(s: string)
    requires s != [] && !IsSpace(s[0])
    ensures StripEnd(s) != []
  {
    if IsSpace(s[|s| - 1]) {
      StripEndKeepsHead(s[..|s| - 1]);
    }
  }

  /** Normalisation is idempotent when the only whitespace in the input is plain spaces. */
  lemma Idempotent(phone: string)
    requires forall i :: 0 <= i < |phone| && IsSpace(phone[i]) ==> phone[i] == ' '
    ensures FormatPhoneNumber(FormatPhoneNumber(phone)) == FormatPhoneNumber(phone)
  {
    var c := Cleaned(phone);
    var r := FormatPhoneNumber(phone);
    if c != [] {
      CleanedFromInput(phone, c[|c| - 1]);
      assert r[|r| - 1] == c[|c| - 1];
    }
    IdempotentIff(phone);
  }

  /** A tab before a closing parenthesis survives the first pass and is stripped by the second. */
  lemma TabSurvivesOnePass()
    ensures FormatPhoneNumber("98\t)") == "+9198\t"
    ensures FormatPhoneNumber(FormatPhoneNumber("98\t)")) == "+9198"
  {
    TabFirstPass("98\t)");
    TabSecondPass("+9198\t");
  }

  lemma TabFirstPass(phone: string)
    requires phone == "98\t)"
    ensures FormatPhoneNumber(phone) == "+9198\t"
  {
    StripUnspaced(phone);
    RemoveSeparatorsKeepsTheRest(phone);
    assert phone == "98\t" + ")";
    KeepAppend("98\t", ")");
    KeepUnseparated("98\t");
    var c := Cleaned(phone);
    assert c == "98\t";
    assert c[..1][0] == '9' && c[..2][1] == '8';
    assert "+91" + c == "+9198\t";
  }

  lemma TabSecondPass(phone: string)
    requires phone == "+9198\t"
    ensures FormatPhoneNumber(phone) == "+9198"
  {
    var t := Strip(phone);
    TabStripped(phone);
    RemoveSeparatorsKeepsTheRest(t);
    KeepUnseparated(t);
    assert Cleaned(phone) == t;
    assert t[..1] == "+";
  }

  lemma TabStripped(phone: string)
    requires phone == "+9198\t"
    ensures Strip(phone) == "+9198"
  {
    assert StripStart(phone) == phone;
    assert phone[..|phone| - 1] == "+9198";
    assert StripEnd("+9198") == "+9198";
  }
}
