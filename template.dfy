/**
 * The personalisation step of the bulk send, `message.format(**contact)`:
 * Python's `str.format` with keyword arguments only, reduced to `{key}`
 * fields and the `{{` / `}}` escapes. Errors come out in the order Python
 * meets them, scanning the template from left to right.
 */
module Template {
  import opened Wrappers

  /** A contact row: column name to cell text. */
  type Record = map<string, string>

  datatype TemplateError =
    /** `KeyError`: the field names no column of the row. */
    | MissingKey(key: string)
    /** `ValueError`: a single `}`, a `{` never closed, a `{` inside a field name, or too many leading digits. */
    | Malformed
    /** `IndexError`: an empty or all-digit field asks for a positional argument, and there are none. */
    | Positional(key: string)

  /** Field names Python reads as positional indices (automatic numbering when empty). */
  predicate IsPositional(key: string) {
    forall i :: 0 <= i < |key| ==> '0' <= key[i] <= '9'
  }

  /** A field name the model looks up in the row. */
  predicate IsKeyword(key: string) {
    '{' !in key && '}' !in key && !IsPositional(key) && !TooManyDigits(key)
  }

  /** `sys.maxsize` on a 64-bit build: the largest field index `str.format` reads. */
  const MaxIndex: nat := 9223372036854775807

  predicate IsDigit(c: char) { '0' <= c <= '9' }

  function DigitOf(c: char): nat
    requires IsDigit(c)
  {
    (c as int) - ('0' as int)
  }

  /**
   * Whether reading the leading digits of `s` onto `acc` passes `MaxIndex`.
   * `str.format` reads a field name's leading digits one at a time, checking
   * before each step that the index cannot pass `sys.maxsize`, and stops at
   * the first character that is not a digit.
   */
  predicate DigitsOverflow(s: string, acc: nat)
    decreases |s|
  {
    if s == [] || !IsDigit(s[0]) then false
    else acc > (MaxIndex - DigitOf(s[0])) / 10 || DigitsOverflow(s[1..], acc * 10 + DigitOf(s[0]))
  }

  /** A field name whose leading digits write a number above `sys.maxsize`: `ValueError`. */
  predicate TooManyDigits(key: string) {
    DigitsOverflow(key, 0)
  }

  /** The index of the first `}` at or after `from`, or `|t|` when there is none. */
  function CloseAt(t: string, from: nat): (j: nat)
    requires from <= |t|
    ensures from <= j <= |t|
    ensures j < |t| ==> t[j] == '}'
    ensures forall i :: from <= i < j ==> t[i] != '}'
    decreases |t| - from
  {
    if from == |t| || t[from] == '}' then from else CloseAt(t, from + 1)
  }

  function Prepend(p: string, r: Result<string, TemplateError>): Result<string, TemplateError> {
    match r
    case Ok(s) => Ok(p + s)
    case Err(e) => Err(e)
  }

  /** `t.format(**rec)`. */
  function Format(t: string, rec: Record): (r: Result<string, TemplateError>)
    ensures r.Err? && r.error.MissingKey? ==> r.error.key !in rec && IsKeyword(r.error.key)
    ensures r.Err? && r.error.Positional? ==> IsPositional(r.error.key) && !TooManyDigits(r.error.key)
    decreases |t|
  {
    if t == [] then Ok([])
    else if |t| > 1 && t[0] == '{' && t[1] == '{' then Prepend("{", Format(t[2..], rec))
    else if |t| > 1 && t[0] == '}' && t[1] == '}' then Prepend("}", Format(t[2..], rec))
    else if t[0] == '}' then Err(Malformed)
    else if t[0] != '{' then Prepend([t[0]], Format(t[1..], rec))
    else
      var j := CloseAt(t, 1);
      if j == |t| || '{' in t[1..j] then Err(Malformed)
      else
        var key := t[1..j];
        if TooManyDigits(key) then Err(Malformed)
        else if IsPositional(key) then Err(Positional(key))
        else if key !in rec then Err(MissingKey(key))
        else Prepend(rec[key], Format(t[j + 1..], rec))
  }

  /** A parsed template: literal characters and keyword fields. */
  datatype Segment = Text(c: char) | Field(key: string)

  /** The structure of a template, independent of any row; fails on the errors Python raises without a lookup. */
  function Parse(t: string): (r: Result<seq<Segment>, TemplateError>)
    ensures r.Ok? ==> WellFormed(r.value)
    decreases |t|
  {
    if t == [] then Ok([])
    else if |t| > 1 && t[0] == '{' && t[1] == '{' then Cons(Text('{'), Parse(t[2..]))
    else if |t| > 1 && t[0] == '}' && t[1] == '}' then Cons(Text('}'), Parse(t[2..]))
    else if t[0] == '}' then Err(Malformed)
    else if t[0] != '{' then Cons(Text(t[0]), Parse(t[1..]))
    else
      var j := CloseAt(t, 1);
      if j == |t| || '{' in t[1..j] then Err(Malformed)
      else
        var key := t[1..j];
        if TooManyDigits(key) then Err(Malformed)
        else if IsPositional(key) then Err(Positional(key))
        else Cons(Field(key), Parse(t[j + 1..]))
  }

  function Cons(s: Segment, r: Result<seq<Segment>, TemplateError>): Result<seq<Segment>, TemplateError> {
    match r
    case Ok(segs) => Ok([s] + segs)
    case Err(e) => Err(e)
  }

  predicate WellFormed(segs: seq<Segment>) {
    forall i :: 0 <= i < |segs| && segs[i].Field? ==> IsKeyword(segs[i].key)
  }

  /** Every field of the template names a column of the row. */
  predicate Resolves(segs: seq<Segment>, rec: Record) {
    forall i :: 0 <= i < |segs| && segs[i].Field? ==> segs[i].key in rec
  }

  /** The message a parsed template gives for a row whose columns cover its fields. */
  function Render(segs: seq<Segment>, rec: Record): string
    requires Resolves(segs, rec)
  {
    if segs == [] then []
    else (match segs[0] case Text(c) => [c] case Field(k) => rec[k]) + Render(segs[1..], rec)
  }

  /** The template text of a parsed template, braces escaped. */
  function Unparse(segs: seq<Segment>): string {
    if segs == [] then []
    else
      (match segs[0]
       case Text(c) => if c == '{' then "{{" else if c == '}' then "}}" else [c]
       case Field(k) => "{" + k + "}")
      + Unparse(segs[1..])
  }

  /**
   * Formatting succeeds exactly when the template parses and every field it
   * names is a column of the row; the message is then the parsed template
   * rendered with the row.
   */
  lemma {:induction false} FormatIsParseThenRender(t: string, rec: Record)
    ensures Format(t, rec).Ok? <==> Parse(t).Ok? && Resolves(Parse(t).value, rec)
    ensures Format(t, rec).Ok? ==> Format(t, rec).value == Render(Parse(t).value, rec)
    decreases |t|
  {
    if t == [] {
    } else if |t| > 1 && t[0] == '{' && t[1] == '{' {
      FormatIsParseThenRender(t[2..], rec);
      ConsText('{', Parse(t[2..]), rec);
    } else if |t| > 1 && t[0] == '}' && t[1] == '}' {
      FormatIsParseThenRender(t[2..], rec);
      ConsText('}', Parse(t[2..]), rec);
    } else if t[0] == '}' {
    } else if t[0] != '{' {
      FormatIsParseThenRender(t[1..], rec);
      ConsText(t[0], Parse(t[1..]), rec);
    } else {
      var j := CloseAt(t, 1);
      if j == |t| || '{' in t[1..j] {
      } else {
        var key := t[1..j];
        if !TooManyDigits(key) && !IsPositional(key) {
          FormatIsParseThenRender(t[j + 1..], rec);
          var rest := Parse(t[j + 1..]);
          if rest.Ok? {
            var segs := [Field(key)] + rest.value;
            assert segs[0] == Field(key) && segs[1..] == rest.value;
            assert Resolves(segs, rec) <==> key in rec && Resolves(rest.value, rec) by {
              assert forall i :: 1 <= i < |segs| ==> segs[i] == rest.value[i - 1];
            }
          }
        }
      }
    }
  }

  lemma ConsText(c: char, rest: Result<seq<Segment>, TemplateError>, rec: Record)
    ensures Cons(Text(c), rest).Ok? <==> rest.Ok?
    ensures rest.Ok? ==> (Resolves(Cons(Text(c), rest).value, rec) <==> Resolves(rest.value, rec))
    ensures rest.Ok? && Resolves(rest.value, rec) ==>
      Render(Cons(Text(c), rest).value, rec) == [c] + Render(rest.value, rec)
  {
    if rest.Ok? {
      var segs := [Text(c)] + rest.value;
      assert segs[1..] == rest.value;
      assert forall i :: 1 <= i < |segs| ==> segs[i] == rest.value[i - 1];
    }
  }

  /** Parsing the text of a well-formed parsed template gives it back. */
  lemma {:induction false} ParseUnparse(segs: seq<Segment>)
    requires WellFormed(segs)
    ensures Parse(Unparse(segs)) == Ok(segs)
  {
    if segs != [] {
      var rest := Unparse(segs[1..]);
      assert WellFormed(segs[1..]) by {
        assert forall i :: 0 <= i < |segs| - 1 ==> segs[1..][i] == segs[i + 1];
      }
      ParseUnparse(segs[1..]);
      assert segs == [segs[0]] + segs[1..];
      match segs[0]
      case Text(c) =>
        if c == '{' {
          assert ("{{" + rest)[2..] == rest;
        } else if c == '}' {
          assert ("}}" + rest)[2..] == rest;
        } else {
          assert ([c] + rest)[1..] == rest;
        }
      case Field(k) =>
        assert IsKeyword(k);
        var t := "{" + k + "}" + rest;
        assert k != [] by { assert !IsPositional(k); }
        assert t[1] == k[0] && k[0] != '{';
        CloseAfterKey(t, k);
        assert t[1..1 + |k|] == k;
        assert t[1 + |k| + 1..] == rest;
    }
  }

  lemma CloseAfterKey(t: string, k: string)
    requires '}' !in k && |t| > |k| + 1
    requires t[1..1 + |k|] == k && t[1 + |k|] == '}'
    ensures CloseAt(t, 1) == 1 + |k|
  {
    assert forall i :: 1 <= i < 1 + |k| ==> t[i] == k[i - 1];
  }

  /** Literal text without braces is copied into the message. */
  lemma {:induction false} FormatPlain(a: string, b: string, rec: Record)
    requires '{' !in a && '}' !in a
    ensures Format(a + b, rec) == Prepend(a, Format(b, rec))
  {
    if a == [] {
      assert a + b == b;
      match Format(b, rec)
      case Ok(v) => assert a + v == v;
      case Err(_) =>
    } else {
      assert a[0] in a;
      assert (a + b)[0] == a[0] && (a + b)[1..] == a[1..] + b;
      assert forall x :: x in a[1..] ==> x in a;
      FormatPlain(a[1..], b, rec);
      assert [a[0]] + a[1..] == a;
      match Format(b, rec)
      case Ok(v) => assert [a[0]] + (a[1..] + v) == a + v;
      case Err(_) =>
    }
  }

  /** A keyword field is replaced by its column's text, or fails with the missing key. */
  lemma FormatField(k: string, b: string, rec: Record)
    requires IsKeyword(k)
    ensures Format("{" + k + "}" + b, rec)
         == if k in rec then Prepend(rec[k], Format(b, rec)) else Err(MissingKey(k))
  {
    var t := "{" + k + "}" + b;
    assert k != [] by { assert !IsPositional(k); }
    assert t[1] == k[0] && k[0] != '{';
    CloseAfterKey(t, k);
    assert t[1..1 + |k|] == k;
    assert t[1 + |k| + 1..] == b;
  }

  /** A field name reaching `sys.maxsize` with its digits fails with `ValueError`, whatever the row holds. */
  lemma FormatLongIndex(k: string, b: string, rec: Record)
    requires '{' !in k && '}' !in k && TooManyDigits(k)
    ensures Format("{" + k + "}" + b, rec) == Err(Malformed)
  {
    var t := "{" + k + "}" + b;
    assert k != [];
    assert t[1] == k[0] && k[0] != '{';
    CloseAfterKey(t, k);
    assert t[1..1 + |k|] == k;
  }

  function Ten(n: nat): nat {
    if n == 0 then 1 else 10 * Ten(n - 1)
  }

  lemma {:induction false} TenGrows(a: nat, b: nat)
    requires a <= b
    ensures Ten(a) <= Ten(b)
    decreases b
  {
    if a < b {
      TenGrows(a, b - 1);
    }
  }

  lemma TenValues()
    ensures Ten(18) == 1000000000000000000 && Ten(19) == 10000000000000000000
  {
    assert Ten(1) == 10;
    assert Ten(2) == 100;
    assert Ten(3) == 1000;
    assert Ten(4) == 10000;
    assert Ten(5) == 100000;
    assert Ten(6) == 1000000;
    assert Ten(7) == 10000000;
    assert Ten(8) == 100000000;
    assert Ten(9) == 1000000000;
    assert Ten(10) == 10000000000;
    assert Ten(11) == 100000000000;
    assert Ten(12) == 1000000000000;
    assert Ten(13) == 10000000000000;
    assert Ten(14) == 100000000000000;
    assert Ten(15) == 1000000000000000;
    assert Ten(16) == 10000000000000000;
    assert Ten(17) == 100000000000000000;
  }

  /** Reading `n` more digits onto `acc` passes `MaxIndex` when `acc` followed by `n` zeros already does. */
  lemma {:induction false} LongRunOverflows(s: string, acc: nat, n: nat)
    requires 1 <= n <= |s|
    requires forall i :: 0 <= i < n ==> IsDigit(s[i])
    requires acc * Ten(n) > MaxIndex
    ensures DigitsOverflow(s, acc)
    decreases n
  {
    assert IsDigit(s[0]);
    var d := DigitOf(s[0]);
    if acc <= (MaxIndex - d) / 10 {
      var next := acc * 10 + d;
      assert n >= 2;
      assert next * Ten(n - 1) >= acc * Ten(n) by {
        assert next * Ten(n - 1) == acc * (10 * Ten(n - 1)) + d * Ten(n - 1);
      }
      assert forall i :: 0 <= i < n - 1 ==> IsDigit(s[1..][i]) by {
        assert forall i :: 0 <= i < n - 1 ==> s[1..][i] == s[i + 1];
      }
      LongRunOverflows(s[1..], next, n - 1);
    }
  }

  /** A field name opening with twenty digits, the first not `0`, fails with `ValueError`. */
  lemma LongIndexOverflows(k: string)
    requires |k| >= 20 && k[0] != '0'
    requires forall i :: 0 <= i < 20 ==> IsDigit(k[i])
    ensures TooManyDigits(k)
  {
    assert IsDigit(k[0]);
    var d := DigitOf(k[0]);
    assert forall i :: 0 <= i < 19 ==> IsDigit(k[1..][i]) by {
      assert forall i :: 0 <= i < 19 ==> k[1..][i] == k[i + 1];
    }
    TenValues();
    assert d * Ten(19) > MaxIndex;
    LongRunOverflows(k[1..], d, 19);
  }

  /** Reading digits onto `acc` below `10^m` stays within `MaxIndex` while the digits end before the 18th. */
  lemma {:induction false} ShortRunFits(s: string, acc: nat, m: nat)
    requires m + |s| <= 18 && acc < Ten(m)
    ensures !DigitsOverflow(s, acc)
    decreases |s|
  {
    if s != [] && IsDigit(s[0]) {
      var d := DigitOf(s[0]);
      TenGrows(m + 1, 18);
      TenValues();
      assert acc * 10 + d < Ten(m + 1);
      ShortRunFits(s[1..], acc * 10 + d, m + 1);
    }
  }

  /** A field name of at most eighteen characters never has too many digits. */
  lemma ShortIndexFits(k: string)
    requires |k| <= 18
    ensures !TooManyDigits(k)
  {
    ShortRunFits(k, 0, 0);
  }

  /** Twenty nines are past `sys.maxsize`: `ValueError`, not the `IndexError` of a small index. */
  lemma ExampleLongIndex(t: string, rec: Record)
    requires t == "{99999999999999999999}"
    ensures Format(t, rec) == Err(Malformed)
  {
    var k := "99999999999999999999";
    LongIndexPieces(t, k);
    LongIndexOverflows(k);
    FormatLongIndex(k, "", rec);
  }

  lemma LongIndexPieces(t: string, k: string)
    requires t == "{99999999999999999999}" && k == "99999999999999999999"
    ensures t == "{" + k + "}" + "" && '{' !in k && '}' !in k
  {
  }

  /** The digits are read before the letter after them: `ValueError`, not `KeyError`. */
  lemma ExampleLongIndexThenLetter(t: string, rec: Record)
    requires t == "{99999999999999999999a}"
    ensures Format(t, rec) == Err(Malformed)
  {
    var k := "99999999999999999999a";
    LongIndexThenLetterPieces(t, k);
    LongIndexOverflows(k);
    FormatLongIndex(k, "", rec);
  }

  lemma LongIndexThenLetterPieces(t: string, k: string)
    requires t == "{99999999999999999999a}" && k == "99999999999999999999a"
    ensures t == "{" + k + "}" + "" && '{' !in k && '}' !in k
  {
  }

  /** A worked example: every field resolves. */
  lemma ExampleResolved(t: string, rec: Record)
    requires t == "Hi {name} from {city}"
    requires rec == map["name" := "Asha", "city" := "Pune"]
    ensures Format(t, rec) == Ok("Hi Asha from Pune")
  {
    var tail := " from " + ("{" + "city" + "}" + "");
    ResolvedPieces(t, tail);
    NameAndCityAreKeywords();
    FormatPlain(" from ", "{" + "city" + "}" + "", rec);
    FormatField("city", "", rec);
    assert Format("", rec) == Ok([]);
    assert "city" in rec && rec["city"] == "Pune";
    assert Format("{" + "city" + "}" + "", rec) == Ok("Pune" + []);
    assert " from " + ("Pune" + []) == " from Pune";
    assert Format(tail, rec) == Ok(" from Pune");
    assert "name" in rec && rec["name"] == "Asha";
    FormatPlain("Hi ", "{" + "name" + "}" + tail, rec);
    FormatField("name", tail, rec);
    ResolvedJoined();
  }

  lemma ResolvedPieces(t: string, tail: string)
    requires t == "Hi {name} from {city}" && tail == " from " + ("{" + "city" + "}" + "")
    ensures t == "Hi " + ("{" + "name" + "}" + tail)
  {
  }

  lemma NameAndCityAreKeywords()
    ensures IsKeyword("name") && IsKeyword("city")
  {
    assert !('0' <= "name"[0] <= '9');
    assert !('0' <= "city"[0] <= '9');
  }

  lemma ResolvedJoined()
    ensures "Hi " + ("Asha" + " from Pune") == "Hi Asha from Pune"
  {
  }

  /** A worked example: a field naming no column fails with that key. */
  lemma ExampleMissing(t: string, rec: Record)
    requires t == "Hi {missing}"
    requires rec == map["name" := "Asha", "city" := "Pune"]
    ensures Format(t, rec) == Err(MissingKey("missing"))
  {
    assert t == "Hi " + ("{" + "missing" + "}" + "");
    assert IsKeyword("missing") by { assert !IsPositional("missing") by { assert !('0' <= "missing"[0] <= '9'); } }
    FormatPlain("Hi ", "{" + "missing" + "}" + "", rec);
    FormatField("missing", "", rec);
  }
}
