/** The scalar values that appear in order parameters, account records and the
    brokerage's JSON replies, with the two Python behaviours the core relies on:
    truthiness (`if not x`) and whether `int(x)` succeeds. */
module Values {

  datatype Value = Null | Bool(b: bool) | Int(i: int) | Float(f: real) | Str(s: string)

  /** Python truthiness: None, False, 0, 0.0 and "" are false. */
  predicate Truthy(v: Value)
  {
    match v
    case Null => false
    case Bool(b) => b
    case Int(i) => i != 0
    case Float(f) => f != 0.0
    case Str(s) => s != ""
  }

  predicate IsDigit(c: char)
  {
    '0' <= c <= '9'
  }

  /** The characters `int()` skips around a literal. A string made of ASCII
      characters only is read as it is, so only the six ASCII whitespace
      characters are skipped, and not the separators U+001C to U+001F that
      `str.isspace()` also accepts. In any other string each non-ASCII whitespace
      character (U+0085, U+00A0, U+1680, U+2000 to U+200A, U+2028, U+2029, U+202F,
      U+205F, U+3000) is first turned into a space. */
  predicate IsSpace(c: char)
  {
    || c == ' ' || c == '\t' || c == '\n' || c == '\r' || c == '\U{0B}' || c == '\U{0C}'
    || c == '\U{85}' || c == '\U{A0}' || c == '\U{1680}' || '\U{2000}' <= c <= '\U{200A}'
    || c == '\U{2028}' || c == '\U{2029}' || c == '\U{202F}' || c == '\U{205F}' || c == '\U{3000}'
  }

  /** `s.strip()` with the whitespace `int()` skips. */
  function Strip(s: string): (t: string)
    ensures |t| <= |s|
    ensures t != [] ==> !IsSpace(t[0]) && !IsSpace(t[|t| - 1])
  {
    if s == [] then []
    else if IsSpace(s[0]) then Strip(s[1..])
    else if IsSpace(s[|s| - 1]) then Strip(s[..|s| - 1])
    else s
  }

  /** One or more digits, where single underscores may separate digits. */
  predicate DigitGroups(s: string)
  {
    && |s| > 0
    && IsDigit(s[0])
    && forall i :: 0 <= i < |s| ==> IsDigit(s[i]) || (s[i] == '_' && i + 1 < |s| && IsDigit(s[i + 1]))
  }

  /** The strings that Python's `int(s)` accepts in base 10. */
  predicate IntLiteral(s: string)
  {
    var t := Strip(s);
    |t| > 0 && if t[0] == '+' || t[0] == '-' then DigitGroups(t[1..]) else DigitGroups(t)
  }

  /** `int(v)` raises neither ValueError nor TypeError. */
  predicate IntConvertible(v: Value)
  {
    match v
    case Null => false
    case Bool(_) => true
    case Int(_) => true
    case Float(_) => true
    case Str(s) => IntLiteral(s)
  }

  /** A no-break space around the digits is skipped, while the ASCII file
      separator U+001C is not, and neither is a space between sign and digits. */
  lemma IntWhitespaceExamples()
    ensures IntConvertible(Str("\U{A0}5"))
    ensures IntConvertible(Str(" 5\n"))
    ensures !IntConvertible(Str("\U{1C}5"))
    ensures !IntConvertible(Str("- 5"))
  {
    assert Strip("\U{A0}5") == "5" by {
      assert "\U{A0}5"[1..] == "5";
    }
    assert Strip(" 5\n") == "5" by {
      assert " 5\n"[1..] == "5\n";
      assert "5\n"[..1] == "5";
    }
    assert Strip("\U{1C}5") == "\U{1C}5";
    assert Strip("- 5") == "- 5";
    assert "- 5"[1..] == " 5";
  }
}
