/**
 * The parts of Python's `str` methods and of `int()` that the core relies on.
 * Character classes are those of Python restricted to the Latin-1 range
 * (whitespace) or to ASCII (letters and digits).
 */
module PyText {
  import opened Wrappers

  /** str.isspace() on the Latin-1 range. */
  predicate IsSpace(c: char) {
    var n := c as int;
    n == 32 || 9 <= n <= 13 || 28 <= n <= 31 || n == 0x85 || n == 0xA0
  }

  /** The two characters removed by `strip("'\"")`. */
  predicate IsQuote(c: char) {
    c == '\'' || c == '"'
  }

  predicate IsDigit(c: char) {
    '0' <= c <= '9'
  }

  predicate IsUpper(c: char) {
    'A' <= c <= 'Z'
  }

  /** The two character sets the core passes to str.strip. */
  datatype StripChars = Whitespace | Quotes

  predicate Drops(chars: StripChars, c: char) {
    match chars
    case Whitespace => IsSpace(c)
    case Quotes => IsQuote(c)
  }

  /** str.strip: `strip()` for Whitespace, `strip("'\"")` for Quotes. */
  function Strip(s: string, chars: StripChars): (r: string)
    ensures |r| <= |s|
    ensures r == [] || (!Drops(chars, r[0]) && !Drops(chars, r[|r| - 1]))
    decreases |s|
  {
    if s != [] && Drops(chars, s[0]) then Strip(s[1..], chars)
    else if s != [] && Drops(chars, s[|s| - 1]) then Strip(s[..|s| - 1], chars)
    else s
  }

  /** How many leading characters satisfy `chars`. */
  function LeadCount(s: string, chars: StripChars): (n: nat)
    ensures n <= |s|
  {
    if s != [] && Drops(chars, s[0]) then 1 + LeadCount(s[1..], chars) else 0
  }

  /**
   * `r` sits in `s` right after `n` droppable characters, and every
   * character after it is droppable.
   */
  predicate StrippedInfix(s: string, chars: StripChars, n: nat, r: string) {
    && n + |r| <= |s|
    && (forall k :: 0 <= k < |r| ==> r[k] == s[n + k])
    && (forall i :: 0 <= i < n ==> Drops(chars, s[i]))
    && (forall i :: n + |r| <= i < |s| ==> Drops(chars, s[i]))
  }

  /** The result of str.strip is the infix of `s` after its leading run of droppable characters. */
  lemma {:induction false} StripInfix(s: string, chars: StripChars)
    ensures StrippedInfix(s, chars, LeadCount(s, chars), Strip(s, chars))
    decreases |s|
  {
    if s != [] && Drops(chars, s[0]) {
      StripInfix(s[1..], chars);
      InfixAfterDrop(s, chars, LeadCount(s[1..], chars), Strip(s[1..], chars));
    } else if s != [] && Drops(chars, s[|s| - 1]) {
      var t := s[..|s| - 1];
      StripInfix(t, chars);
      assert t != [] ==> t[0] == s[0];
      InfixBeforeDrop(s, chars, Strip(t, chars));
    } else {
      assert StrippedInfix(s, chars, 0, s);
    }
  }

  lemma InfixAfterDrop(s: string, chars: StripChars, n: nat, r: string)
    requires s != [] && Drops(chars, s[0])
    requires StrippedInfix(s[1..], chars, n, r)
    ensures StrippedInfix(s, chars, n + 1, r)
  {
    assert forall i :: 0 < i < |s| ==> s[i] == s[1..][i - 1];
  }

  lemma InfixBeforeDrop(s: string, chars: StripChars, r: string)
    requires s != [] && Drops(chars, s[|s| - 1])
    requires StrippedInfix(s[..|s| - 1], chars, 0, r)
    ensures StrippedInfix(s, chars, 0, r)
  {
    assert forall i :: 0 <= i < |s| - 1 ==> s[i] == s[..|s| - 1][i];
  }

  /** Stripping a string with no droppable character at either end changes nothing. */
  lemma StripUnchanged(s: string, chars: StripChars)
    requires s == [] || (!Drops(chars, s[0]) && !Drops(chars, s[|s| - 1]))
    ensures Strip(s, chars) == s
  {
  }

  /** str.strip is idempotent. */
  lemma StripIdempotent(s: string, chars: StripChars)
    ensures Strip(Strip(s, chars), chars) == Strip(s, chars)
  {
    StripUnchanged(Strip(s, chars), chars);
  }

  function LowerChar(c: char): (r: char)
    ensures !IsUpper(r)
    ensures IsSpace(r) <==> IsSpace(c)
    ensures r != c ==> IsUpper(c) && r as int == c as int + 32
  {
    if IsUpper(c) then (c as int + 32) as char else c
  }

  /** str.lower() on ASCII letters; every other character is kept. */
  function Lower(s: string): (r: string)
    ensures |r| == |s|
    ensures forall i :: 0 <= i < |r| ==> !IsUpper(r[i])
    ensures forall i :: 0 <= i < |s| && !IsUpper(s[i]) ==> r[i] == s[i]
  {
    seq(|s|, i requires 0 <= i < |s| => LowerChar(s[i]))
  }

  lemma LowerIdempotent(s: string)
    ensures Lower(Lower(s)) == Lower(s)
  {
  }

  /** `s.replace(c, '')`: every occurrence of `c` removed, everything else kept in order. */
  function Remove(s: string, c: char): (r: string)
    ensures c !in r
    ensures |r| <= |s|
    ensures forall x :: x in r ==> x in s
    ensures c !in s ==> r == s
  {
    if s == [] then []
    else
      var init := s[..|s| - 1];
      var last := s[|s| - 1];
      assert s == init + [last];
      var r := Remove(init, c) + (if last == c then [] else [last]);
      assert forall x :: x in r ==> x in init || x == last;
      r
  }

  /** Removing `c` keeps every other character as often as it occurred. */
  lemma {:induction false} RemoveKeepsOthers(s: string, c: char, x: char)
    requires x != c
    ensures multiset(Remove(s, c))[x] == multiset(s)[x]
  {
    if s != [] {
      var init := s[..|s| - 1];
      var last := s[|s| - 1];
      assert s == init + [last];
      RemoveKeepsOthers(init, c, x);
    }
  }

  /** Removing a character distributes over concatenation. */
  lemma {:induction false} RemoveConcat(a: string, b: string, c: char)
    ensures Remove(a + b, c) == Remove(a, c) + Remove(b, c)
    decreases |b|
  {
    if b == [] {
      assert a + b == a;
    } else {
      var init := b[..|b| - 1];
      assert (a + b)[..|a + b| - 1] == a + init;
      assert (a + b)[|a + b| - 1] == b[|b| - 1];
      RemoveConcat(a, init, c);
    }
  }

  /** Removing a separator that occurs once, between two pieces that lack it, joins the pieces. */
  lemma RemoveSeparator(a: string, b: string, c: char)
    requires c !in a && c !in b
    ensures Remove(a + [c] + b, c) == a + b
  {
    var ac := a + [c];
    assert ac[..|ac| - 1] == a && ac[|ac| - 1] == c;
    assert Remove(ac, c) == Remove(a, c) + [];
    assert Remove(ac, c) == a;
    RemoveConcat(ac, b, c);
  }

  predicate AllDigits(s: string) {
    forall i :: 0 <= i < |s| ==> IsDigit(s[i])
  }

  /** str.isdigit() on ASCII: non-empty and made of decimal digits only. */
  predicate IsDigitString(s: string) {
    s != [] && AllDigits(s)
  }

  function DecimalValue(s: string): (n: nat)
    requires AllDigits(s)
  {
    if s == [] then 0 else DecimalValue(s[..|s| - 1]) * 10 + (s[|s| - 1] as int - '0' as int)
  }

  /**
   * The value of the digit part of a Python int literal: decimal digits
   * with single underscores between digits; None for anything else.
   */
  function GroupsValue(s: string): (r: Option<nat>)
  {
    if s == [] || !IsDigit(s[|s| - 1]) then None
    else
      var digit := s[|s| - 1] as int - '0' as int;
      if |s| == 1 then Some(digit)
      else
        var init := s[..|s| - 1];
        var rest := if init[|init| - 1] == '_' then init[..|init| - 1] else init;
        match GroupsValue(rest)
        case None => None
        case Some(n) => Some(n * 10 + digit)
  }

  /**
   * int(s) for a string: surrounding whitespace, an optional sign, then
   * decimal digit groups; anything else is a ValueError (None here).
   */
  function ParseInt(s: string): (r: Option<int>)
    ensures Strip(s, Whitespace) == [] ==> r.None?
    ensures r.Some? && r.value < 0 ==> Strip(s, Whitespace)[0] == '-'
  {
    var t := Strip(s, Whitespace);
    if t == [] then None
    else
      var body := if t[0] == '-' || t[0] == '+' then t[1..] else t;
      match GroupsValue(body)
      case None => None
      case Some(n) =>
        var magnitude: int := n;
        Some(if t[0] == '-' then -magnitude else magnitude)
  }

  /** A plain digit string is its own decimal value. */
  lemma {:induction false} DigitsValue(s: string)
    requires IsDigitString(s)
    ensures GroupsValue(s) == Some(DecimalValue(s))
  {
    if |s| > 1 {
      var init := s[..|s| - 1];
      assert init[|init| - 1] == s[|s| - 2];
      DigitsValue(init);
    }
  }

  /** A plain digit string is an int literal of its own decimal value. */
  lemma ParseDigits(s: string)
    requires IsDigitString(s)
    ensures ParseInt(s) == Some(DecimalValue(s))
  {
    assert !IsSpace(s[0]) && !IsSpace(s[|s| - 1]);
    StripUnchanged(s, Whitespace);
    assert s[0] != '-' && s[0] != '+';
    DigitsValue(s);
  }

  /** A sign before a digit string: `int("-12") == -12` and `int("+12") == 12`. */
  lemma ParseSigned(d: string)
    requires IsDigitString(d)
    ensures ParseInt("-" + d) == Some(-(DecimalValue(d) as int))
    ensures ParseInt("+" + d) == Some(DecimalValue(d))
  {
    DigitsValue(d);
    var neg := "-" + d;
    var pos := "+" + d;
    assert !IsSpace(neg[0]) && !IsSpace(neg[|neg| - 1]);
    assert !IsSpace(pos[0]) && !IsSpace(pos[|pos| - 1]);
    StripUnchanged(neg, Whitespace);
    StripUnchanged(pos, Whitespace);
    assert neg[1..] == d && pos[1..] == d;
  }

  /** int() ignores surrounding whitespace: `int(" 5 ") == int("5")`. */
  lemma ParseIntStrips(s: string)
    ensures ParseInt(s) == ParseInt(Strip(s, Whitespace))
  {
    StripIdempotent(s, Whitespace);
  }

  predicate IsHexDigit(c: char) {
    IsDigit(c) || 'a' <= c <= 'f' || 'A' <= c <= 'F'
  }

  function HexDigitValue(c: char): (n: nat)
    requires IsHexDigit(c)
    ensures n < 16
  {
    if IsDigit(c) then c as int - '0' as int
    else if 'a' <= c <= 'f' then c as int - 'a' as int + 10
    else c as int - 'A' as int + 10
  }

  /**
   * int(s, 16) on the strings of one or two characters the score decoder
   * passes: after stripping whitespace, an optional sign and hex digits (a
   * `0x` prefix or an underscore needs at least three characters). None is
   * Python's ValueError.
   */
  function ParseHex(s: string): (r: Option<int>)
    requires 1 <= |s| <= 2
    ensures |s| == 1 ==> (r.Some? <==> IsHexDigit(s[0]))
    ensures |s| == 2 && IsHexDigit(s[0]) && IsHexDigit(s[1]) ==> r == Some(HexDigitValue(s[0]) * 16 + HexDigitValue(s[1]))
    ensures r.Some? ==> -15 <= r.value <= 255
  {
    if |s| == 1 then
      if IsHexDigit(s[0]) then Some(HexDigitValue(s[0])) else None
    else if IsHexDigit(s[0]) && IsHexDigit(s[1]) then Some(HexDigitValue(s[0]) * 16 + HexDigitValue(s[1]))
    else if IsHexDigit(s[0]) && IsSpace(s[1]) then Some(HexDigitValue(s[0]))
    else if (IsSpace(s[0]) || s[0] == '+') && IsHexDigit(s[1]) then Some(HexDigitValue(s[1]))
    else if s[0] == '-' && IsHexDigit(s[1]) then Some(-(HexDigitValue(s[1]) as int))
    else None
  }
}
