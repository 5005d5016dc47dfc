/** The text stored in the `auth-user` cookie: `JSON.stringify(user)` and `JSON.parse` for the
    one shape this application writes, `{"id":<int>,"username":"<text>","email":"<text>"}`.
    Strings escape `"` and `\` with a backslash; the decoder accepts exactly that grammar and
    reports anything else as a parse failure. */
module UserJson {
  import opened Wrappers
  import opened AuthTypes
  import opened Text

  // ---------------------------------------------------------------- numbers

  predicate IsDigit(c: char)
  {
    '0' <= c <= '9'
  }

  predicate AllDigits(s: string)
  {
    forall i :: 0 <= i < |s| ==> IsDigit(s[i])
  }

  function DigitChar(d: nat): (c: char)
    requires d < 10
    ensures IsDigit(c) && DigitValue(c) == d
  {
    ('0' as int + d) as char
  }

  function DigitValue(c: char): nat
    requires IsDigit(c)
  {
    c as int - '0' as int
  }

  /** A JSON integer's digits: one `0`, or a run of digits that does not start with `0`. */
  predicate Canonical(d: string)
  {
    |d| > 0 && AllDigits(d) && (d[0] == '0' ==> |d| == 1)
  }

  /** The decimal digits of `n`, most significant first, without leading zeros. */
  function NatText(n: nat): (s: string)
    ensures Canonical(s)
    ensures s[0] == '0' <==> n == 0
    decreases n
  {
    if n < 10 then [DigitChar(n)] else NatText(n / 10) + [DigitChar(n % 10)]
  }

  /** The number a run of decimal digits denotes. */
  function DigitsValue(s: string): nat
    requires AllDigits(s)
  {
    if s == [] then 0 else 10 * DigitsValue(s[..|s| - 1]) + DigitValue(s[|s| - 1])
  }

  lemma {:induction false} NatTextValue(n: nat)
    ensures DigitsValue(NatText(n)) == n
  {
    if n >= 10 {
      var s := NatText(n);
      assert s[..|s| - 1] == NatText(n / 10);
      NatTextValue(n / 10);
    }
  }

  /** Digits that do not start with `0` denote a positive number. */
  lemma {:induction false} DigitsPositive(d: string)
    requires |d| > 0 && AllDigits(d) && d[0] != '0'
    ensures DigitsValue(d) > 0
  {
    if |d| > 1 {
      DigitsPositive(d[..|d| - 1]);
    }
  }

  lemma DivMod10(a: nat, b: nat)
    requires b < 10
    ensures (10 * a + b) / 10 == a && (10 * a + b) % 10 == b
  {
  }

  /** A canonical digit run is the text of the number it denotes. */
  lemma {:induction false} NatTextOfDigits(d: string)
    requires Canonical(d)
    ensures NatText(DigitsValue(d)) == d
  {
    var last := d[|d| - 1];
    assert DigitChar(DigitValue(last)) == last;
    if |d| > 1 {
      var init := d[..|d| - 1];
      assert init[0] == d[0];
      DigitsPositive(init);
      NatTextOfDigits(init);
      var n := DigitsValue(d);
      assert n == 10 * DigitsValue(init) + DigitValue(last);
      DivMod10(DigitsValue(init), DigitValue(last));
      assert NatText(n) == NatText(DigitsValue(init)) + [DigitChar(DigitValue(last))];
      assert d == init + [last];
    }
  }

  /** The length of the run of digits at the front of `s`. */
  function DigitRun(s: string): (k: nat)
    ensures k <= |s| && AllDigits(s[..k])
    ensures k < |s| ==> !IsDigit(s[k])
  {
    if s == [] || !IsDigit(s[0]) then 0
    else
      var k := 1 + DigitRun(s[1..]);
      assert s[..k] == [s[0]] + s[1..][..k - 1];
      k
  }

  /** A JSON integer: an optional minus sign and canonical digits. */
  function IntText(i: int): string
  {
    if i < 0 then "-" + NatText(-i) else NatText(i)
  }

  /** Reads canonical digits at the front of `s`; a leading zero followed by more digits is a
      syntax error, as in JSON. */
  function ReadNat(s: string): Option<(nat, string)>
  {
    var k := DigitRun(s);
    if k == 0 || (k > 1 && s[0] == '0') then None else Some((DigitsValue(s[..k]), s[k..]))
  }

  /** Reads an integer at the front of `s` and returns it with the text that follows. A minus
      sign before `0` is refused, since no integer is written that way. */
  function ReadInt(s: string): Option<(int, string)>
  {
    if |s| > 0 && s[0] == '-' then
      match ReadNat(s[1..])
      case None => None
      case Some((n, rest)) => if n == 0 then None else Some((-(n as int), rest))
    else
      match ReadNat(s)
      case None => None
      case Some((n, rest)) => Some((n as int, rest))
  }

  lemma DigitRunOfText(d: string, rest: string)
    requires |d| > 0 && AllDigits(d)
    requires rest == [] || !IsDigit(rest[0])
    ensures DigitRun(d + rest) == |d| && (d + rest)[..|d|] == d && (d + rest)[|d|..] == rest
  {
    var s := d + rest;
    var k := DigitRun(s);
    assert forall i :: 0 <= i < |d| ==> s[i] == d[i];
    if |d| < |s| {
      assert s[|d|] == rest[0];
    }
  }

  lemma ReadNatText(n: nat, rest: string)
    requires rest == [] || !IsDigit(rest[0])
    ensures ReadNat(NatText(n) + rest) == Some((n, rest))
  {
    var d := NatText(n);
    DigitRunOfText(d, rest);
    assert (d + rest)[0] == d[0];
    NatTextValue(n);
  }

  lemma ReadNegText(n: nat, rest: string)
    requires n > 0
    requires rest == [] || !IsDigit(rest[0])
    ensures ReadInt("-" + (NatText(n) + rest)) == Some((-(n as int), rest))
  {
    var t := NatText(n) + rest;
    assert ("-" + t)[1..] == t;
    ReadNatText(n, rest);
  }

  lemma ReadPosText(n: nat, rest: string)
    requires rest == [] || !IsDigit(rest[0])
    ensures ReadInt(NatText(n) + rest) == Some((n as int, rest))
  {
    ReadNatText(n, rest);
    assert (NatText(n) + rest)[0] == NatText(n)[0];
  }

  lemma ReadIntText(i: int, rest: string)
    requires rest == [] || !IsDigit(rest[0])
    ensures ReadInt(IntText(i) + rest) == Some((i, rest))
  {
    if i < 0 {
      ReadNegText(-i, rest);
      assert IntText(i) + rest == "-" + (NatText(-i) + rest);
    } else {
      ReadPosText(i, rest);
    }
  }

  /** Whatever `ReadNat` accepts is the number's own text followed by the rest. */
  lemma ReadNatCanonical(t: string)
    ensures ReadNat(t).Some? ==> t == NatText(ReadNat(t).value.0) + ReadNat(t).value.1
  {
    var k := DigitRun(t);
    if ReadNat(t).Some? {
      assert t[..k][0] == t[0];
      NatTextOfDigits(t[..k]);
      assert t == t[..k] + t[k..];
    }
  }

  /** Whatever `ReadInt` accepts is the integer's own text followed by the rest. */
  lemma ReadIntCanonical(s: string)
    ensures ReadInt(s).Some? ==> s == IntText(ReadInt(s).value.0) + ReadInt(s).value.1
  {
    if |s| > 0 && s[0] == '-' {
      ReadNatCanonical(s[1..]);
      assert s == "-" + s[1..];
    } else {
      ReadNatCanonical(s);
    }
  }

  // ---------------------------------------------------------------- strings

  /** The body of a JSON string literal: `"` and `\` are preceded by a backslash. */
  function Escape(s: string): string
  {
    if s == [] then []
    else (if s[0] == '"' || s[0] == '\\' then ['\\', s[0]] else [s[0]]) + Escape(s[1..])
  }

  /** `s` between double quotes. */
  function Quote(s: string): string
  {
    "\"" + Escape(s) + "\""
  }

  /** Reads the body of a string literal up to its closing quote; returns the unescaped text
      and what follows the closing quote. */
  function ReadBody(s: string): Option<(string, string)>
  {
    if s == [] then None
    else if s[0] == '"' then Some(([], s[1..]))
    else if s[0] == '\\' then
      if |s| < 2 || !(s[1] == '"' || s[1] == '\\') then None
      else match ReadBody(s[2..])
        case None => None
        case Some((text, rest)) => Some(([s[1]] + text, rest))
    else match ReadBody(s[1..])
      case None => None
      case Some((text, rest)) => Some(([s[0]] + text, rest))
  }

  /** Reads a string literal at the front of `s`. */
  function ReadString(s: string): Option<(string, string)>
  {
    if |s| > 0 && s[0] == '"' then ReadBody(s[1..]) else None
  }

  lemma {:induction false} ReadBodyEscape(text: string, rest: string)
    ensures ReadBody(Escape(text) + "\"" + rest) == Some((text, rest))
  {
    if text == [] {
      assert Escape(text) + "\"" + rest == "\"" + rest;
    } else {
      var head := if text[0] == '"' || text[0] == '\\' then ['\\', text[0]] else [text[0]];
      var tail := Escape(text[1..]) + "\"" + rest;
      assert Escape(text) == head + Escape(text[1..]);
      assert Escape(text) + "\"" + rest == head + tail;
      ReadBodyEscape(text[1..], rest);
      assert (head + tail)[|head|..] == tail;
      assert [text[0]] + text[1..] == text;
    }
  }

  lemma ReadStringQuote(text: string, rest: string)
    ensures ReadString(Quote(text) + rest) == Some((text, rest))
  {
    assert (Quote(text) + rest)[1..] == Escape(text) + "\"" + rest;
    ReadBodyEscape(text, rest);
  }

  /** Escaping a text that starts with `c` escapes `c` and then the rest. */
  lemma EscapeCons(c: char, text: string)
    ensures Escape([c] + text) == (if c == '"' || c == '\\' then ['\\', c] else [c]) + Escape(text)
  {
    assert ([c] + text)[1..] == text;
  }

  /** Whatever `ReadBody` accepts is the escaped text, its closing quote and the rest. */
  lemma {:induction false} ReadBodyCanonical(s: string, text: string, rest: string)
    requires ReadBody(s) == Some((text, rest))
    ensures s == Escape(text) + "\"" + rest
  {
    if s[0] == '\\' {
      var inner := ReadBody(s[2..]);
      assert inner == Some((text[1..], rest));
      assert text == [s[1]] + text[1..];
      ReadBodyCanonical(s[2..], text[1..], rest);
      EscapeCons(s[1], text[1..]);
      assert s == [s[0], s[1]] + s[2..];
    } else if s[0] != '"' {
      var inner := ReadBody(s[1..]);
      assert inner == Some((text[1..], rest));
      assert text == [s[0]] + text[1..];
      ReadBodyCanonical(s[1..], text[1..], rest);
      EscapeCons(s[0], text[1..]);
      assert s == [s[0]] + s[1..];
    }
  }

  /** Whatever `ReadString` accepts is the quoted text followed by the rest. */
  lemma ReadStringCanonical(s: string)
    ensures ReadString(s).Some? ==> s == Quote(ReadString(s).value.0) + ReadString(s).value.1
  {
    if ReadString(s).Some? {
      var (text, rest) := ReadString(s).value;
      ReadBodyCanonical(s[1..], text, rest);
      assert s == "\"" + s[1..];
    }
  }

  // ---------------------------------------------------------------- users

  const ID_FIELD := "{\"id\":"
  const USERNAME_FIELD := ",\"username\":"
  const EMAIL_FIELD := ",\"email\":"
  const CLOSE := "}"

  /** `JSON.stringify(user)`: an object text, never empty. */
  function Encode(u: User): (s: string)
    ensures |s| > 0 && s[0] == '{' && s[|s| - 1] == '}'
  {
    ID_FIELD + (IntText(u.id) + (USERNAME_FIELD + (Quote(u.username) + (EMAIL_FIELD + (Quote(u.email) + CLOSE)))))
  }

  /** `JSON.parse(text)` for the user shape; `None` where the parse would throw. A text it
      accepts is exactly the encoding of the user it returns. */
  function Decode(s: string): (r: Option<User>)
    ensures r.Some? ==> Encode(r.value) == s
  {
    if !StartsWith(s, ID_FIELD) then None
    else match ReadInt(s[|ID_FIELD|..])
      case None => None
      case Some((id, r1)) =>
        if !StartsWith(r1, USERNAME_FIELD) then None
        else match ReadString(r1[|USERNAME_FIELD|..])
          case None => None
          case Some((name, r2)) =>
            if !StartsWith(r2, EMAIL_FIELD) then None
            else match ReadString(r2[|EMAIL_FIELD|..])
              case None => None
              case Some((email, r3)) =>
                if r3 != CLOSE then None
                else
                  ReadIntCanonical(s[|ID_FIELD|..]);
                  ReadStringCanonical(r1[|USERNAME_FIELD|..]);
                  ReadStringCanonical(r2[|EMAIL_FIELD|..]);
                  SplitAfter(s, ID_FIELD);
                  SplitAfter(r1, USERNAME_FIELD);
                  SplitAfter(r2, EMAIL_FIELD);
                  Some(User(id, name, email))
  }

  lemma SplitAfter(s: string, prefix: string)
    requires StartsWith(s, prefix)
    ensures s == prefix + s[|prefix|..]
  {
    assert s == s[..|prefix|] + s[|prefix|..];
  }

  lemma StartsWithPrefix(prefix: string, rest: string)
    ensures StartsWith(prefix + rest, prefix) && (prefix + rest)[|prefix|..] == rest
  {
    assert (prefix + rest)[..|prefix|] == prefix;
  }

  /** What `setUser` writes, `getUser` reads back: the cookie text decodes to the same user. */
  lemma DecodeEncode(u: User)
    ensures Decode(Encode(u)) == Some(u)
  {
    var tail3 := Quote(u.email) + CLOSE;
    var tail2 := Quote(u.username) + (EMAIL_FIELD + tail3);
    var tail1 := USERNAME_FIELD + tail2;
    var s := Encode(u);
    StartsWithPrefix(ID_FIELD, IntText(u.id) + tail1);
    ReadIntText(u.id, tail1);
    StartsWithPrefix(USERNAME_FIELD, tail2);
    ReadStringQuote(u.username, EMAIL_FIELD + tail3);
    StartsWithPrefix(EMAIL_FIELD, tail3);
    ReadStringQuote(u.email, CLOSE);
  }
}
