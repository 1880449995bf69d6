/**
  Transaction tokens: sixteen hexadecimal digits that the client prints, types
  into object paths and parses back.
 */
module Tokens {
  import opened Uplinks

  const TWO64: nat := 0x1_0000_0000_0000_0000

  type Id = n: nat | n < TWO64

  const WIDTH: nat := 16

  const CLIENT_PREFIX := "/info/griwes/nonsense"

  const TRANSACTIONS := "/info/griwes/nonsense/configuration/transactions/"

  // ----- Printing ----------------------------------------------------------

  function DigitChar(d: nat): (c: char)
    requires d < 16
  {
    "0123456789abcdef"[d]
  }

  /** `std::hex`: no leading zeros. */
  function Hex(n: nat): (s: string)
    ensures s != ""
  {
    if n < 16 then [DigitChar(n)] else Hex(n / 16) + [DigitChar(n % 16)]
  }

  function Zeros(n: nat): (s: string)
    ensures |s| == n && forall i | 0 <= i < n :: s[i] == '0'
  {
    seq(n, i => '0')
  }

  /** `std::setw(16)` with fill `'0'`. */
  function Token(id: Id): string
  {
    var digits := Hex(id);
    if |digits| < WIDTH then Zeros(WIDTH - |digits|) + digits else digits
  }

  /** The object path the daemon registers. */
  function ObjectPath(id: Id): string
  {
    TRANSACTIONS + Token(id)
  }

  /** The object path the client calls for a token. */
  function ClientPath(token: string): string
  {
    CLIENT_PREFIX + "/configuration/transactions/" + token
  }

  // ----- Parsing -----------------------------------------------------------

  function DigitOf(c: char): Option<nat>
  {
    if '0' <= c <= '9' then Some(c as int - '0' as int)
    else if 'a' <= c <= 'f' then Some(c as int - 'a' as int + 10)
    else if 'A' <= c <= 'F' then Some(c as int - 'A' as int + 10)
    else None
  }

  predicate IsSpace(c: char)
  {
    c == ' ' || c == '\t' || c == '\n' || c == '\r' || c == 11 as char || c == 12 as char
  }

  function SkipSpaces(s: string): string
  {
    if s != "" && IsSpace(s[0]) then SkipSpaces(s[1..]) else s
  }

  /** The longest prefix of hexadecimal digits. */
  function Digits(s: string): (r: string)
    ensures r <= s
  {
    if s == "" || DigitOf(s[0]).None? then "" else [s[0]] + Digits(s[1..])
  }

  /** The value of digits, most significant first. */
  function Value(s: string): nat
  {
    if s == "" then 0
    else Value(s[..|s| - 1]) * 16 + match DigitOf(s[|s| - 1]) case None => 0 case Some(d) => d
  }

  function SkipBase(s: string): string
  {
    if |s| >= 2 && s[0] == '0' && (s[1] == 'x' || s[1] == 'X') then s[2..] else s
  }

  /** `is >> std::hex >> token`; None where the stream fails.  What follows the digits is not read. */
  function Parse(text: string): Option<Id>
  {
    var s := SkipSpaces(text);
    var negative := s != "" && s[0] == '-';
    var rest := SkipBase(if s != "" && (s[0] == '-' || s[0] == '+') then s[1..] else s);
    var digits := Digits(rest);
    if digits == "" || Value(digits) >= TWO64 then None
    else if negative then Some((TWO64 - Value(digits)) % TWO64)
    else Some(Value(digits))
  }

  // ----- The round trip ----------------------------------------------------

  predicate LowerHex(c: char)
  {
    '0' <= c <= '9' || 'a' <= c <= 'f'
  }

  /** A text that could have been printed: sixteen lower-case digits. */
  predicate Printed(s: string)
  {
    |s| == WIDTH && forall i | 0 <= i < |s| :: LowerHex(s[i])
  }

  function Pow16(k: nat): nat
  {
    if k == 0 then 1 else 16 * Pow16(k - 1)
  }

  lemma {:induction false} Pow16At16()
    ensures Pow16(WIDTH) == TWO64
  {
    assert Pow16(8) == 0x1_0000_0000;
    assert Pow16(12) == 16 * (16 * (16 * (16 * Pow16(8))));
    assert Pow16(16) == 16 * (16 * (16 * (16 * Pow16(12))));
  }

  lemma {:induction false} HexValue(n: nat)
    ensures forall i | 0 <= i < |Hex(n)| :: LowerHex(Hex(n)[i])
    ensures Value(Hex(n)) == n
    decreases n
  {
    if n >= 16 {
      HexValue(n / 16);
      assert Hex(n)[..|Hex(n)| - 1] == Hex(n / 16);
    } else {
      assert Hex(n)[..0] == "";
    }
  }

  lemma {:induction false} HexLength(n: nat, k: nat)
    requires k > 0 && n < Pow16(k)
    ensures |Hex(n)| <= k
    decreases k
  {
    if n >= 16 { HexLength(n / 16, k - 1); }
  }

  lemma {:induction false} ValueBelow(s: string)
    ensures Value(s) < Pow16(|s|)
    decreases |s|
  {
    if s != "" { ValueBelow(s[..|s| - 1]); }
  }

  lemma {:induction false} LeadingZeros(k: nat, s: string)
    ensures Value(Zeros(k) + s) == Value(s)
    decreases k + |s|
  {
    var t := Zeros(k) + s;
    if s != "" {
      assert t[..|t| - 1] == Zeros(k) + s[..|s| - 1];
      LeadingZeros(k, s[..|s| - 1]);
    } else if k > 0 {
      assert t[..|t| - 1] == Zeros(k - 1) + s;
      LeadingZeros(k - 1, s);
    } else {
      assert t == "";
    }
  }

  lemma {:induction false} AllDigits(s: string)
    requires forall i | 0 <= i < |s| :: DigitOf(s[i]).Some?
    ensures Digits(s) == s
    decreases |s|
  {
    if s != "" { AllDigits(s[1..]); }
  }

  lemma {:induction false} TokenPrinted(id: Id)
    ensures Printed(Token(id)) && Value(Token(id)) == id
  {
    hide Hex, Value, Pow16, Zeros, DigitOf;
    HexValue(id);
    Pow16At16();
    HexLength(id, WIDTH);
    LeadingZeros(WIDTH - |Hex(id)|, Hex(id));
    assert Zeros(0) + Hex(id) == Hex(id);
  }

  lemma {:induction false} ParsePrinted(s: string)
    requires Printed(s)
    ensures Value(s) < TWO64 && Parse(s) == Some(Value(s))
  {
    Pow16At16();
    ValueBelow(s);
    AllDigits(s);
  }

  lemma {:induction false} LastDigit(m: nat, c: char, n: nat, d: char)
    requires LowerHex(c) && LowerHex(d) && m * 16 + DigitOf(c).value == n * 16 + DigitOf(d).value
    ensures m == n && c == d
  {
  }

  /** Digits of the same number and length are the same digits. */
  lemma {:induction false} ValueInjective(s: string, t: string)
    requires |s| == |t| && (forall i | 0 <= i < |s| :: LowerHex(s[i])) && (forall i | 0 <= i < |t| :: LowerHex(t[i]))
    requires Value(s) == Value(t)
    ensures s == t
    decreases |s|
  {
    if s != "" {
      var a, c, b, d := s[..|s| - 1], s[|s| - 1], t[..|t| - 1], t[|t| - 1];
      assert LowerHex(c) && LowerHex(d);
      LastDigit(Value(a), c, Value(b), d);
      hide Value;
      ValueInjective(a, b);
      assert s == a + [c] && t == b + [d];
    }
  }

  lemma {:induction false} SamePrefix(token: string)
    ensures ClientPath(token) == TRANSACTIONS + token
  {
    assert CLIENT_PREFIX + "/configuration/transactions/" == TRANSACTIONS;
    assert CLIENT_PREFIX + ("/configuration/transactions/" + token) == CLIENT_PREFIX + "/configuration/transactions/" + token;
  }

  /** For every id, the printed token parses back to it, and the client's path is the daemon's. */
  lemma {:induction false} TokenRoundTrip(id: Id)
    ensures Parse(Token(id)) == Some(id)
    ensures ClientPath(Token(id)) == ObjectPath(id)
    ensures ObjectPath(id) == "/info/griwes/nonsense/configuration/transactions/" + Token(id)
  {
    hide Token, Parse, Printed;
    SamePrefix(Token(id));
    TokenPrinted(id);
    ParsePrinted(Token(id));
  }

  /** The printed texts are exactly the sixteen-digit ones: parsing such a text and printing gives it back. */
  lemma {:induction false} PrintedRoundTrip(s: string)
    ensures Printed(s) <==> exists id: Id :: Token(id) == s
    ensures Printed(s) ==> Parse(s).Some? && Token(Parse(s).value) == s
  {
    if Printed(s) {
      ParsePrinted(s);
      TokenPrinted(Value(s));
      ValueInjective(Token(Value(s)), s);
    }
    if id: Id :| Token(id) == s { TokenPrinted(id); }
  }

  /** Transactions have different paths exactly when they have different ids. */
  lemma {:induction false} PathsDistinct(a: Id, b: Id)
    ensures ObjectPath(a) == ObjectPath(b) <==> a == b
  {
    if ObjectPath(a) == ObjectPath(b) {
      assert ObjectPath(a)[|TRANSACTIONS|..] == Token(a) && ObjectPath(b)[|TRANSACTIONS|..] == Token(b);
      TokenRoundTrip(a);
      TokenRoundTrip(b);
    }
  }

  // ----- Any text ----------------------------------------------------------

  /** The place of a character among the digits, in either case. */
  ghost predicate IsDigit(c: char, d: nat)
  {
    d < 16 && (c == "0123456789abcdef"[d] || c == "0123456789ABCDEF"[d])
  }

  lemma {:induction false} DigitMeans(c: char)
    ensures forall d: nat :: DigitOf(c) == Some(d) <==> IsDigit(c, d)
  {
  }

  /** The value of a text of digits, from its last digit. */
  lemma {:induction false} ValueMeans(s: string, c: char, d: nat)
    requires IsDigit(c, d)
    ensures Value("") == 0 && Value(s + [c]) == 16 * Value(s) + d
  {
    DigitMeans(c);
    assert (s + [c])[..|s|] == s;
  }

  lemma {:induction false} SpacesSkipped(spaces: string, s: string)
    requires (forall i | 0 <= i < |spaces| :: IsSpace(spaces[i])) && (s == "" || !IsSpace(s[0]))
    ensures SkipSpaces(spaces + s) == s
    decreases |spaces|
  {
    if spaces == "" {
      assert spaces + s == s;
    } else {
      assert (spaces + s)[0] == spaces[0] && (spaces + s)[1..] == spaces[1..] + s;
      SpacesSkipped(spaces[1..], s);
    }
  }

  lemma {:induction false} DigitsRead(digits: string, rest: string)
    requires forall i | 0 <= i < |digits| :: DigitOf(digits[i]).Some?
    requires rest == "" || DigitOf(rest[0]).None?
    ensures Digits(digits + rest) == digits
    decreases |digits|
  {
    if digits == "" {
      assert digits + rest == rest;
    } else {
      assert (digits + rest)[0] == digits[0] && (digits + rest)[1..] == digits[1..] + rest;
      DigitsRead(digits[1..], rest);
    }
  }

  ghost predicate StartsWithBase(s: string)
  {
    |s| >= 2 && s[0] == '0' && (s[1] == 'x' || s[1] == 'X')
  }

  /**
    What is read from any text: white space, a sign and `0x` are skipped, digits are read as far as
    they go, and the stream fails if there is none or they do not fit into 64 bits.
   */
  lemma {:induction false} ParseExact(spaces: string, sign: string, base: string, digits: string, rest: string)
    requires forall i | 0 <= i < |spaces| :: IsSpace(spaces[i])
    requires sign in {"", "+", "-"} && base in {"", "0x", "0X"}
    requires forall i | 0 <= i < |digits| :: DigitOf(digits[i]).Some?
    requires rest == "" || DigitOf(rest[0]).None?
    requires digits != "" || base != "" || sign != "" || rest == "" || !(IsSpace(rest[0]) || rest[0] == '+' || rest[0] == '-')
    requires base == "" ==> !StartsWithBase(digits + rest)
    ensures Parse(spaces + (sign + (base + (digits + rest)))) ==
            if digits == "" || Value(digits) >= TWO64 then None
            else if sign == "-" then Some((TWO64 - Value(digits)) % TWO64)
            else Some(Value(digits))
  {
    var tail := base + (digits + rest);
    var s := sign + tail;
    FirstOfTail(base, digits, rest);
    SignSkipped(sign, tail);
    SpacesSkipped(spaces, s);
    assert SkipBase(tail) == digits + rest by {
      if base == "" { assert tail == digits + rest; } else { assert tail[2..] == digits + rest; }
    }
    DigitsRead(digits, rest);
  }

  lemma {:induction false} FirstOfTail(base: string, digits: string, rest: string)
    requires base in {"", "0x", "0X"} && (forall i | 0 <= i < |digits| :: DigitOf(digits[i]).Some?)
    ensures digits != "" || base != "" ==>
      var tail := base + (digits + rest); tail != "" && DigitOf(tail[0]).Some?
    ensures digits == "" && base == "" ==> base + (digits + rest) == rest
  {
  }

  lemma {:induction false} SignSkipped(sign: string, tail: string)
    requires sign in {"", "+", "-"}
    requires sign == "" && tail != "" ==> !IsSpace(tail[0]) && tail[0] != '+' && tail[0] != '-'
    ensures var s := sign + tail;
            && (s == "" || !IsSpace(s[0]))
            && (s != "" && s[0] == '-' <==> sign == "-")
            && (if s != "" && (s[0] == '-' || s[0] == '+') then s[1..] else s) == tail
  {
    if sign == "" { assert sign + tail == tail; } else { assert (sign + tail)[1..] == tail; }
  }
}
