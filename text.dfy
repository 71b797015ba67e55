/** String helpers with the JavaScript meaning the storefront relies on:
    `toLowerCase`/`toUpperCase` (ASCII letters only), `includes`,
    `split` on one character, `join`, the "first letter upper-cased" idiom
    `s.charAt(0).toUpperCase() + s.slice(1)`, decimal rendering of a
    natural number (template literals such as `org_${Date.now()}`) and
    `parseInt` of a decimal string. */
module Text {
  import opened Wrappers

  function LowerChar(c: char): char {
    if 'A' <= c <= 'Z' then (c as int + 32) as char else c
  }

  function UpperChar(c: char): char {
    if 'a' <= c <= 'z' then (c as int - 32) as char else c
  }

  /** `s.toLowerCase()`, on ASCII letters. */
  function ToLower(s: string): (r: string)
    ensures |r| == |s|
    ensures forall i :: 0 <= i < |s| ==> r[i] == LowerChar(s[i])
  {
    seq(|s|, i requires 0 <= i < |s| => LowerChar(s[i]))
  }

  /** Lowercasing twice is lowercasing once. */
  lemma ToLowerIdempotent(s: string)
    ensures ToLower(ToLower(s)) == ToLower(s)
  {
  }

  /** The UTF-16 code units of `c`: two for a character outside the Basic
      Multilingual Plane, which JavaScript stores as a surrogate pair, one
      otherwise. */
  function Utf16Units(c: char): (n: nat)
    ensures n == 1 || n == 2
    ensures n == 2 <==> c as int >= 0x10000
  {
    if c as int >= 0x10000 then 2 else 1
  }

  /** `s.length`, which counts UTF-16 code units rather than characters;
      zod's `.min(n)` and `.max(n)` on a string compare this length. */
  function Utf16Length(s: string): (n: nat)
    ensures |s| <= n <= 2 * |s|
    ensures n == 0 <==> s == ""
  {
    if s == "" then 0 else Utf16Units(s[0]) + Utf16Length(s[1..])
  }

  /** The length of a concatenation is the sum of the lengths. */
  lemma {:induction false} Utf16LengthAppend(a: string, b: string)
    ensures Utf16Length(a + b) == Utf16Length(a) + Utf16Length(b)
  {
    if a != "" {
      assert (a + b)[0] == a[0] && (a + b)[1..] == a[1..] + b;
      Utf16LengthAppend(a[1..], b);
    } else {
      assert a + b == b;
    }
  }

  /** On text inside the Basic Multilingual Plane (all of ASCII, for one)
      the JavaScript length is the number of characters. */
  lemma {:induction false} Utf16LengthInBmp(s: string)
    requires forall i :: 0 <= i < |s| ==> s[i] as int < 0x10000
    ensures Utf16Length(s) == |s|
  {
    if s != "" {
      Utf16LengthInBmp(s[1..]);
    }
  }

  /** Each emoji outside the Basic Multilingual Plane counts twice: four of
      them make a JavaScript string of length 8. */
  lemma FourEmoji()
    ensures |"\U{1F600}\U{1F600}\U{1F600}\U{1F600}"| == 4
    ensures Utf16Length("\U{1F600}\U{1F600}\U{1F600}\U{1F600}") == 8
  {
  }

  /** An emoji followed by a letter: two characters, three code units. */
  lemma EmojiThenLetter()
    ensures |"\U{1F600}a"| == 2
    ensures Utf16Length("\U{1F600}a") == 3
  {
  }

  /** `s.includes(sub)`: `sub` occurs somewhere in `s` as a contiguous block. */
  predicate Includes(s: string, sub: string)
  {
    sub <= s || (|s| > 0 && Includes(s[1..], sub))
  }

  /** The empty string is contained in every string (JavaScript's `''.includes`
      semantics), so an empty search term matches everything. */
  lemma EmptyIncluded(s: string)
    ensures Includes(s, "")
  {
  }

  /** A found occurrence is a genuine block of `s`, and every block is found. */
  lemma {:induction false} IncludesAt(s: string, sub: string, k: nat)
    requires k + |sub| <= |s| && s[k..k + |sub|] == sub
    ensures Includes(s, sub)
  {
    if k > 0 {
      assert s[1..][k - 1..k - 1 + |sub|] == s[k..k + |sub|];
      IncludesAt(s[1..], sub, k - 1);
    } else {
      assert sub <= s;
    }
  }

  lemma {:induction false} IncludesWitness(s: string, sub: string) returns (k: nat)
    requires Includes(s, sub)
    ensures k + |sub| <= |s| && s[k..k + |sub|] == sub
  {
    if sub <= s {
      k := 0;
    } else {
      var j := IncludesWitness(s[1..], sub);
      assert s[1..][j..j + |sub|] == s[j + 1..j + 1 + |sub|];
      k := j + 1;
    }
  }

  /** `s.charAt(0).toUpperCase() + s.slice(1)`. */
  function Capitalize(s: string): (r: string)
    ensures |r| == |s|
    ensures |s| > 0 ==> r[0] == UpperChar(s[0]) && r[1..] == s[1..]
  {
    if s == "" then "" else [UpperChar(s[0])] + s[1..]
  }

  /** `s.split(sep)` for a one-character separator: never empty; an empty
      string and adjacent separators give empty words. */
  function Split(s: string, sep: char): (words: seq<string>)
    ensures |words| >= 1
  {
    if s == "" then [""]
    else
      var rest := Split(s[1..], sep);
      if s[0] == sep then [""] + rest
      else [[s[0]] + rest[0]] + rest[1..]
  }

  /** `words.join(sep)`. */
  function Join(words: seq<string>, sep: string): string
  {
    if |words| == 0 then ""
    else if |words| == 1 then words[0]
    else words[0] + sep + Join(words[1..], sep)
  }

  /** Splitting and joining with the same separator gives the string back. */
  lemma {:induction false} JoinSplit(s: string, sep: char)
    ensures Join(Split(s, sep), [sep]) == s
  {
    if s != "" {
      var rest := Split(s[1..], sep);
      JoinSplit(s[1..], sep);
      if s[0] == sep {
        assert Split(s, sep) == [""] + rest;
        assert s == [sep] + s[1..];
      } else {
        JoinHead(s[0], rest, [sep]);
        assert s == [s[0]] + s[1..];
      }
    }
  }

  /** Prepending a character to the first word prepends it to the join. */
  lemma JoinHead(c: char, words: seq<string>, sep: string)
    requires |words| >= 1
    ensures Join([[c] + words[0]] + words[1..], sep) == [c] + Join(words, sep)
  {
    var ws := [[c] + words[0]] + words[1..];
    assert ws[1..] == words[1..];
  }

  predicate IsDigit(c: char) {
    '0' <= c <= '9'
  }

  function DigitChar(d: nat): char
    requires d < 10
  {
    ('0' as int + d) as char
  }

  /** The decimal value of a string of digits, most significant first. */
  function DigitsValue(s: string): nat
    requires forall i :: 0 <= i < |s| ==> IsDigit(s[i])
  {
    if s == "" then 0
    else
      assert IsDigit(s[|s| - 1]);
      DigitsValue(s[..|s| - 1]) * 10 + (s[|s| - 1] as int - '0' as int)
  }

  /** `String(n)` for a natural number: digits only, no leading zero. */
  function NatToString(n: nat): (r: string)
    ensures |r| >= 1
    ensures forall i :: 0 <= i < |r| ==> IsDigit(r[i])
    ensures |r| > 1 ==> r[0] != '0'
  {
    if n < 10 then [DigitChar(n)] else NatToString(n / 10) + [DigitChar(n % 10)]
  }

  /** `String(i)` for an integer. */
  function IntToString(i: int): (r: string)
    ensures i >= 0 ==> r == NatToString(i)
    ensures i < 0 ==> r == "-" + NatToString(-i)
  {
    if i >= 0 then NatToString(i) else "-" + NatToString(-i)
  }

  lemma {:induction false} DigitsValueNatToString(n: nat)
    ensures DigitsValue(NatToString(n)) == n
  {
    var r := NatToString(n);
    if n >= 10 {
      DigitsValueNatToString(n / 10);
      assert r[..|r| - 1] == NatToString(n / 10);
    }
  }

  /** Different numbers render differently, so generated identifiers such as
      `order_${Date.now()}` differ whenever their timestamps do. */
  lemma NatToStringInjective(m: nat, n: nat)
    requires NatToString(m) == NatToString(n)
    ensures m == n
  {
    DigitsValueNatToString(m);
    DigitsValueNatToString(n);
  }

  /** The characters `parseInt` trims: ECMAScript's white space (tab,
      vertical tab, form feed, no-break space, byte order mark and the
      space separators) and its line terminators. */
  predicate IsSpace(c: char) {
    c == '\t' || c == '\U{000B}' || c == '\U{000C}' || c == ' ' || c == '\U{00A0}' ||
    c == '\U{FEFF}' || c == '\U{1680}' || ('\U{2000}' <= c <= '\U{200A}') ||
    c == '\U{202F}' || c == '\U{205F}' || c == '\U{3000}' ||
    c == '\n' || c == '\r' || c == '\U{2028}' || c == '\U{2029}'
  }

  function TrimStart(s: string): (r: string)
    ensures |r| <= |s|
    ensures r == s[|s| - |r|..] && (r == "" || !IsSpace(r[0]))
  {
    if s != "" && IsSpace(s[0]) then TrimStart(s[1..]) else s
  }

  /** The longest prefix of `s` made of digits. */
  function DigitPrefix(s: string): (r: string)
    ensures r <= s
    ensures forall i :: 0 <= i < |r| ==> IsDigit(r[i])
    ensures |r| == |s| || !IsDigit(s[|r|])
  {
    if s != "" && IsDigit(s[0]) then [s[0]] + DigitPrefix(s[1..]) else ""
  }

  /** `parseInt(s, 10)`: leading white space is skipped, an optional sign is
      read, then the longest run of digits; `None` stands for `NaN`, which
      `parseInt` returns when no digit follows. */
  function ParseInt(s: string): (r: Option<int>)
  {
    var t := TrimStart(s);
    var negative := t != "" && t[0] == '-';
    var body := if t != "" && (t[0] == '-' || t[0] == '+') then t[1..] else t;
    var digits := DigitPrefix(body);
    var value: int := DigitsValue(digits);
    if digits == "" then None
    else if negative then Some(-value)
    else Some(value)
  }

  lemma {:induction false} DigitPrefixAllDigits(s: string)
    requires forall i :: 0 <= i < |s| ==> IsDigit(s[i])
    ensures DigitPrefix(s) == s
  {
    if s != "" {
      DigitPrefixAllDigits(s[1..]);
    }
  }

  /** Text starting with a digit is read as its leading run of digits. */
  lemma ParseIntUnsigned(t: string)
    requires t != "" && IsDigit(t[0])
    ensures ParseInt(t) == Some(DigitsValue(DigitPrefix(t)))
  {
    assert !IsSpace(t[0]) && t[0] != '-' && t[0] != '+';
    assert TrimStart(t) == t;
    assert DigitPrefix(t) == [t[0]] + DigitPrefix(t[1..]);
  }

  /** `parseInt` reads back what `String` wrote. */
  lemma ParseIntNatToString(n: nat)
    ensures ParseInt(NatToString(n)) == Some(n)
  {
    var s := NatToString(n);
    ParseIntUnsigned(s);
    DigitPrefixAllDigits(s);
    DigitsValueNatToString(n);
  }

  /** Text after the digits is ignored: `parseInt("12abc")` is 12. */
  lemma ParseIntIgnoresSuffix(n: nat, rest: string)
    requires rest == "" || !IsDigit(rest[0])
    ensures ParseInt(NatToString(n) + rest) == Some(n)
  {
    var s := NatToString(n);
    var t := s + rest;
    assert t[0] == s[0];
    ParseIntUnsigned(t);
    DigitPrefixConcat(s, rest);
    DigitsValueNatToString(n);
  }

  lemma {:induction false} DigitPrefixConcat(s: string, rest: string)
    requires forall i :: 0 <= i < |s| ==> IsDigit(s[i])
    requires rest == "" || !IsDigit(rest[0])
    ensures DigitPrefix(s + rest) == s
  {
    if s == "" {
      assert s + rest == rest;
    } else {
      assert (s + rest)[1..] == s[1..] + rest;
      DigitPrefixConcat(s[1..], rest);
    }
  }
}
