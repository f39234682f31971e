/**
 * The string operations the application leans on, with the semantics of the
 * host languages: Python's `in`, `str.replace`, `str.split(sep)`, `sep.join`,
 * `str.strip()`, and JavaScript's `includes`, `split`, `join`, `trim` and a
 * global replace by a literal pattern.
 */
module Strings {

  /** Whose notion of whitespace `Strip` uses: Python's `str.isspace` or ECMAScript's `trim`. */
  datatype Host = Python | JavaScript

  /** `sub in s` (Python), `s.includes(sub)` (JavaScript). */
  predicate Contains(s: string, sub: string)
    decreases |s|
  {
    sub <= s || (|s| > 0 && Contains(s[1..], sub))
  }

  /** Searching for a one-character string is searching for that character. */
  lemma {:induction false} ContainsChar(s: string, c: char)
    ensures Contains(s, [c]) <==> c in s
    decreases |s|
  {
    if |s| > 0 {
      ContainsChar(s[1..], c);
      assert s == [s[0]] + s[1..];
    }
  }

  /** A string that contains `**` contains `*`. */
  lemma {:induction false} ContainsDoubleStarHasStar(s: string)
    requires Contains(s, "**")
    ensures '*' in s
    decreases |s|
  {
    if "**" <= s {
      assert s[0] == '*';
    } else {
      ContainsDoubleStarHasStar(s[1..]);
      assert s == [s[0]] + s[1..];
    }
  }

  /**
   * `s.replace(pat, rep)` in Python and `s.replace(/pat/g, rep)` in JavaScript
   * for a literal pattern: the occurrences of `pat` are found left to right,
   * never overlapping, and each is replaced by `rep`.
   */
  function ReplaceAll(s: string, pat: string, rep: string): string
    requires pat != []
    decreases |s|
  {
    if |s| < |pat| then s
    else if pat <= s then rep + ReplaceAll(s[|pat|..], pat, rep)
    else [s[0]] + ReplaceAll(s[1..], pat, rep)
  }

  /** Replacing a pattern that does not occur changes nothing. */
  lemma {:induction false} ReplaceAllAbsent(s: string, pat: string, rep: string)
    requires pat != [] && !Contains(s, pat)
    ensures ReplaceAll(s, pat, rep) == s
    decreases |s|
  {
    if |s| >= |pat| {
      ReplaceAllAbsent(s[1..], pat, rep);
      assert s == [s[0]] + s[1..];
    }
  }

  /** After replacing every `c` by a string free of `c`, no `c` is left. */
  lemma {:induction false} ReplaceCharRemovesIt(s: string, c: char, rep: string)
    requires c !in rep
    ensures c !in ReplaceAll(s, [c], rep)
    decreases |s|
  {
    if |s| >= 1 {
      ReplaceCharRemovesIt(s[1..], c, rep);
    }
  }

  /** Replacing a character other than `c`, by a string free of `c`, keeps every `c` and adds none. */
  lemma {:induction false} ReplaceCharKeepsOthers(s: string, c: char, d: char, rep: string)
    requires c != d && c !in rep
    ensures c in ReplaceAll(s, [d], rep) <==> c in s
    decreases |s|
  {
    if |s| >= 1 {
      ReplaceCharKeepsOthers(s[1..], c, d, rep);
      assert s == [s[0]] + s[1..];
    }
  }

  /**
   * Removing every `**` leaves no `**` behind, although a lone `*` may
   * survive (`"***x***"` becomes `"*x*"`).
   */
  lemma {:induction false} RemoveDoubleStars(s: string)
    ensures !Contains(ReplaceAll(s, "**", ""), "**")
    ensures |s| > 0 && s[0] != '*' ==> ReplaceAll(s, "**", "") == [s[0]] + ReplaceAll(s[1..], "**", "")
    decreases |s|
  {
    var r := ReplaceAll(s, "**", "");
    if |s| < 2 {
      if |s| == 1 {
        assert r == s;
        assert !("**" <= r[1..]);
      }
    } else if "**" <= s {
      RemoveDoubleStars(s[2..]);
      assert r == ReplaceAll(s[2..], "**", "");
    } else {
      var t := s[1..];
      RemoveDoubleStars(t);
      assert r == [s[0]] + ReplaceAll(t, "**", "");
      assert r[1..] == ReplaceAll(t, "**", "");
      if s[0] == '*' {
        // s[1] is not a star, so the rest of the result starts with s[1]
        assert t[0] != '*';
        if |t| >= 2 {
          assert ReplaceAll(t, "**", "")[0] == t[0];
        } else {
          assert ReplaceAll(t, "**", "") == t;
        }
      }
    }
  }

  /**
   * `s.split(sep)` for a one-character separator, in Python and in
   * JavaScript: every field is kept, including empty ones, so the result is
   * never empty (`"".split(sep) == [""]`) and no field holds the separator.
   */
  function Split(s: string, sep: char): (fields: seq<string>)
    ensures |fields| >= 1
    ensures forall i :: 0 <= i < |fields| ==> sep !in fields[i]
    decreases |s|
  {
    if s == [] then [""]
    else
      var rest := Split(s[1..], sep);
      if s[0] == sep then [""] + rest
      else [[s[0]] + rest[0]] + rest[1..]
  }

  /** `sep.join(parts)` (Python), `parts.join(sep)` (JavaScript). */
  function Join(parts: seq<string>, sep: string): string
    decreases |parts|
  {
    if |parts| == 0 then ""
    else if |parts| == 1 then parts[0]
    else parts[0] + sep + Join(parts[1..], sep)
  }

  lemma {:induction false} JoinSnoc(parts: seq<string>, last: string, sep: string)
    requires |parts| > 0
    ensures Join(parts + [last], sep) == Join(parts, sep) + sep + last
    decreases |parts|
  {
    if |parts| == 1 {
      assert parts + [last] == [parts[0], last];
    } else {
      assert (parts + [last])[1..] == parts[1..] + [last];
      JoinSnoc(parts[1..], last, sep);
    }
  }

  /**
   * Splitting on `c` and joining with `sep` is replacing every `c` by `sep`;
   * for instance the history's `', '.join(field.split(","))` puts a space
   * after every comma of the field.
   */
  lemma {:induction false} JoinOfSplit(s: string, c: char, sep: string)
    ensures Join(Split(s, c), sep) == ReplaceAll(s, [c], sep)
    decreases |s|
  {
    if s != [] {
      var rest := Split(s[1..], c);
      JoinOfSplit(s[1..], c, sep);
      if s[0] == c {
        assert [c] <= s;
        assert ([""] + rest)[1..] == rest;
      } else {
        assert !([c] <= s);
        var parts := [[s[0]] + rest[0]] + rest[1..];
        if |rest| == 1 {
          assert parts == [[s[0]] + rest[0]];
        } else {
          assert parts[1..] == rest[1..];
          assert Join(rest, sep) == rest[0] + sep + Join(rest[1..], sep);
        }
      }
    }
  }

  /** Joining the fields of a split with the same separator gives the string back. */
  lemma JoinSplitRoundTrip(s: string, c: char)
    ensures Join(Split(s, c), [c]) == s
  {
    JoinOfSplit(s, c, [c]);
    ReplaceSelf(s, c);
  }

  lemma {:induction false} ReplaceSelf(s: string, c: char)
    ensures ReplaceAll(s, [c], [c]) == s
    decreases |s|
  {
    if |s| > 0 {
      ReplaceSelf(s[1..], c);
      assert s == [s[0]] + s[1..];
    }
  }

  /** A string without the separator is a field of its own. */
  lemma SingleField(w: string, c: char)
    requires c !in w
    ensures Split(w, c) == [w]
  {
    assert w == w + "";
    SplitPrefix(w, "", c);
    assert Split("", c) == [""];
  }

  /** A prefix free of the separator extends the first field. */
  lemma {:induction false} SplitPrefix(p: string, t: string, c: char)
    requires c !in p
    ensures Split(p + t, c) == [p + Split(t, c)[0]] + Split(t, c)[1..]
    decreases |p|
  {
    if p != [] {
      var st := Split(t, c);
      assert (p + t)[0] == p[0] && (p + t)[1..] == p[1..] + t;
      SplitPrefix(p[1..], t, c);
      var rest := Split(p[1..] + t, c);
      assert rest == [p[1..] + st[0]] + st[1..];
      assert rest[0] == p[1..] + st[0] && rest[1..] == st[1..];
      assert p[0] in p;
      assert (p + t) != [] && (p + t)[0] != c;
      assert Split(p + t, c) == [[p[0]] + rest[0]] + rest[1..];
      assert [p[0]] + (p[1..] + st[0]) == p + st[0];
      assert Split(p + t, c) == [p + st[0]] + st[1..];
    } else {
      var st := Split(t, c);
      assert p + t == t && p + st[0] == st[0];
      assert [st[0]] + st[1..] == st;
    }
  }

  /** Splitting a join of separator-free fields gives the fields back. */
  lemma {:induction false} SplitJoinRoundTrip(parts: seq<string>, c: char)
    requires |parts| > 0
    requires forall i :: 0 <= i < |parts| ==> c !in parts[i]
    ensures Split(Join(parts, [c]), c) == parts
    decreases |parts|
  {
    if |parts| == 1 {
      SplitPrefix(parts[0], "", c);
      assert parts[0] + "" == parts[0];
    } else {
      SplitJoinRoundTrip(parts[1..], c);
      var tail := Join(parts[1..], [c]);
      assert Join(parts, [c]) == parts[0] + ([c] + tail);
      SplitPrefix(parts[0], [c] + tail, c);
      assert ([c] + tail)[0] == c && ([c] + tail)[1..] == tail;
      var st := Split([c] + tail, c);
      assert st == [""] + parts[1..];
      assert st[0] == "" && st[1..] == parts[1..];
      assert parts[0] + "" == parts[0];
      assert [parts[0]] + parts[1..] == parts;
    }
  }

  /** The whitespace `str.strip()` (Python) or `String.prototype.trim` (ECMAScript) removes. */
  predicate IsSpace(c: char, host: Host)
  {
    || c == '\t' || c == '\n' || c == '\U{000B}' || c == '\U{000C}' || c == '\r' || c == ' '
    || c == '\U{00A0}' || c == '\U{1680}' || ('\U{2000}' <= c <= '\U{200A}')
    || c == '\U{2028}' || c == '\U{2029}' || c == '\U{202F}' || c == '\U{205F}' || c == '\U{3000}'
    || (host == Python && (('\U{001C}' <= c <= '\U{001F}') || c == '\U{0085}'))
    || (host == JavaScript && c == '\U{FEFF}')
  }

  function StripLeft(s: string, host: Host): string
    decreases |s|
  {
    if |s| > 0 && IsSpace(s[0], host) then StripLeft(s[1..], host) else s
  }

  function StripRight(s: string, host: Host): string
    decreases |s|
  {
    if |s| > 0 && IsSpace(s[|s| - 1], host) then StripRight(s[..|s| - 1], host) else s
  }

  /** `s.strip()` (Python), `s.trim()` (JavaScript). */
  function Strip(s: string, host: Host): string
  {
    StripRight(StripLeft(s, host), host)
  }

  /** Neither starts nor ends with whitespace. */
  predicate Trimmed(s: string, host: Host)
  {
    s == [] || (!IsSpace(s[0], host) && !IsSpace(s[|s| - 1], host))
  }

  predicate Blank(s: string, host: Host)
  {
    forall i :: 0 <= i < |s| ==> IsSpace(s[i], host)
  }

  lemma {:induction false} StripLeftFacts(s: string, host: Host)
    ensures var r := StripLeft(s, host);
      && (r == [] <==> Blank(s, host))
      && (r != [] ==> !IsSpace(r[0], host))
      && (Blank(s, host) || r[|r| - 1] == s[|s| - 1])
      && (|s| > 0 && !IsSpace(s[0], host) ==> r == s)
    decreases |s|
  {
    if |s| > 0 && IsSpace(s[0], host) {
      StripLeftFacts(s[1..], host);
      assert Blank(s[1..], host) <==> Blank(s, host) by {
        if Blank(s[1..], host) {
          forall i | 0 <= i < |s| ensures IsSpace(s[i], host) {
            if i > 0 { assert s[i] == s[1..][i - 1]; }
          }
        }
      }
    }
  }

  lemma {:induction false} StripRightFacts(s: string, host: Host)
    ensures var r := StripRight(s, host);
      && (r == [] <==> Blank(s, host))
      && (r != [] ==> !IsSpace(r[|r| - 1], host))
      && (r != [] ==> r[0] == s[0])
      && (|s| > 0 && !IsSpace(s[|s| - 1], host) ==> r == s)
    decreases |s|
  {
    if |s| > 0 && IsSpace(s[|s| - 1], host) {
      var init := s[..|s| - 1];
      StripRightFacts(init, host);
      assert Blank(init, host) <==> Blank(s, host) by {
        if Blank(init, host) {
          forall i | 0 <= i < |s| ensures IsSpace(s[i], host) {
            if i < |s| - 1 { assert s[i] == init[i]; }
          }
        }
      }
    }
  }

  /**
   * What stripping promises: the result is empty exactly when the input is
   * all whitespace, it neither starts nor ends with whitespace, and a string
   * that already has that shape is left alone.
   */
  lemma StripFacts(s: string, host: Host)
    ensures Strip(s, host) == [] <==> Blank(s, host)
    ensures Trimmed(Strip(s, host), host)
    ensures Trimmed(s, host) ==> Strip(s, host) == s
  {
    var l := StripLeft(s, host);
    StripLeftFacts(s, host);
    StripRightFacts(l, host);
    if Trimmed(s, host) && s != [] {
      assert l == s;
    }
  }

  /** The character of one decimal digit. */
  function DigitChar(d: nat): char
    requires d < 10
  {
    "0123456789"[d]
  }

  predicate IsDigit(c: char)
  {
    '0' <= c <= '9'
  }

  /** The decimal digits of a natural number, most significant first, without leading zeros. */
  function Digits(n: nat): (r: string)
    ensures |r| >= 1 && forall i :: 0 <= i < |r| ==> IsDigit(r[i])
    ensures n >= 10 ==> r[0] != '0'
    decreases n
  {
    if n < 10 then [DigitChar(n)] else Digits(n / 10) + [DigitChar(n % 10)]
  }

  /** `str(n)` for a Python `int`, and so the `{n}` of an f-string. */
  function DecimalString(n: int): (r: string)
    ensures |r| >= 1
    ensures r[0] == '-' <==> n < 0
    ensures n >= 0 ==> IsDigit(r[0])
    ensures forall i :: 0 < i < |r| ==> IsDigit(r[i])
  {
    if n < 0 then "-" + Digits(-n) else Digits(n)
  }

  /** The number a string of decimal digits denotes: the reading `Digits` is checked against. */
  function DigitsValue(s: string): nat
    requires forall i :: 0 <= i < |s| ==> IsDigit(s[i])
    decreases |s|
  {
    if s == [] then 0
    else assert IsDigit(s[|s| - 1]); 10 * DigitsValue(s[..|s| - 1]) + (s[|s| - 1] as int - '0' as int)
  }

  /** Reading back the digits of `n` gives `n`. */
  lemma {:induction false} DigitsRoundTrip(n: nat)
    ensures DigitsValue(Digits(n)) == n
    decreases n
  {
    if n >= 10 {
      var r := Digits(n);
      DigitsRoundTrip(n / 10);
      assert r[..|r| - 1] == Digits(n / 10);
    }
  }

  /** Reading back `str(n)`, minus sign and digits, gives `n`. */
  lemma DecimalRoundTrip(n: int)
    ensures var r := DecimalString(n);
      if r[0] == '-' then n == -(DigitsValue(r[1..]) as int) else DigitsValue(r) == n
  {
    if n < 0 {
      DigitsRoundTrip(-n);
      assert DecimalString(n)[1..] == Digits(-n);
    } else {
      DigitsRoundTrip(n);
    }
  }

  /** Stripping only removes characters: one absent before is absent after. */
  lemma StripKeepsOut(s: string, host: Host, c: char)
    requires c !in s
    ensures c !in Strip(s, host)
  {
    StripLeftIsSuffix(s, host);
    StripRightIsPrefix(StripLeft(s, host), host);
  }

  lemma {:induction false} StripLeftIsSuffix(s: string, host: Host)
    ensures exists k :: 0 <= k <= |s| && StripLeft(s, host) == s[k..]
    decreases |s|
  {
    if |s| > 0 && IsSpace(s[0], host) {
      StripLeftIsSuffix(s[1..], host);
      var k :| 0 <= k <= |s[1..]| && StripLeft(s[1..], host) == s[1..][k..];
      assert s[1..][k..] == s[k + 1..];
    } else {
      assert s[0..] == s;
    }
  }

  lemma {:induction false} StripRightIsPrefix(s: string, host: Host)
    ensures exists k :: 0 <= k <= |s| && StripRight(s, host) == s[..k]
    decreases |s|
  {
    if |s| > 0 && IsSpace(s[|s| - 1], host) {
      StripRightIsPrefix(s[..|s| - 1], host);
      var k :| 0 <= k <= |s| - 1 && StripRight(s[..|s| - 1], host) == s[..|s| - 1][..k];
      assert s[..|s| - 1][..k] == s[..k];
    } else {
      assert s[..|s|] == s;
    }
  }

  /** Two strings that differ at a position within both are not extended one by the other. */
  lemma NotPrefixOfExtension(p: string, q: string, rest: string, i: nat)
    requires i < |p| && i < |q| && p[i] != q[i]
    ensures !(p <= q + rest)
  {
    assert (q + rest)[i] == q[i];
  }
}
