/**
 * The JavaScript string operations the bot relies on, with their JavaScript
 * semantics written out: `indexOf` of a character, `substring` with its
 * clamping and swapping of bounds, `split(' ')`, `join(' ')`, `trim()`,
 * `replace(/ /g, '%20')` and `toUpperCase()` (ASCII letters only).
 * A string is a sequence of Unicode scalar values.
 */
module JsStrings {

  /** The WhiteSpace and LineTerminator code points, which `String.prototype.trim` removes. */
  predicate IsJsWhitespace(c: char)
  {
    || c == '\t' || c == '\n' || c == '\U{000B}' || c == '\U{000C}' || c == '\r' || c == ' '
    || c == '\U{00A0}' || c == '\U{1680}' || ('\U{2000}' <= c <= '\U{200A}')
    || c == '\U{2028}' || c == '\U{2029}' || c == '\U{202F}' || c == '\U{205F}'
    || c == '\U{3000}' || c == '\U{FEFF}'
  }

  /** `s.indexOf(p) == 0`: `p` is a prefix of `s`. */
  predicate StartsWith(s: string, p: string)
  {
    |p| <= |s| && s[..|p|] == p
  }

  /** `s.indexOf(c)`: the first position of `c` in `s`, or -1 when there is none. */
  function IndexOf(s: string, c: char): (i: int)
    ensures -1 <= i < |s|
    ensures i == -1 <==> c !in s
    ensures 0 <= i ==> s[i] == c && c !in s[..i]
  {
    if |s| == 0 then -1
    else if s[0] == c then 0
    else
      var j := IndexOf(s[1..], c);
      if j == -1 then -1
      else
        assert s[..j + 1] == [s[0]] + s[1..][..j];
        j + 1
  }

  /** The first `c` of `a + [c] + b` is the one after `a` when `a` holds none. */
  lemma {:induction false} IndexOfAfter(a: string, c: char, b: string)
    requires c !in a
    ensures IndexOf(a + [c] + b, c) == |a|
  {
    if a != [] {
      assert (a + [c] + b)[1..] == a[1..] + [c] + b;
      IndexOfAfter(a[1..], c, b);
    }
  }

  /** JavaScript clamps a `substring` bound into `0..|s|`. */
  function Clamp(x: int, n: nat): (r: nat)
    ensures r <= n
    ensures 0 <= x <= n ==> r == x
  {
    if x < 0 then 0 else if x > n then n else x
  }

  /**
   * `s.substring(start, end)`: both bounds are clamped into range and, when
   * the first exceeds the second, they are swapped.
   */
  function Substring(s: string, start: int, end: int): (r: string)
    ensures |r| <= |s|
    ensures 0 <= start <= end <= |s| ==> r == s[start..end]
    ensures 0 <= end <= start <= |s| ==> r == s[end..start]
    ensures start <= 0 && end <= 0 ==> r == ""
  {
    var a := Clamp(start, |s|);
    var b := Clamp(end, |s|);
    if a <= b then s[a..b] else s[b..a]
  }

  /** `parts.join(sep)` for a one-character separator. */
  function Join(parts: seq<string>, sep: char): string
  {
    if |parts| == 0 then ""
    else if |parts| == 1 then parts[0]
    else parts[0] + [sep] + Join(parts[1..], sep)
  }

  /** Appending one part to a non-empty list adds the separator and the part. */
  lemma {:induction false} JoinSnoc(parts: seq<string>, last: string, sep: char)
    requires |parts| >= 1
    ensures Join(parts + [last], sep) == Join(parts, sep) + [sep] + last
  {
    if |parts| > 1 {
      assert (parts + [last])[1..] == parts[1..] + [last];
      JoinSnoc(parts[1..], last, sep);
    } else {
      assert (parts + [last])[1..] == [last];
    }
  }

  /**
   * `s.split(sep)`: the pieces between the separators, empty ones included;
   * there is always at least one piece, no piece holds the separator, and
   * joining the pieces gives back `s`.
   */
  function Split(s: string, sep: char): (parts: seq<string>)
    ensures |parts| >= 1
    ensures forall i :: 0 <= i < |parts| ==> sep !in parts[i]
    ensures Join(parts, sep) == s
    decreases |s|
  {
    var i := IndexOf(s, sep);
    if i == -1 then [s]
    else
      var rest := Split(s[i + 1..], sep);
      SplitStep(s, sep, i, rest);
      [s[..i]] + rest
  }

  /** The first piece, up to the first separator, put before the pieces of the rest. */
  lemma SplitStep(s: string, sep: char, i: nat, rest: seq<string>)
    requires i < |s| && s[i] == sep && sep !in s[..i]
    requires |rest| >= 1 && Join(rest, sep) == s[i + 1..]
    requires forall j :: 0 <= j < |rest| ==> sep !in rest[j]
    ensures forall j :: 0 <= j < |[s[..i]] + rest| ==> sep !in ([s[..i]] + rest)[j]
    ensures Join([s[..i]] + rest, sep) == s
  {
    var parts := [s[..i]] + rest;
    forall j | 0 <= j < |parts| ensures sep !in parts[j] {
      if j > 0 { assert parts[j] == rest[j - 1]; }
    }
    JoinCons(s[..i], rest, sep);
    assert s == s[..i] + [sep] + s[i + 1..];
  }

  /** Joining a first part before at least one more puts the separator between them. */
  lemma JoinCons(head: string, rest: seq<string>, sep: char)
    requires |rest| >= 1
    ensures Join([head] + rest, sep) == head + [sep] + Join(rest, sep)
  {
    assert ([head] + rest)[1..] == rest;
  }

  /** Splitting undoes joining when no part holds the separator. */
  lemma {:induction false} SplitJoin(parts: seq<string>, sep: char)
    requires |parts| >= 1
    requires forall i :: 0 <= i < |parts| ==> sep !in parts[i]
    ensures Split(Join(parts, sep), sep) == parts
    decreases |parts|
  {
    if |parts| > 1 {
      var head, tail := parts[0], parts[1..];
      assert forall i :: 0 <= i < |tail| ==> sep !in tail[i] by {
        forall i | 0 <= i < |tail| ensures sep !in tail[i] {
          assert tail[i] == parts[i + 1];
        }
      }
      var rest := Join(tail, sep);
      var s := head + [sep] + rest;
      assert Join(parts, sep) == s;
      IndexOfAfter(head, sep, rest);
      assert s[..|head|] == head;
      assert s[|head| + 1..] == rest;
      SplitJoin(tail, sep);
      assert Split(s, sep) == [head] + tail;
      assert parts == [head] + tail;
    } else {
      assert sep !in parts[0];
    }
  }

  /** `s` with its leading JavaScript whitespace removed. */
  function TrimStart(s: string): (r: string)
    ensures |r| <= |s| && r == s[|s| - |r|..]
    ensures forall i :: 0 <= i < |s| - |r| ==> IsJsWhitespace(s[i])
    ensures r == [] || !IsJsWhitespace(r[0])
  {
    if s != [] && IsJsWhitespace(s[0]) then TrimStart(s[1..]) else s
  }

  /** `s` with its trailing JavaScript whitespace removed. */
  function TrimEnd(s: string): (r: string)
    ensures |r| <= |s| && r == s[..|r|]
    ensures forall i :: |r| <= i < |s| ==> IsJsWhitespace(s[i])
    ensures r == [] || !IsJsWhitespace(r[|r| - 1])
  {
    if s != [] && IsJsWhitespace(s[|s| - 1]) then TrimEnd(s[..|s| - 1]) else s
  }

  /**
   * `s.trim()`: the infix of `s` that remains after dropping whitespace at
   * both ends; whitespace inside it is kept.
   */
  function Trim(s: string): (r: string)
    ensures |r| <= |TrimStart(s)| <= |s|
    ensures r == [] || (!IsJsWhitespace(r[0]) && !IsJsWhitespace(r[|r| - 1]))
    ensures r == TrimStart(s)[..|r|]
    ensures forall i :: |r| <= i < |TrimStart(s)| ==> IsJsWhitespace(TrimStart(s)[i])
  {
    var t := TrimStart(s);
    var r := TrimEnd(t);
    assert r != [] ==> r[0] == t[0];
    r
  }

  /** A string with no whitespace at either end is its own trim. */
  lemma TrimOfTrimmed(s: string)
    requires s == [] || (!IsJsWhitespace(s[0]) && !IsJsWhitespace(s[|s| - 1]))
    ensures Trim(s) == s
  {
  }

  /** Trimming is idempotent. */
  lemma TrimIdempotent(s: string)
    ensures Trim(Trim(s)) == Trim(s)
  {
    TrimOfTrimmed(Trim(s));
  }

  /** A leading space disappears under trimming. */
  lemma TrimLeadingSpace(s: string)
    ensures Trim([' '] + s) == Trim(s)
  {
    assert ([' '] + s)[1..] == s;
  }

  /** The link-safe form of a handle: `s.replace(/ /g, '%20')`. */
  function EncodeSpaces(s: string): (r: string)
    ensures ' ' !in r
  {
    if s == [] then ""
    else (if s[0] == ' ' then "%20" else [s[0]]) + EncodeSpaces(s[1..])
  }

  /** A handle without spaces is already link-safe: the encoding leaves it as it is. */
  lemma {:induction false} EncodeSpacesWithoutSpace(s: string)
    requires ' ' !in s
    ensures EncodeSpaces(s) == s
  {
    if s != [] {
      assert ' ' !in s[1..] by {
        forall i | 0 <= i < |s[1..]| ensures s[1..][i] != ' ' {
          assert s[1..][i] == s[i + 1];
        }
      }
      EncodeSpacesWithoutSpace(s[1..]);
      assert s == [s[0]] + s[1..];
    }
  }

  /** The encoding works character by character, so it distributes over concatenation. */
  lemma {:induction false} EncodeSpacesAppend(a: string, b: string)
    ensures EncodeSpaces(a + b) == EncodeSpaces(a) + EncodeSpaces(b)
  {
    if a == [] {
      assert a + b == b;
    } else {
      var ab := a + b;
      var head := if a[0] == ' ' then "%20" else [a[0]];
      assert ab[0] == a[0] && ab[1..] == a[1..] + b;
      EncodeSpacesAppend(a[1..], b);
      assert EncodeSpaces(ab) == head + EncodeSpaces(a[1..] + b);
      assert EncodeSpaces(a) == head + EncodeSpaces(a[1..]);
      assert head + (EncodeSpaces(a[1..]) + EncodeSpaces(b)) == (head + EncodeSpaces(a[1..])) + EncodeSpaces(b);
    }
  }

  /** Turns every `%20` back into a space, reading left to right. */
  function DecodeSpaces(s: string): string
  {
    if |s| >= 3 && s[..3] == "%20" then [' '] + DecodeSpaces(s[3..])
    else if s == [] then ""
    else [s[0]] + DecodeSpaces(s[1..])
  }

  /** Decoding reads an encoded space as one space. */
  lemma DecodeEncodedSpace(rest: string)
    ensures DecodeSpaces("%20" + rest) == [' '] + DecodeSpaces(rest)
  {
    var e := "%20" + rest;
    assert e[..3] == "%20" && e[3..] == rest;
  }

  /** Decoding copies a character other than `%`. */
  lemma DecodePlainChar(c: char, rest: string)
    requires c != '%'
    ensures DecodeSpaces([c] + rest) == [c] + DecodeSpaces(rest)
  {
    var e := [c] + rest;
    assert e[0] == c && e[1..] == rest;
  }

  /** Decoding inverts the encoding on handles that hold no `%`. */
  lemma {:induction false} DecodeEncodeSpaces(s: string)
    requires '%' !in s
    ensures DecodeSpaces(EncodeSpaces(s)) == s
  {
    if s != [] {
      var tail := s[1..];
      assert '%' !in tail by {
        forall i | 0 <= i < |tail| ensures tail[i] != '%' {
          assert tail[i] == s[i + 1];
        }
      }
      DecodeEncodeSpaces(tail);
      var rest := EncodeSpaces(tail);
      if s[0] == ' ' {
        assert EncodeSpaces(s) == "%20" + rest;
        DecodeEncodedSpace(rest);
      } else {
        assert EncodeSpaces(s) == [s[0]] + rest;
        DecodePlainChar(s[0], rest);
      }
      assert s == [s[0]] + tail;
    }
  }

  /**
   * Only spaces are encoded, not `%` itself, so unlike percent-encoding
   * (section 2.1 of RFC 3986) the encoding is not injective.
   */
  lemma EncodeSpacesNotInjective()
    ensures EncodeSpaces(" ") == EncodeSpaces("%20")
    ensures " " != "%20"
  {
    assert EncodeSpaces("0") == "0";
    assert EncodeSpaces("20") == "20";
  }

  /** `c.toUpperCase()` for an ASCII letter; every other character is kept. */
  function UpperChar(c: char): char
  {
    if 'a' <= c <= 'z' then (c as int - 32) as char else c
  }

  /** `s.toUpperCase()`, restricted to ASCII letters. */
  function ToUpper(s: string): (r: string)
    ensures |r| == |s|
    ensures forall i :: 0 <= i < |s| ==> r[i] == UpperChar(s[i])
  {
    if s == [] then "" else [UpperChar(s[0])] + ToUpper(s[1..])
  }

  /** Upper-casing an upper-cased string changes nothing. */
  lemma ToUpperIdempotent(s: string)
    ensures ToUpper(ToUpper(s)) == ToUpper(s)
  {
  }
}
