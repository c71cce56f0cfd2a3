/** String operations of the JavaScript runtime that the tool layer relies on,
    over strings as sequences of characters. Case mapping covers ASCII letters. */
module Strings {
  import opened Base

  /** The characters matched by the regular-expression class `\s`; they are also
      the ones `String.prototype.trim` removes. */
  predicate IsWhitespace(c: char) {
    || c == ' ' || c == '\t' || c == '\n' || c == '\r' || c == '\U{B}' || c == '\U{C}'
    || c == '\U{A0}' || c == '\U{1680}' || ('\U{2000}' <= c <= '\U{200A}')
    || c == '\U{2028}' || c == '\U{2029}' || c == '\U{202F}' || c == '\U{205F}'
    || c == '\U{3000}' || c == '\U{FEFF}'
  }

  predicate NoWhitespace(s: string) {
    forall i :: 0 <= i < |s| ==> !IsWhitespace(s[i])
  }

  /** The regular-expression class `\w`. */
  predicate IsWordChar(c: char) {
    ('a' <= c <= 'z') || ('A' <= c <= 'Z') || ('0' <= c <= '9') || c == '_'
  }

  predicate IsUpperAscii(c: char) { 'A' <= c <= 'Z' }

  predicate IsLowerAscii(c: char) { 'a' <= c <= 'z' }

  function LowerChar(c: char): (r: char)
    ensures !IsUpperAscii(r)
    ensures IsWhitespace(r) <==> IsWhitespace(c)
    ensures IsWordChar(r) <==> IsWordChar(c)
    ensures !IsUpperAscii(c) ==> r == c
  {
    if IsUpperAscii(c) then (c as int + 32) as char else c
  }

  function UpperChar(c: char): (r: char)
    ensures !IsLowerAscii(r)
    ensures IsWordChar(r) <==> IsWordChar(c)
    ensures r == c || IsUpperAscii(r)
    ensures !IsLowerAscii(c) ==> r == c
  {
    if IsLowerAscii(c) then (c as int - 32) as char else c
  }

  /** `toLowerCase()`. */
  function Lower(s: string): (r: string)
    ensures |r| == |s|
    ensures forall i :: 0 <= i < |s| ==> r[i] == LowerChar(s[i])
  {
    seq(|s|, i requires 0 <= i < |s| => LowerChar(s[i]))
  }

  predicate IsLower(s: string) {
    forall i :: 0 <= i < |s| ==> !IsUpperAscii(s[i])
  }

  lemma LowerOfLower(s: string)
    requires IsLower(s)
    ensures Lower(s) == s
  {
  }

  function StartsWith(s: string, prefix: string): bool {
    prefix <= s
  }

  function EndsWith(s: string, suffix: string): bool {
    |suffix| <= |s| && s[|s| - |suffix|..] == suffix
  }

  /** `haystack.includes(needle)`. */
  predicate Contains(haystack: string, needle: string)
    decreases |haystack|
  {
    needle <= haystack || (|haystack| > 0 && Contains(haystack[1..], needle))
  }

  lemma {:induction false} ContainsAppend(a: string, b: string, t: string)
    requires Contains(a, t)
    ensures Contains(a + b, t)
    decreases |a|
  {
    if t <= a {
      assert t <= a + b;
    } else {
      ContainsAppend(a[1..], b, t);
      assert (a + b)[1..] == a[1..] + b;
    }
  }

  lemma {:induction false} ContainsPrepend(a: string, b: string, t: string)
    requires Contains(b, t)
    ensures Contains(a + b, t)
    decreases |a|
  {
    if |a| == 0 {
      assert a + b == b;
    } else {
      ContainsPrepend(a[1..], b, t);
      assert (a + b)[1..] == a[1..] + b;
    }
  }

  /** A needle without a space that occurs in `a + " " + b` occurs in `a` or in `b`. */
  lemma {:induction false} ContainsAcrossSpace(a: string, b: string, t: string)
    requires Contains(a + " " + b, t)
    requires ' ' !in t
    ensures Contains(a, t) || Contains(b, t)
    decreases |a|
  {
    var s := a + " " + b;
    if t <= s {
      assert forall k :: 0 <= k < |t| ==> t[k] == s[k];
      assert s[|a|] == ' ';
      assert t == a[..|t|];
    } else if |a| == 0 {
      assert s[1..] == b;
    } else {
      assert s[1..] == a[1..] + " " + b;
      ContainsAcrossSpace(a[1..], b, t);
    }
  }

  /** `String.prototype.trimStart`. */
  function TrimStart(s: string): (r: string)
    ensures |r| <= |s| && r == s[|s| - |r|..]
    ensures r == [] || !IsWhitespace(r[0])
    decreases |s|
  {
    if |s| > 0 && IsWhitespace(s[0]) then TrimStart(s[1..]) else s
  }

  /** `String.prototype.trimEnd`. */
  function TrimEnd(s: string): (r: string)
    ensures r <= s
    ensures r == [] || !IsWhitespace(r[|r| - 1])
    decreases |s|
  {
    if |s| > 0 && IsWhitespace(s[|s| - 1]) then TrimEnd(s[..|s| - 1]) else s
  }

  /** `String.prototype.trim`. */
  function Trim(s: string): (r: string)
    ensures r == [] || (!IsWhitespace(r[0]) && !IsWhitespace(r[|r| - 1]))
  {
    TrimEnd(TrimStart(s))
  }

  lemma TrimOfUntrimmed(s: string)
    requires s == [] || (!IsWhitespace(s[0]) && !IsWhitespace(s[|s| - 1]))
    ensures Trim(s) == s
  {
  }

  /** Trimming whitespace around a string that starts and ends with other
      characters gives that string. */
  lemma TrimAround(head: string, body: string, tail: string)
    requires forall i :: 0 <= i < |head| ==> IsWhitespace(head[i])
    requires forall i :: 0 <= i < |tail| ==> IsWhitespace(tail[i])
    requires |body| > 0 && !IsWhitespace(body[0]) && !IsWhitespace(body[|body| - 1])
    ensures Trim(head + body + tail) == body
  {
    TrimStartSkips(head, body + tail);
    assert head + body + tail == head + (body + tail);
    TrimEndSkips(body, tail);
  }

  lemma {:induction false} TrimStartSkips(ws: string, s: string)
    requires forall i :: 0 <= i < |ws| ==> IsWhitespace(ws[i])
    requires |s| > 0 && !IsWhitespace(s[0])
    ensures TrimStart(ws + s) == s
    decreases |ws|
  {
    if |ws| > 0 {
      assert (ws + s)[1..] == ws[1..] + s;
      TrimStartSkips(ws[1..], s);
    } else {
      assert ws + s == s;
    }
  }

  lemma {:induction false} TrimEndSkips(s: string, ws: string)
    requires forall i :: 0 <= i < |ws| ==> IsWhitespace(ws[i])
    requires |s| > 0 && !IsWhitespace(s[|s| - 1])
    ensures TrimEnd(s + ws) == s
    decreases |ws|
  {
    if |ws| > 0 {
      assert (s + ws)[..|s + ws| - 1] == s + ws[..|ws| - 1];
      TrimEndSkips(s, ws[..|ws| - 1]);
    } else {
      assert s + ws == s;
    }
  }

  lemma TrimIdempotent(s: string)
    ensures Trim(Trim(s)) == Trim(s)
  {
    TrimOfUntrimmed(Trim(s));
  }

  lemma TrimOfNoWhitespace(s: string)
    requires NoWhitespace(s)
    ensures Trim(s) == s
  {
    TrimOfUntrimmed(s);
  }

  lemma TrimPreservesLower(s: string)
    requires IsLower(s)
    ensures IsLower(Trim(s))
  {
    var t := TrimStart(s);
    forall i | 0 <= i < |t|
      ensures !IsUpperAscii(t[i])
    {
      assert t[i] == s[|s| - |t| + i];
    }
    var u := TrimEnd(t);
    forall i | 0 <= i < |u|
      ensures !IsUpperAscii(u[i])
    {
      assert u[i] == t[i];
    }
  }

  /** `s.split(/\s+/)`: the fields between maximal runs of whitespace, with an
      empty first field when `s` starts with whitespace and an empty last
      field when it ends with whitespace. */
  function SplitWs(s: string): (r: seq<string>)
    ensures |r| >= 1
    ensures forall k :: 0 <= k < |r| ==> NoWhitespace(r[k])
    ensures forall k, i :: 0 <= k < |r| && 0 <= i < |r[k]| ==> r[k][i] in s
    decreases |s|
  {
    var i := NonWsPrefix(s);
    if i == |s| then [s]
    else
      var j := i + WsPrefix(s[i..]);
      [s[..i]] + SplitWs(s[j..])
  }

  function NonWsPrefix(s: string): (n: nat)
    ensures n <= |s|
    ensures forall k :: 0 <= k < n ==> !IsWhitespace(s[k])
    ensures n < |s| ==> IsWhitespace(s[n])
    decreases |s|
  {
    if |s| == 0 || IsWhitespace(s[0]) then 0 else 1 + NonWsPrefix(s[1..])
  }

  function WsPrefix(s: string): (n: nat)
    ensures n <= |s|
    ensures n > 0 <==> |s| > 0 && IsWhitespace(s[0])
    decreases |s|
  {
    if |s| == 0 || !IsWhitespace(s[0]) then 0 else 1 + WsPrefix(s[1..])
  }

  /** A query splits into exactly one field iff it contains no whitespace, and
      that field is the query itself. */
  lemma SplitWsSingle(s: string)
    ensures |SplitWs(s)| == 1 <==> NoWhitespace(s)
    ensures NoWhitespace(s) ==> SplitWs(s) == [s]
  {
    var i := NonWsPrefix(s);
    if i < |s| {
      assert IsWhitespace(s[i]);
    }
  }

  /** `parts.join(sep)`. */
  function Join(parts: seq<string>, sep: string): string
    decreases |parts|
  {
    if |parts| == 0 then ""
    else if |parts| == 1 then parts[0]
    else parts[0] + sep + Join(parts[1..], sep)
  }

  lemma {:induction false} JoinChars(parts: seq<string>, sep: string, c: char)
    requires c in Join(parts, sep)
    ensures c in sep || exists k :: 0 <= k < |parts| && c in parts[k]
    decreases |parts|
  {
    if |parts| > 1 {
      var rest := Join(parts[1..], sep);
      assert Join(parts, sep) == parts[0] + sep + rest;
      if c !in parts[0] && c !in sep {
        JoinChars(parts[1..], sep, c);
        var k :| 0 <= k < |parts[1..]| && c in parts[1..][k];
        assert c in parts[k + 1];
      }
    }
  }

  /** Every part occurs in the joined string. */
  lemma {:induction false} JoinContainsParts(parts: seq<string>, sep: string)
    ensures forall k :: 0 <= k < |parts| ==> Contains(Join(parts, sep), parts[k])
    decreases |parts|
  {
    if |parts| == 1 {
      assert Contains(parts[0], parts[0]);
    } else if |parts| > 1 {
      var rest := Join(parts[1..], sep);
      JoinContainsParts(parts[1..], sep);
      assert Join(parts, sep) == parts[0] + (sep + rest);
      assert Contains(parts[0], parts[0]);
      ContainsAppend(parts[0], sep + rest, parts[0]);
      forall k | 1 <= k < |parts| ensures Contains(Join(parts, sep), parts[k]) {
        assert parts[k] == parts[1..][k - 1];
        ContainsPrepend(parts[0] + sep, rest, parts[k]);
        assert parts[0] + sep + rest == parts[0] + (sep + rest);
      }
    }
  }

  /** A needle with a character the haystack lacks does not occur in it. */
  lemma {:induction false} NotContainsMissingChar(haystack: string, needle: string, c: char)
    requires c in needle && c !in haystack
    ensures !Contains(haystack, needle)
    decreases |haystack|
  {
    if |haystack| > 0 {
      NotContainsMissingChar(haystack[1..], needle, c);
    }
  }

  function IndexOfChar(s: string, c: char): (i: nat)
    requires c in s
    ensures i < |s| && s[i] == c && c !in s[..i]
    decreases |s|
  {
    if s[0] == c then 0
    else
      var j := IndexOfChar(s[1..], c);
      assert s[..j + 1] == [s[0]] + s[1..][..j];
      1 + j
  }

  /** `s.split(c)` for a single-character separator. */
  function SplitOn(s: string, c: char): (r: seq<string>)
    decreases |s|
  {
    if c !in s then [s]
    else
      var i := IndexOfChar(s, c);
      [s[..i]] + SplitOn(s[i + 1..], c)
  }

  /** Splitting on `c` undoes joining with `c` when no part contains `c`. */
  lemma {:induction false} SplitOnJoin(parts: seq<string>, c: char)
    requires |parts| > 0
    requires forall k :: 0 <= k < |parts| ==> c !in parts[k]
    ensures SplitOn(Join(parts, [c]), c) == parts
    decreases |parts|
  {
    if |parts| > 1 {
      var rest := Join(parts[1..], [c]);
      var s := parts[0] + [c] + rest;
      assert Join(parts, [c]) == s;
      assert s[|parts[0]|] == c;
      var i := IndexOfChar(s, c);
      assert s[..i] == parts[0];
      assert s[i + 1..] == rest;
      SplitOnJoin(parts[1..], c);
    }
  }

  /** JavaScript truthiness of an optional string: present and not empty. */
  predicate Truthy(s: Option<string>) {
    s.Some? && s.value != ""
  }

  /** `s || fallback` for an optional string. */
  function OrElse(s: Option<string>, fallback: string): (r: string)
    ensures Truthy(s) ==> r == s.value
    ensures !Truthy(s) ==> r == fallback
  {
    if Truthy(s) then s.value else fallback
  }

  /** `s || fallback` for a string. */
  function StrOr(s: string, fallback: string): (r: string)
    ensures s != "" ==> r == s
    ensures s == "" ==> r == fallback
  {
    if s != "" then s else fallback
  }

  /** `${x}` in a template literal for a nullable string field. */
  function Interpolate(s: Option<string>): string {
    match s
    case Some(v) => v
    case None => "null"
  }

  function Digit(d: nat): (c: char)
    requires d < 10
    ensures '0' <= c <= '9'
  {
    ('0' as int + d) as char
  }

  /** `String(n)` for a non-negative integer. */
  function NatToString(n: nat): (s: string)
    ensures |s| > 0
    ensures forall i :: 0 <= i < |s| ==> '0' <= s[i] <= '9'
    decreases n
  {
    if n < 10 then [Digit(n)] else NatToString(n / 10) + [Digit(n % 10)]
  }

  /** The value of a string of decimal digits. */
  function ParseNat(s: string): nat
    requires forall i :: 0 <= i < |s| ==> '0' <= s[i] <= '9'
    decreases |s|
  {
    if |s| == 0 then 0
    else ParseNat(s[..|s| - 1]) * 10 + (s[|s| - 1] as int - '0' as int)
  }

  /** The decimal rendering of a number reads back as that number. */
  lemma {:induction false} ParseNatToString(n: nat)
    ensures ParseNat(NatToString(n)) == n
    decreases n
  {
    var s := NatToString(n);
    if n >= 10 {
      ParseNatToString(n / 10);
      assert s[..|s| - 1] == NatToString(n / 10);
    }
  }
}
