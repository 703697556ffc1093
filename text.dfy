/** String operations of Python's str type that the corpus tools rely on:
    strip() without arguments, sep.join(parts), replace() of one character,
    and (ASCII-only) lower(). Strings are sequences of Unicode scalar values. */
module Text {

  /** Python's str.isspace(): exactly the characters that str.strip() with no
      argument removes from both ends. */
  predicate IsSpace(c: char) {
    || ('\t' <= c <= '\r')            // tab, line feed, vertical tab, form feed, carriage return
    || ('\U{1C}' <= c <= ' ')         // file, group, record and unit separators, space
    || c == '\U{85}' || c == '\U{A0}' || c == '\U{1680}'
    || ('\U{2000}' <= c <= '\U{200A}')
    || c == '\U{2028}' || c == '\U{2029}' || c == '\U{202F}' || c == '\U{205F}' || c == '\U{3000}'
  }

  /** Among ASCII characters, str.isspace() holds of exactly the six C
      whitespace characters and the four information separators. */
  lemma AsciiSpace(c: char)
    requires c < '\U{80}'
    ensures IsSpace(c) <==> c in " \t\n\U{B}\U{C}\r\U{1C}\U{1D}\U{1E}\U{1F}"
  {
  }


  predicate AllSpace(s: string) {
    forall i :: 0 <= i < |s| ==> IsSpace(s[i])
  }

  /** Number of whitespace characters at the start of s. */
  function LeadingSpace(s: string): (n: nat)
    ensures n <= |s| && AllSpace(s[..n])
    ensures n < |s| ==> !IsSpace(s[n])
  {
    if s == [] || !IsSpace(s[0]) then 0
    else
      var m := LeadingSpace(s[1..]);
      assert s[..1 + m] == [s[0]] + s[1..][..m];
      1 + m
  }

  /** Number of whitespace characters at the end of s. */
  function TrailingSpace(s: string): (n: nat)
    ensures n <= |s| && AllSpace(s[|s| - n..])
    ensures n < |s| ==> !IsSpace(s[|s| - 1 - n])
  {
    if s == [] || !IsSpace(s[|s| - 1]) then 0
    else
      var p := s[..|s| - 1];
      var m := TrailingSpace(p);
      assert s[|s| - 1 - m..] == p[|p| - m..] + [s[|s| - 1]];
      1 + m
  }

  /** Python's s.strip(): s without its leading and trailing whitespace. */
  function Strip(s: string): (r: string)
    ensures |r| <= |s|
  {
    var lead := LeadingSpace(s);
    if lead == |s| then [] else s[lead..|s| - TrailingSpace(s)]
  }

  /** The stripped text neither starts nor ends with whitespace, and it is
      what remains of s once whitespace-only ends are cut off. */
  lemma StripRemovesOuterSpace(s: string)
    ensures Strip(s) == [] || (!IsSpace(Strip(s)[0]) && !IsSpace(Strip(s)[|Strip(s)| - 1]))
    ensures exists i :: 0 <= i <= |s| - |Strip(s)| && Strip(s) == s[i..i + |Strip(s)|]
                        && AllSpace(s[..i]) && AllSpace(s[i + |Strip(s)|..])
  {
    var lead := LeadingSpace(s);
    if lead == |s| {
      assert AllSpace(s[..0]) && s[0..0] == [];
    } else {
      var trail := TrailingSpace(s);
      assert lead < |s| - trail;
      var r := s[lead..|s| - trail];
      assert r == s[lead..lead + |r|];
    }
  }

  /** Stripping twice is stripping once. */
  lemma StripIdempotent(s: string)
    ensures Strip(Strip(s)) == Strip(s)
  {
    StripRemovesOuterSpace(s);
    var r := Strip(s);
    if r != [] {
      assert LeadingSpace(r) == 0 && TrailingSpace(r) == 0;
      assert r[0..|r|] == r;
    }
  }

  /** `[s.strip() for s in ss]`. */
  function StripEach(ss: seq<string>): seq<string> {
    seq(|ss|, i requires 0 <= i < |ss| => Strip(ss[i]))
  }

  /** Total number of characters in parts. */
  function TotalLength(parts: seq<string>): nat {
    if parts == [] then 0 else TotalLength(parts[..|parts| - 1]) + |parts[|parts| - 1]|
  }

  /** Python's sep.join(parts): the parts in order with one sep between neighbours. */
  function Join(sep: string, parts: seq<string>): (r: string)
    ensures parts == [] ==> r == []
    ensures parts != [] ==> |r| == TotalLength(parts) + |sep| * (|parts| - 1)
  {
    if parts == [] then []
    else if |parts| == 1 then
      assert parts[..0] == [];
      parts[0]
    else
      Join(sep, parts[..|parts| - 1]) + sep + parts[|parts| - 1]
  }

  /** Python's s.replace(target, replacement) where target is one character:
      every occurrence of target, left to right, becomes replacement. */
  function Replace(s: string, target: char, replacement: string): (r: string)
    ensures target !in replacement ==> target !in r
    ensures target !in s ==> r == s
    ensures forall c :: c in r ==> c in s || c in replacement
    ensures |replacement| >= 1 ==> |r| >= |s|
    ensures |replacement| == 1 ==> |r| == |s|
  {
    if s == [] then []
    else
      var init, last := s[..|s| - 1], s[|s| - 1];
      Replace(init, target, replacement) + (if last == target then replacement else [last])
  }

  /** Replacing works piece by piece: no occurrence spans two pieces. */
  lemma {:induction false} ReplaceConcat(a: string, b: string, target: char, replacement: string)
    ensures Replace(a + b, target, replacement) == Replace(a, target, replacement) + Replace(b, target, replacement)
    decreases |b|
  {
    if b == [] {
      assert a + b == a;
    } else {
      var init, last := b[..|b| - 1], b[|b| - 1];
      var piece := if last == target then replacement else [last];
      assert (a + b)[..|a + b| - 1] == a + init && (a + b)[|a + b| - 1] == last;
      calc {
        Replace(a + b, target, replacement);
        Replace(a + init, target, replacement) + piece;
        { ReplaceConcat(a, init, target, replacement); }
        Replace(a, target, replacement) + Replace(init, target, replacement) + piece;
        Replace(a, target, replacement) + (Replace(init, target, replacement) + piece);
        Replace(a, target, replacement) + Replace(b, target, replacement);
      }
    }
  }

  /** Python's str.lower() restricted to ASCII letters. */
  function LowerChar(c: char): char {
    if 'A' <= c <= 'Z' then (c as int + 32) as char else c
  }

  predicate IsLower(s: string) {
    forall i :: 0 <= i < |s| ==> !('A' <= s[i] <= 'Z')
  }

  /** s with every ASCII capital replaced by its small letter and nothing else changed. */
  function Lower(s: string): (r: string)
    ensures |r| == |s| && IsLower(r)
    ensures forall i :: 0 <= i < |s| ==> if 'A' <= s[i] <= 'Z' then r[i] as int == s[i] as int + 32 else r[i] == s[i]
  {
    seq(|s|, i requires 0 <= i < |s| => LowerChar(s[i]))
  }

  /** Lower-casing leaves lower-case text alone, so it is idempotent. */
  lemma LowerFixesLowerCase(s: string)
    ensures IsLower(s) <==> Lower(s) == s
    ensures Lower(Lower(s)) == Lower(s)
  {
  }

  /** Python's str.startswith(prefix). */
  predicate StartsWith(s: string, prefix: string) {
    |prefix| <= |s| && s[..|prefix|] == prefix
  }

  predicate OccursAt(s: string, part: string, i: nat) {
    i + |part| <= |s| && s[i..i + |part|] == part
  }

  /** Python's `part in s` for strings. */
  predicate Contains(s: string, part: string) {
    exists i: nat :: i <= |s| && OccursAt(s, part, i)
  }

  /** A string starts with what it was built from, and so contains it. */
  lemma StartsWithAppend(prefix: string, rest: string)
    ensures StartsWith(prefix + rest, prefix)
    ensures Contains(prefix + rest, prefix)
  {
    assert (prefix + rest)[..|prefix|] == prefix;
    assert OccursAt(prefix + rest, prefix, 0);
  }

  /** A part spliced anywhere into a string is found by `in`, and a string
      never contains anything longer than itself. */
  lemma ContainsInfix(before: string, part: string, after: string)
    ensures Contains(before + part + after, part)
    ensures forall s :: Contains(s, part) ==> |part| <= |s|
  {
    var s := before + part + after;
    assert s[|before|..|before| + |part|] == part;
    assert OccursAt(s, part, |before|);
  }
}
