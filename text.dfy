/**
  The JavaScript string behaviour that the three SMTP engines rely on, stated
  over `string` (a `seq<char>`).

  Only ASCII is modelled: the regular-expression class `\s` is taken to be
  space, tab, LF, VT, FF and CR; the line terminators that `.` does not match
  are CR and LF (U+2028 and U+2029 are assumed absent); `toUpperCase` maps
  `a`-`z` to `A`-`Z` and leaves every other character alone.
*/
module Text {

  datatype Option<+T> = None | Some(value: T)

  /** JavaScript truthiness of a string-or-null value: `null` and `""` are falsy. */
  predicate Truthy(v: Option<string>) {
    v.Some? && v.value != ""
  }

  /** `a || fallback` for a string-or-null value. */
  function Or(a: Option<string>, fallback: string): (r: string)
    ensures Truthy(a) ==> r == a.value
    ensures !Truthy(a) ==> r == fallback
  {
    if Truthy(a) then a.value else fallback
  }

  const CRLF: string := "\r\n"

  predicate IsSpace(c: char) {
    c == ' ' || c == '\t' || c == '\n' || c == '\r' || c as int == 11 || c as int == 12
  }

  predicate IsLineBreak(c: char) {
    c == '\r' || c == '\n'
  }

  predicate IsLetter(c: char) {
    ('A' <= c <= 'Z') || ('a' <= c <= 'z')
  }

  predicate AllSpace(s: string) {
    forall i | 0 <= i < |s| :: IsSpace(s[i])
  }

  predicate AllLetters(s: string) {
    forall i | 0 <= i < |s| :: IsLetter(s[i])
  }

  predicate NoLineBreak(s: string) {
    forall i | 0 <= i < |s| :: !IsLineBreak(s[i])
  }

  /** No CR immediately followed by LF. */
  predicate NoCrlf(s: string) {
    forall i | 0 <= i < |s| - 1 :: !(s[i] == '\r' && s[i + 1] == '\n')
  }

  function UpperChar(c: char): char {
    if 'a' <= c <= 'z' then (c as int - 32) as char else c
  }

  /** `String.prototype.toUpperCase` on ASCII. */
  function Upper(s: string): string {
    seq(|s|, i requires 0 <= i < |s| => UpperChar(s[i]))
  }

  /** Length of the leading run of whitespace. */
  function SpacePrefix(s: string): (n: nat)
    ensures n <= |s| && AllSpace(s[..n])
    ensures n < |s| ==> !IsSpace(s[n])
  {
    if s == [] || !IsSpace(s[0]) then 0
    else
      var m := SpacePrefix(s[1..]);
      assert s[..m + 1] == [s[0]] + s[1..][..m];
      m + 1
  }

  /** Length of the leading run of ASCII letters. */
  function LetterPrefix(s: string): (n: nat)
    ensures n <= |s| && AllLetters(s[..n])
    ensures n < |s| ==> !IsLetter(s[n])
  {
    if s == [] || !IsLetter(s[0]) then 0
    else
      var m := LetterPrefix(s[1..]);
      assert s[..m + 1] == [s[0]] + s[1..][..m];
      m + 1
  }

  /** Index of the first CR or LF, or `|s|` when there is none. */
  function LineBreakIndex(s: string): (n: nat)
    ensures n <= |s| && NoLineBreak(s[..n])
    ensures n < |s| ==> IsLineBreak(s[n])
  {
    if s == [] || IsLineBreak(s[0]) then 0
    else
      var m := LineBreakIndex(s[1..]);
      assert s[..m + 1] == [s[0]] + s[1..][..m];
      m + 1
  }

  /** `s.indexOf(c)`, with `|s|` standing for -1. */
  function IndexOf(s: string, c: char): (n: nat)
    ensures n <= |s| && c !in s[..n]
    ensures n < |s| ==> s[n] == c
  {
    if s == [] || s[0] == c then 0
    else
      var m := IndexOf(s[1..], c);
      assert s[..m + 1] == [s[0]] + s[1..][..m];
      m + 1
  }

  /** Length of `s` without its trailing run of whitespace. */
  function ContentEnd(s: string): (n: nat)
    ensures n <= |s| && AllSpace(s[n..])
    ensures n > 0 ==> !IsSpace(s[n - 1])
  {
    if s == [] || !IsSpace(s[|s| - 1]) then |s|
    else
      var m := ContentEnd(s[..|s| - 1]);
      assert s[m..] == s[..|s| - 1][m..] + [s[|s| - 1]];
      m
  }

  /**
    `value.replace(/^\s+/, '').replace(/\s+$/, '')`, the `strip` helper of
    both earlier revisions.
  */
  function Strip(s: string): string {
    var t := s[SpacePrefix(s)..];
    t[..ContentEnd(t)]
  }

  /** `s.split('\r\n')`: always at least one piece, none of them holding CR LF. */
  function Lines(s: string): (r: seq<string>)
    ensures |r| >= 1
    ensures r[0] <= s
    decreases |s|
  {
    if |s| >= 2 && s[0] == '\r' && s[1] == '\n' then [""] + Lines(s[2..])
    else if s == [] then [""]
    else
      var rest := Lines(s[1..]);
      [[s[0]] + rest[0]] + rest[1..]
  }

  /** `parts.join(sep)`. */
  function Join(parts: seq<string>, sep: string): string
    decreases |parts|
  {
    if |parts| == 0 then ""
    else if |parts| == 1 then parts[0]
    else parts[0] + (sep + Join(parts[1..], sep))
  }

  /**
    Removal of SMTP transparency: one leading `.` is dropped. This is
    `line.replace(/^\./, '')` in index.js and the equivalent
    `text && text.substr(0, 1) === '.' ? text.substr(1) : text` in the
    earlier revisions.
  */
  function Unstuff(line: string): string {
    if |line| > 0 && line[0] == '.' then line[1..] else line
  }

  /**
    What a client sends for a body line (dot-stuffing, section 4.5.2 of
    RFC 5321): a line that starts with `.` gets one more.
  */
  function Stuff(line: string): string {
    if |line| > 0 && line[0] == '.' then "." + line else line
  }

  function MapUnstuff(lines: seq<string>): (r: seq<string>)
    ensures |r| == |lines|
    ensures forall i | 0 <= i < |lines| :: r[i] == Unstuff(lines[i])
  {
    seq(|lines|, i requires 0 <= i < |lines| => Unstuff(lines[i]))
  }

  function MapStuff(lines: seq<string>): (r: seq<string>)
    ensures |r| == |lines|
    ensures forall i | 0 <= i < |lines| :: r[i] == Stuff(lines[i])
  {
    seq(|lines|, i requires 0 <= i < |lines| => Stuff(lines[i]))
  }

  /** What a client sends for a command with an argument: the verb, one space, the argument, CR LF. */
  function Line(verb: string, argument: string): string {
    verb + (" " + (argument + CRLF))
  }

  /** A MAIL, RCPT or VRFY argument as clients write it: an optional keyword and the address in angle brackets. */
  function Bracketed(keyword: string, address: string): string {
    keyword + ("<" + (address + ">"))
  }

  /** What a client sends for a command without an argument. */
  function BareLine(verb: string): string {
    verb + CRLF
  }

  // ---------------------------------------------------------------------------
  // Properties

  /** A sequence is its prefix followed by its suffix. */
  lemma SplitAt<T>(s: seq<T>, n: nat)
    requires n <= |s|
    ensures s == s[..n] + s[n..]
  {
  }

  lemma Associative<T>(a: seq<T>, b: seq<T>, c: seq<T>)
    ensures (a + b) + c == a + (b + c)
  {
  }

  /** A whitespace prefix followed by a non-space is exactly what `SpacePrefix` measures. */
  lemma {:induction false} SpacePrefixOf(a: string, b: string)
    requires AllSpace(a)
    requires b == [] || !IsSpace(b[0])
    ensures SpacePrefix(a + b) == |a|
    decreases |a|
  {
    if a == [] {
      assert a + b == b;
    } else {
      assert (a + b)[1..] == a[1..] + b;
      SpacePrefixOf(a[1..], b);
    }
  }

  lemma {:induction false} LetterPrefixOf(a: string, b: string)
    requires AllLetters(a)
    ensures LetterPrefix(a + b) >= |a|
    ensures b == [] || !IsLetter(b[0]) ==> LetterPrefix(a + b) == |a|
    decreases |a|
  {
    if a == [] {
      assert a + b == b;
    } else {
      assert (a + b)[1..] == a[1..] + b;
      LetterPrefixOf(a[1..], b);
    }
  }

  lemma NoLineBreakAppend(a: string, b: string)
    requires NoLineBreak(a) && NoLineBreak(b)
    ensures NoLineBreak(a + b)
  {
    forall i | 0 <= i < |a + b| ensures !IsLineBreak((a + b)[i]) {
      if i < |a| { assert (a + b)[i] == a[i]; } else { assert (a + b)[i] == b[i - |a|]; }
    }
  }

  /** The letter run stops at or before any non-letter. */
  lemma {:induction false} LetterPrefixBound(s: string, i: nat)
    requires i < |s| && !IsLetter(s[i])
    ensures LetterPrefix(s) <= i
    decreases i
  {
    if i > 0 && IsLetter(s[0]) {
      LetterPrefixBound(s[1..], i - 1);
    }
  }

  lemma {:induction false} LineBreakIndexOf(a: string, b: string)
    requires NoLineBreak(a)
    requires b == [] || IsLineBreak(b[0])
    ensures LineBreakIndex(a + b) == |a|
    decreases |a|
  {
    if a == [] {
      assert a + b == b;
    } else {
      assert (a + b)[1..] == a[1..] + b;
      LineBreakIndexOf(a[1..], b);
    }
  }

  lemma {:induction false} IndexOfIs(a: string, c: char, b: string)
    requires c !in a
    requires b == [] || b[0] == c
    ensures IndexOf(a + b, c) == |a|
    decreases |a|
  {
    if a == [] {
      assert a + b == b;
    } else {
      assert (a + b)[1..] == a[1..] + b;
      IndexOfIs(a[1..], c, b);
    }
  }

  lemma {:induction false} ContentEndOf(a: string, b: string)
    requires AllSpace(b)
    requires a == [] || !IsSpace(a[|a| - 1])
    ensures ContentEnd(a + b) == |a|
    decreases |b|
  {
    if b == [] {
      assert a + b == a;
    } else {
      var b' := b[..|b| - 1];
      assert (a + b)[..|a + b| - 1] == a + b';
      ContentEndOf(a, b');
    }
  }

  /**
    `Strip` drops exactly the leading and trailing whitespace: the input is
    whitespace, the result, whitespace, and the result neither starts nor
    ends with whitespace.
  */
  lemma {:induction false} StripShape(s: string) returns (lead: string, trail: string)
    ensures s == lead + (Strip(s) + trail)
    ensures AllSpace(lead) && AllSpace(trail)
    ensures var r := Strip(s); r == [] || (!IsSpace(r[0]) && !IsSpace(r[|r| - 1]))
  {
    var a := SpacePrefix(s);
    var t := s[a..];
    var e := ContentEnd(t);
    lead, trail := s[..a], t[e..];
    SplitAt(s, a);
    SplitAt(t, e);
    if e > 0 {
      assert t[0] == s[a];
    }
  }

  /** A string that is already stripped is left alone. */
  lemma StripStripped(r: string)
    requires r == [] || (!IsSpace(r[0]) && !IsSpace(r[|r| - 1]))
    ensures Strip(r) == r
  {
    SpacePrefixOf([], r);
    assert r[0..] == r;
    ContentEndOf(r, []);
    assert r + [] == r;
  }

  /** `strip` is idempotent. */
  lemma StripIdempotent(s: string)
    ensures Strip(Strip(s)) == Strip(s)
  {
    var _, _ := StripShape(s);
    StripStripped(Strip(s));
  }

  /** Stripping whitespace padding around a stripped core gives the core back. */
  lemma StripPadded(lead: string, core: string, trail: string)
    requires AllSpace(lead) && AllSpace(trail)
    requires core == [] || (!IsSpace(core[0]) && !IsSpace(core[|core| - 1]))
    ensures Strip(lead + (core + trail)) == core
  {
    var s := lead + (core + trail);
    if core == [] {
      assert s == lead + trail;
      assert AllSpace(s) by {
        forall i | 0 <= i < |s| ensures IsSpace(s[i]) {
          if i < |lead| { assert s[i] == lead[i]; } else { assert s[i] == trail[i - |lead|]; }
        }
      }
      SpacePrefixOf(s, []);
      assert s + [] == s;
    } else {
      SpacePrefixOf(lead, core + trail);
      assert s[|lead|..] == core + trail;
      ContentEndOf(core, trail);
    }
  }

  /** Joining the pieces of `split('\r\n')` with CR LF rebuilds the input. */
  lemma {:induction false} JoinLines(s: string)
    ensures Join(Lines(s), CRLF) == s
    decreases |s|
  {
    if |s| >= 2 && s[0] == '\r' && s[1] == '\n' {
      JoinLines(s[2..]);
      JoinLinesAtCrlf(s);
    } else if s != [] {
      JoinLines(s[1..]);
      JoinLinesAtChar(s);
    }
  }

  lemma {:induction false} JoinLinesAtCrlf(s: string)
    requires |s| >= 2 && s[0] == '\r' && s[1] == '\n'
    requires Join(Lines(s[2..]), CRLF) == s[2..]
    ensures Join(Lines(s), CRLF) == s
  {
    var rest := Lines(s[2..]);
    assert Lines(s) == [""] + rest;
    assert ([""] + rest)[1..] == rest;
    SplitAt(s, 2);
    assert s[..2] == CRLF;
  }

  lemma {:induction false} JoinLinesAtChar(s: string)
    requires s != [] && !(|s| >= 2 && s[0] == '\r' && s[1] == '\n')
    requires Join(Lines(s[1..]), CRLF) == s[1..]
    ensures Join(Lines(s), CRLF) == s
  {
    var rest := Lines(s[1..]);
    var head := [s[0]] + rest[0];
    assert Lines(s) == [head] + rest[1..];
    assert ([head] + rest[1..])[1..] == rest[1..];
    SplitAt(s, 1);
    if |rest| > 1 {
      Associative([s[0]], rest[0], CRLF + Join(rest[1..], CRLF));
    }
  }

  /** Every piece of `split('\r\n')` is free of CR LF. */
  lemma {:induction false} LinesNoCrlf(s: string)
    ensures forall i | 0 <= i < |Lines(s)| :: NoCrlf(Lines(s)[i])
    decreases |s|
  {
    if |s| >= 2 && s[0] == '\r' && s[1] == '\n' {
      LinesNoCrlf(s[2..]);
      assert Lines(s) == [""] + Lines(s[2..]);
    } else if s == [] {
    } else {
      var rest := Lines(s[1..]);
      LinesNoCrlf(s[1..]);
      var head := [s[0]] + rest[0];
      assert NoCrlf(head) by {
        forall i | 0 <= i < |head| - 1 ensures !(head[i] == '\r' && head[i + 1] == '\n') {
          if i == 0 {
            assert head[1] == rest[0][0] == s[1];
          } else {
            assert head[i] == rest[0][i - 1] && head[i + 1] == rest[0][i];
          }
        }
      }
      assert Lines(s) == [head] + rest[1..];
    }
  }

  lemma {:induction false} LinesBeforeCrlf(e: string, t: string)
    requires NoCrlf(e)
    requires |t| >= 2 && t[0] == '\r' && t[1] == '\n'
    ensures Lines(e + t) == [e] + Lines(t[2..])
    decreases |e|
  {
    if e == [] {
      assert e + t == t;
    } else {
      var e' := e[1..];
      assert NoCrlf(e') by {
        forall i | 0 <= i < |e'| - 1 ensures !(e'[i] == '\r' && e'[i + 1] == '\n') {
          assert e'[i] == e[i + 1] && e'[i + 1] == e[i + 2];
        }
      }
      LinesBeforeCrlf(e', t);
      var s := e + t;
      assert s[1..] == e' + t;
      var rest := Lines(s[1..]);
      assert rest == [e'] + Lines(t[2..]);
      assert !(s[0] == '\r' && s[1] == '\n') by {
        if |e| >= 2 {
          assert s[1] == e[1];
        } else {
          assert s[1] == t[0];
        }
      }
      assert Lines(s) == [[s[0]] + rest[0]] + rest[1..];
      assert rest[0] == e' && rest[1..] == Lines(t[2..]);
      assert [e[0]] + e' == e;
    }
  }

  lemma {:induction false} LinesOfPlain(e: string)
    requires NoCrlf(e)
    ensures Lines(e) == [e]
    decreases |e|
  {
    if e != [] {
      var e' := e[1..];
      assert NoCrlf(e') by {
        forall i | 0 <= i < |e'| - 1 ensures !(e'[i] == '\r' && e'[i + 1] == '\n') {
          assert e'[i] == e[i + 1] && e'[i + 1] == e[i + 2];
        }
      }
      LinesOfPlain(e');
      if |e| >= 2 {
        assert e[1] == e'[0];
      }
      assert [e[0]] + e' == e;
    }
  }

  /** `split('\r\n')` undoes `join('\r\n')` when no part holds CR LF. */
  lemma {:induction false} LinesJoin(parts: seq<string>)
    requires |parts| >= 1
    requires forall i | 0 <= i < |parts| :: NoCrlf(parts[i])
    ensures Lines(Join(parts, CRLF)) == parts
    decreases |parts|
  {
    if |parts| == 1 {
      LinesOfPlain(parts[0]);
    } else {
      var tail := Join(parts[1..], CRLF);
      LinesJoin(parts[1..]);
      LinesBeforeCrlf(parts[0], CRLF + tail);
      assert (CRLF + tail)[2..] == tail;
      assert parts == [parts[0]] + parts[1..];
    }
  }

  /** Dot transparency round-trips each line. */
  lemma UnstuffStuff(line: string)
    ensures Unstuff(Stuff(line)) == line
    ensures Stuff(line) != "."
  {
  }

  /** Stuffing adds no CR LF. */
  lemma StuffNoCrlf(line: string)
    requires NoCrlf(line)
    ensures NoCrlf(Stuff(line))
  {
    if |line| > 0 && line[0] == '.' {
      var t := Stuff(line);
      forall i | 0 <= i < |t| - 1
        ensures !(t[i] == '\r' && t[i + 1] == '\n')
      {
        if i > 0 {
          assert t[i] == line[i - 1] && t[i + 1] == line[i];
        }
      }
    }
  }

  /** Stuffing every line and removing it again gives the lines back. */
  lemma MapUnstuffStuff(lines: seq<string>)
    ensures MapUnstuff(MapStuff(lines)) == lines
  {
    forall i | 0 <= i < |lines|
      ensures MapUnstuff(MapStuff(lines))[i] == lines[i]
    {
      UnstuffStuff(lines[i]);
    }
  }

  lemma {:induction false} JoinAppend(parts: seq<string>, last: string, sep: string)
    requires |parts| >= 1
    ensures Join(parts + [last], sep) == Join(parts, sep) + (sep + last)
    decreases |parts|
  {
    if |parts| == 1 {
      assert parts + [last] == [parts[0], last];
    } else {
      JoinAppend(parts[1..], last, sep);
      assert (parts + [last])[1..] == parts[1..] + [last];
    }
  }
}
