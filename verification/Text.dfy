/** Text as the proxy configs and logs need it: lines, fields and numbers. */
module Text {
  import opened Rollout

  predicate Blank(c: char) {
    c == ' ' || c == '\t' || c == '\n' || c == '\r'
  }

  /** A non-empty run of characters with no blank among them. */
  predicate Word(s: string) {
    s != "" && forall i :: 0 <= i < |s| ==> !Blank(s[i])
  }

  predicate OneLine(s: string) {
    forall i :: 0 <= i < |s| ==> s[i] != '\n'
  }

  // -------------------------------------------------------------------- lines

  /** The lines of a text, each with its line end. */
  function Terminated(lines: seq<string>): string {
    if lines == [] then "" else lines[0] + "\n" + Terminated(lines[1..])
  }

  /** The lines with a line end between each two. */
  function JoinLines(lines: seq<string>): string {
    if lines == [] then "" else if |lines| == 1 then lines[0] else lines[0] + "\n" + JoinLines(lines[1..])
  }

  /** The text cut at every line end. */
  function SplitLines(text: string): (lines: seq<string>)
    ensures |lines| > 0
  {
    if text == "" then [""]
    else
      var rest := SplitLines(text[1..]);
      if text[0] == '\n' then [""] + rest else [[text[0]] + rest[0]] + rest[1..]
  }

  lemma {:induction false} JoinSplit(text: string)
    ensures JoinLines(SplitLines(text)) == text
  {
    if text != "" {
      JoinSplit(text[1..]);
      var rest := SplitLines(text[1..]);
      if text[0] == '\n' {
        assert ([""] + rest)[1..] == rest;
      } else {
        assert ([[text[0]] + rest[0]] + rest[1..])[1..] == rest[1..];
      }
    }
  }

  lemma {:induction false} SplitOneLine(line: string, text: string)
    requires OneLine(line)
    ensures SplitLines(line + "\n" + text) == [line] + SplitLines(text)
  {
    var all := line + "\n" + text;
    if line == "" {
      assert all[1..] == text;
    } else {
      assert all[1..] == line[1..] + "\n" + text;
      SplitOneLine(line[1..], text);
      assert [line[0]] + line[1..] == line;
      assert ([line[1..]] + SplitLines(text))[1..] == SplitLines(text);
    }
  }

  /** Cutting a text of whole lines gives them back, and an empty rest. */
  lemma {:induction false} SplitTerminated(lines: seq<string>)
    requires forall i :: 0 <= i < |lines| ==> OneLine(lines[i])
    ensures SplitLines(Terminated(lines)) == lines + [""]
  {
    if lines != [] {
      SplitOneLine(lines[0], Terminated(lines[1..]));
      SplitTerminated(lines[1..]);
    }
  }

  lemma {:induction false} TerminatedConcat(a: seq<string>, b: seq<string>)
    ensures Terminated(a + b) == Terminated(a) + Terminated(b)
  {
    if a == [] {
      assert a + b == b;
    } else {
      assert (a + b)[1..] == a[1..] + b;
      TerminatedConcat(a[1..], b);
    }
  }

  lemma {:induction false} SplitNoEnd(line: string)
    requires OneLine(line)
    ensures SplitLines(line) == [line]
  {
    if line != "" {
      SplitNoEnd(line[1..]);
      assert [line[0]] + line[1..] == line;
    }
  }

  /** Joined lines can be told apart again. */
  lemma {:induction false} SplitJoined(lines: seq<string>)
    requires |lines| > 0 && forall i :: 0 <= i < |lines| ==> OneLine(lines[i])
    ensures SplitLines(JoinLines(lines)) == lines
  {
    if |lines| == 1 {
      SplitNoEnd(lines[0]);
    } else {
      SplitOneLine(lines[0], JoinLines(lines[1..]));
      SplitJoined(lines[1..]);
    }
  }

  lemma {:induction false} JoinConcat(a: seq<string>, b: seq<string>)
    requires |a| > 0 && |b| > 0
    ensures JoinLines(a + b) == JoinLines(a) + "\n" + JoinLines(b)
  {
    if |a| == 1 {
      assert (a + b)[1..] == b;
    } else {
      assert (a + b)[1..] == a[1..] + b;
      JoinConcat(a[1..], b);
    }
  }

  // ------------------------------------------------------------------- fields

  /** The length of the word a text starts with. */
  function WordLength(s: string): (n: nat)
    ensures n <= |s| && (forall i :: 0 <= i < n ==> !Blank(s[i])) && (n < |s| ==> Blank(s[n]))
  {
    if s == "" || Blank(s[0]) then 0 else 1 + WordLength(s[1..])
  }

  /** The words of a line. */
  function Fields(s: string): (words: seq<string>)
    decreases |s|
  {
    if s == "" then []
    else if Blank(s[0]) then Fields(s[1..])
    else
      var n := WordLength(s);
      [s[..n]] + Fields(s[n..])
  }

  /** Words with a space in front of each. */
  function Spaced(words: seq<string>): string {
    if words == [] then "" else " " + words[0] + Spaced(words[1..])
  }

  /** A line of words, indented by four spaces. */
  function Indented(words: seq<string>): string {
    "   " + Spaced(words)
  }

  lemma {:induction false} WordLengthIs(word: string, rest: string)
    requires Word(word) && (rest != "" ==> Blank(rest[0]))
    ensures WordLength(word + rest) == |word|
  {
    assert (word + rest)[1..] == word[1..] + rest && (word + rest)[0] == word[0];
    if |word| > 1 {
      WordLengthIs(word[1..], rest);
    } else {
      assert word[1..] + rest == rest;
    }
  }

  lemma FieldsWord(word: string, rest: string)
    requires Word(word) && (rest != "" ==> Blank(rest[0]))
    ensures Fields(word + rest) == [word] + Fields(rest)
  {
    WordLengthIs(word, rest);
    assert (word + rest)[0] == word[0];
    assert (word + rest)[..|word|] == word && (word + rest)[|word|..] == rest;
  }

  lemma {:induction false} FieldsSpaced(words: seq<string>)
    requires forall i :: 0 <= i < |words| ==> Word(words[i])
    ensures Fields(Spaced(words)) == words
  {
    if words != [] {
      var rest := Spaced(words[1..]);
      assert Spaced(words)[1..] == words[0] + rest;
      FieldsWord(words[0], rest);
      FieldsSpaced(words[1..]);
    }
  }

  /** Indentation does not matter. */
  lemma {:induction false} FieldsIndented(pad: string, s: string)
    requires forall i :: 0 <= i < |pad| ==> Blank(pad[i])
    ensures Fields(pad + s) == Fields(s)
  {
    if pad == "" {
      assert pad + s == s;
    } else {
      assert (pad + s)[1..] == pad[1..] + s;
      FieldsIndented(pad[1..], s);
    }
  }

  lemma {:induction false} SpacedConcat(a: seq<string>, b: seq<string>)
    ensures Spaced(a + b) == Spaced(a) + Spaced(b)
  {
    if a == [] {
      assert a + b == b;
    } else {
      assert (a + b)[1..] == a[1..] + b;
      SpacedConcat(a[1..], b);
    }
  }

  lemma {:induction false} SpacedOneLine(words: seq<string>)
    requires forall i :: 0 <= i < |words| ==> OneLine(words[i])
    ensures OneLine(Spaced(words))
  {
    if words != [] {
      SpacedOneLine(words[1..]);
    }
  }

  function TrimLeft(s: string): string {
    if s != "" && Blank(s[0]) then TrimLeft(s[1..]) else s
  }

  function TrimRight(s: string): string {
    if s != "" && Blank(s[|s| - 1]) then TrimRight(s[..|s| - 1]) else s
  }

  function TrimSpace(s: string): string {
    TrimRight(TrimLeft(s))
  }

  function TrimSlash(s: string): string {
    if s != "" && s[|s| - 1] == '/' then s[..|s| - 1] else s
  }

  function LowerChar(c: char): char {
    if 'A' <= c <= 'Z' then ((c as int) + 32) as char else c
  }

  function Lower(s: string): string {
    seq(|s|, i requires 0 <= i < |s| => LowerChar(s[i]))
  }

  // ------------------------------------------------------------------ numbers

  function Digit(d: nat): char
    requires d < 10
  {
    ('0' as int + d) as char
  }

  function Itoa(n: nat): (s: string)
    ensures s != "" && forall i :: 0 <= i < |s| ==> '0' <= s[i] <= '9'
  {
    if n < 10 then [Digit(n)] else Itoa(n / 10) + [Digit(n % 10)]
  }

  /** Different numbers are written differently. */
  lemma {:induction false} ItoaInjective(a: nat, b: nat)
    requires Itoa(a) == Itoa(b)
    ensures a == b
  {
    var x, y := Itoa(a), Itoa(b);
    assert x[|x| - 1] == Digit(a % 10) && y[|y| - 1] == Digit(b % 10);
    if a >= 10 && b >= 10 {
      assert x[..|x| - 1] == Itoa(a / 10) && y[..|y| - 1] == Itoa(b / 10);
      ItoaInjective(a / 10, b / 10);
    }
  }

  predicate Digits(s: string) {
    forall i :: 0 <= i < |s| ==> '0' <= s[i] <= '9'
  }

  function Atoi(s: string): nat
    requires Digits(s)
  {
    if s == "" then 0 else Atoi(s[..|s| - 1]) * 10 + (s[|s| - 1] as int - '0' as int)
  }

  lemma {:induction false} AtoiItoa(n: nat)
    ensures Digits(Itoa(n)) && Atoi(Itoa(n)) == n
  {
    if n < 10 {
      assert Itoa(n)[..0] == "";
    } else {
      AtoiItoa(n / 10);
      assert Itoa(n)[..|Itoa(n)| - 1] == Itoa(n / 10);
    }
  }

  // ------------------------------------------------------------------ finding

  /** The last place before `n` where `sep` starts. */
  function LastIndex(s: string, sep: string, n: nat): (r: Option<nat>)
    requires n <= |s|
    ensures r.Some? ==> r.value < n && sep <= s[r.value..]
  {
    if n == 0 then None
    else if sep <= s[n - 1..] then Some(n - 1)
    else LastIndex(s, sep, n - 1)
  }

  /** What follows the last `sep`, or all of it. */
  function AfterLast(s: string, sep: string): string
    requires sep != ""
  {
    var i := LastIndex(s, sep, |s|);
    if i.Some? then s[i.value + |sep|..] else s
  }

  lemma {:induction false} LastIndexIs(s: string, sep: string, n: nat, i: nat)
    requires i < n <= |s| && sep <= s[i..] && forall k :: i < k < n ==> !(sep <= s[k..])
    ensures LastIndex(s, sep, n) == Some(i)
  {
    if n - 1 != i {
      LastIndexIs(s, sep, n - 1, i);
    }
  }

  lemma {:induction false} LastIndexNone(s: string, sep: string, n: nat)
    requires n <= |s| && forall k :: 0 <= k < n ==> !(sep <= s[k..])
    ensures LastIndex(s, sep, n) == None
  {
    if n > 0 {
      LastIndexNone(s, sep, n - 1);
    }
  }

  /** What comes before the first `c`, or all of it. */
  function BeforeFirst(s: string, c: char): string {
    if s == "" || s[0] == c then "" else [s[0]] + BeforeFirst(s[1..], c)
  }

  lemma {:induction false} BeforeFirstIs(a: string, b: string, c: char)
    requires c !in a && (b == "" || b[0] == c)
    ensures BeforeFirst(a + b, c) == a
  {
    if a == "" {
      assert a + b == b;
    } else {
      assert (a + b)[1..] == a[1..] + b;
      BeforeFirstIs(a[1..], b, c);
      assert [a[0]] + a[1..] == a;
    }
  }

  lemma ItoaIsWord(n: nat)
    ensures Word(Itoa(n)) && OneLine(Itoa(n))
  {
  }

  /** Host and port of an address; nothing when it is not of that form. A host with
      colons stands in brackets. */
  function SplitHostPort(s: string): Option<(string, string)> {
    var i := LastIndex(s, ":", |s|);
    if i.None? then None
    else
      var host, port := s[..i.value], s[i.value + 1..];
      if '[' in port || ']' in port then None
      else if host != "" && host[0] == '[' then
        if host[|host| - 1] == ']' && '[' !in host[1..] && ']' !in host[..|host| - 1] then
          Some((host[1..|host| - 1], port))
        else None
      else if ':' in host || '[' in host || ']' in host then None
      else Some((host, port))
  }
}
