/** The part of a backend file that only a reload can change: everything but its
    server lines. */
module HAProxyOptions {
  import opened Rollout
  import opened Text
  import opened HAProxyBackend

  predicate IsServerText(line: string) {
    "server " <= TrimSpace(line)
  }

  function WithoutServers(lines: seq<string>): seq<string> {
    if lines == [] then []
    else WithoutServers(lines[..|lines| - 1]) + (if IsServerText(lines[|lines| - 1]) then [] else [lines[|lines| - 1]])
  }

  method BackendOptions(text: string) returns (r: string)
    ensures r == JoinLines(WithoutServers(SplitLines(text)))
  {
    var all := SplitLines(text);
    var lines: seq<string> := [];
    for i := 0 to |all|
      invariant lines == WithoutServers(all[..i])
    {
      assert all[..i + 1][..i] == all[..i];
      if !("server " <= TrimSpace(all[i])) {
        lines := lines + [all[i]];
      }
    }
    assert all[..|all|] == all;
    r := JoinLines(lines);
  }

  lemma {:induction false} TrimLeftFields(s: string)
    ensures Fields(TrimLeft(s)) == Fields(s)
  {
    if s != "" && Blank(s[0]) {
      TrimLeftFields(s[1..]);
    }
  }

  lemma {:induction false} TrimRightPrefix(s: string)
    ensures TrimRight(s) <= s
  {
    if s != "" && Blank(s[|s| - 1]) {
      TrimRightPrefix(s[..|s| - 1]);
    }
  }

  lemma ServerTextIsServer(line: string)
    requires IsServerText(line)
    ensures FirstWord(line) == "server"
  {
    hide Fields, TrimLeft, TrimRight;
    var s := TrimLeft(line);
    TrimRightPrefix(s);
    TrimLeftFields(line);
    assert s == "server" + s[6..] && s[6] == ' ';
    assert Word("server");
    FieldsWord("server", s[6..]);
  }

  lemma ServerIsServerText(words: seq<string>)
    requires |words| >= 2 && words[0] == "server" && forall k :: 0 <= k < |words| ==> Word(words[k])
    ensures IsServerText(Indented(words))
  {
    hide Word;
    var rest := Spaced(words[1..]);
    assert Spaced(words) == " server" + rest;
    assert Indented(words) == "    " + ("server" + rest);
    TrimIndent("    ", "server" + rest);
    SpacedEnd(words[1..]);
    assert rest[0] == ' ';
    assert ("server" + rest)[..7] == "server ";
  }

  lemma {:induction false} TrimIndent(pad: string, s: string)
    requires s != "" && !Blank(s[0]) && forall i :: 0 <= i < |pad| ==> Blank(pad[i])
    ensures TrimLeft(pad + s) == s
  {
    if pad == "" {
      assert pad + s == s;
    } else {
      assert (pad + s)[1..] == pad[1..] + s;
      TrimIndent(pad[1..], s);
    }
  }

  lemma {:induction false} SpacedEnd(words: seq<string>)
    requires words != [] && forall k :: 0 <= k < |words| ==> Word(words[k])
    ensures Spaced(words) != "" && !Blank(Spaced(words)[|Spaced(words)| - 1]) && Spaced(words)[0] == ' '
  {
    if |words| == 1 {
      assert Spaced(words[1..]) == "";
      assert Spaced(words)[|Spaced(words)| - 1] == words[0][|words[0]| - 1];
    } else {
      SpacedEnd(words[1..]);
    }
  }

  lemma {:induction false} WithoutConcat(a: seq<string>, b: seq<string>)
    ensures WithoutServers(a + b) == WithoutServers(a) + WithoutServers(b)
  {
    hide IsServerText;
    if b == [] {
      assert a + b == a;
    } else {
      assert (a + b)[..|a + b| - 1] == a + b[..|b| - 1];
      WithoutConcat(a, b[..|b| - 1]);
    }
  }

  lemma {:induction false} WithoutNone(lines: seq<string>)
    requires forall k :: 0 <= k < |lines| ==> FirstWord(lines[k]) != "server"
    ensures WithoutServers(lines) == lines
  {
    hide FirstWord, IsServerText;
    if lines != [] {
      WithoutNone(lines[..|lines| - 1]);
      if IsServerText(lines[|lines| - 1]) {
        ServerTextIsServer(lines[|lines| - 1]);
      }
    }
  }

  lemma {:induction false} WithoutServerLines(b: Section, n: nat)
    requires WellWritten(b) && n <= |b.servers|
    ensures WithoutServers(ServerLines(b, n)) == []
  {
    hide IsServerText, Indented, WellWritten, Arguments, ServerName, Word;
    if n > 0 {
      WithoutServerLines(b, n - 1);
      ArgumentWords(b, n - 1);
      ServerWordIs();
      ServerIsServerText(["server", ServerName(b.servers[n - 1], n - 1)] + Arguments(b, n - 1));
    }
  }

  lemma ServerWordIs()
    ensures Word("server")
  {
  }

  function Stripped(b: Section): Section {
    b.(servers := [])
  }

  lemma StrippedWritten(b: Section)
    requires WellWritten(b)
    ensures WellWritten(Stripped(b))
  {
    hide Word, OneLine, FirstWord;
  }

  /** Title, options and rewrites hold no server line. */
  lemma NoServersAround(b: Section)
    requires WellWritten(b)
    ensures WithoutServers([Title(b)] + OptionLines(b)) == [Title(b)] + OptionLines(b)
    ensures WithoutServers(b.rewrite) == b.rewrite
  {
    hide Title, OptionLines, FirstWord, WithoutServers, Word, OneLine;
    TitleStart(b);
    OptionsAre(b);
    WithoutNone([Title(b)] + OptionLines(b));
    WithoutNone(b.rewrite);
  }

  lemma StrippedSection(b: Section)
    requires WellWritten(b)
    ensures WellWritten(Stripped(b))
    ensures WithoutServers(SectionLines(b)) == SectionLines(Stripped(b))
  {
    hide Title, OptionLines, WithoutServers, WellWritten, ServerLine;
    var n := |b.servers|;
    StrippedWritten(b);
    OptionsIgnoreServers(b);
    NoServersAround(b);
    WithoutServerLines(b, n);
    WithoutConcat([Title(b)] + OptionLines(b), ServerLines(b, n));
    WithoutConcat([Title(b)] + OptionLines(b) + ServerLines(b, n), b.rewrite);
    assert ServerLines(Stripped(b), 0) == [];
  }

  lemma TitleStart(b: Section)
    requires WellWritten(b)
    ensures FirstWord(Title(b)) == "backend"
  {
    TitleFields(b);
  }

  lemma OptionsIgnoreServers(b: Section)
    ensures OptionLines(Stripped(b)) == OptionLines(b) && Title(Stripped(b)) == Title(b)
  {
    assert OptionWords(Stripped(b)) == OptionWords(b);
  }

  function AllStripped(bs: seq<Section>): (r: seq<Section>)
    ensures |r| == |bs| && forall k :: 0 <= k < |bs| ==> r[k] == Stripped(bs[k])
  {
    seq(|bs|, k requires 0 <= k < |bs| => Stripped(bs[k]))
  }

  lemma {:induction false} StrippedFile(bs: seq<Section>)
    requires bs != [] && forall b :: b in bs ==> WellWritten(b)
    ensures WithoutServers(FileLines(bs)) == FileLines(AllStripped(bs))
    ensures forall b :: b in AllStripped(bs) ==> WellWritten(b)
    decreases |bs|
  {
    hide SectionLines, WellWritten, FirstWord, IsServerText, WithoutServers, OneLine;
    var last := bs[|bs| - 1];
    StrippedSection(last);
    if |bs| == 1 {
      HeaderStart();
      WithoutNone([Header()]);
      WithoutConcat([Header()], SectionLines(last));
    } else {
      var front := bs[..|bs| - 1];
      StrippedFile(front);
      assert AllStripped(bs)[..|bs| - 1] == AllStripped(front);
      EmptyLine();
      WithoutNone([""]);
      WithoutConcat(FileLines(front), [""]);
      WithoutConcat(FileLines(front) + [""], SectionLines(last));
      forall b | b in AllStripped(bs) ensures WellWritten(b) {
        assert b == Stripped(last) || b in AllStripped(front);
      }
    }
  }

  lemma HeaderStart()
    ensures FirstWord(Header()) != "server"
  {
    hide Fields, Spaced;
    SpacedStarts(HEADER_WORDS);
    assert Word("#");
    FieldsWord("#", Spaced(HEADER_WORDS));
  }

  /** The options of a written file. */
  function OptionsOf(bs: seq<Section>): string
    requires bs != []
  {
    JoinLines(WithoutServers(SplitLines(Terminated(FileLines(bs)))))
  }

  lemma OptionText(bs: seq<Section>)
    requires bs != [] && forall b :: b in bs ==> WellWritten(b)
    ensures var lines := FileLines(AllStripped(bs)) + [""];
      && WithoutServers(SplitLines(Terminated(FileLines(bs)))) == lines
      && (forall k :: 0 <= k < |lines| ==> OneLine(lines[k]))
      && Cut(lines) == [[Header()]] + Parts(AllStripped(bs))
  {
    hide Cut, WellWritten, FileLines, OneLine, FirstWord;
    FileLinesAre(bs);
    SplitTerminated(FileLines(bs));
    StrippedFile(bs);
    EmptyLine();
    WithoutNone([""]);
    WithoutConcat(FileLines(bs), [""]);
    FileLinesAre(AllStripped(bs));
  }

  lemma CutOptions(bs: seq<Section>)
    requires bs != [] && forall b :: b in bs ==> WellWritten(b)
    ensures Cut(SplitLines(OptionsOf(bs))) == [[Header()]] + Parts(AllStripped(bs))
  {
    hide WithoutServers, JoinLines, FileLines, Cut, WellWritten, OneLine, Terminated, Parts, AllStripped;
    hide SplitLines;
    OptionText(bs);
    SplitJoined(FileLines(AllStripped(bs)) + [""]);
  }

  /** Servers are no options: files that differ in nothing else have the same. */
  lemma ServersAreNoOptions(xs: seq<Section>, bs: seq<Section>)
    requires bs != [] && |xs| == |bs| && (forall a :: a in xs ==> WellWritten(a)) &&
      (forall b :: b in bs ==> WellWritten(b))
    requires forall k :: 0 <= k < |bs| ==> xs[k].(servers := []) == bs[k].(servers := [])
    ensures OptionsOf(xs) == OptionsOf(bs)
  {
    hide WithoutServers, JoinLines, FileLines, Cut, WellWritten, OneLine, Terminated, Parts;
    OptionText(xs);
    OptionText(bs);
    assert AllStripped(xs) == AllStripped(bs);
  }

  /** Files with the same options, as text, have the same backends in the same
      order, and agree on which of them keep clients by a cookie. */
  lemma SameOptions(xs: seq<Section>, bs: seq<Section>)
    requires xs != [] && bs != [] && (forall a :: a in xs ==> WellWritten(a)) &&
      (forall b :: b in bs ==> WellWritten(b))
    requires OptionsOf(xs) == OptionsOf(bs)
    ensures |xs| == |bs|
    ensures forall k :: 0 <= k < |bs| ==>
      xs[k].name == bs[k].name && (xs[k].affinity == "cookie" <==> bs[k].affinity == "cookie")
  {
    hide OptionsOf, Cut, WellWritten, Parts, AllStripped;
    CutOptions(xs);
    CutOptions(bs);
    SameTail([Header()], Parts(AllStripped(xs)), Parts(AllStripped(bs)));
    PartsTell(xs, bs);
  }

  lemma SameTail<T>(head: T, a: seq<T>, b: seq<T>)
    requires [head] + a == [head] + b
    ensures a == b
  {
    assert a == ([head] + a)[1..] && b == ([head] + b)[1..];
  }

  lemma PartsTell(xs: seq<Section>, bs: seq<Section>)
    requires (forall a :: a in xs ==> WellWritten(a)) && (forall b :: b in bs ==> WellWritten(b))
    requires Parts(AllStripped(xs)) == Parts(AllStripped(bs))
    ensures |xs| == |bs|
    ensures forall k :: 0 <= k < |bs| ==>
      xs[k].name == bs[k].name && (xs[k].affinity == "cookie" <==> bs[k].affinity == "cookie")
  {
    hide WellWritten, Part;
    assert |Parts(AllStripped(xs))| == |xs| && |Parts(AllStripped(bs))| == |bs|;
    forall k | 0 <= k < |bs| ensures xs[k].name == bs[k].name &&
      (xs[k].affinity == "cookie" <==> bs[k].affinity == "cookie")
    {
      assert Parts(AllStripped(xs))[k] == Part(Stripped(xs[k]));
      assert Parts(AllStripped(bs))[k] == Part(Stripped(bs[k]));
      assert xs[k] in xs && bs[k] in bs;
      PartTells(xs[k], bs[k]);
    }
  }

  lemma PartTells(a: Section, b: Section)
    requires WellWritten(a) && WellWritten(b) && Part(Stripped(a)) == Part(Stripped(b))
    ensures a.name == b.name && (a.affinity == "cookie" <==> b.affinity == "cookie")
  {
    hide WellWritten;
    var xs, ys := Part(Stripped(a)), Part(Stripped(b));
    assert Title(a) == xs[0] == ys[0] == Title(b);
    assert a.name + "_be" == Title(a)[8..] && b.name + "_be" == Title(b)[8..];
    assert (a.name + "_be")[..|a.name|] == a.name && (b.name + "_be")[..|b.name|] == b.name;
    CookieLine(a);
    CookieLine(b);
  }

  /** Whether a section keeps clients by a cookie shows in its sixth line. */
  lemma CookieLine(b: Section)
    requires WellWritten(b)
    ensures b.affinity == "cookie" <==> |Part(Stripped(b))| > 5 && FirstWord(Part(Stripped(b))[5]) == "cookie"
  {
    hide Fields, Indented, FirstWord;
    var lines := Part(Stripped(b));
    OptionsIgnoreServers(b);
    assert ServerLines(Stripped(b), 0) == [];
    assert lines == [Title(b)] + OptionLines(b) + b.rewrite + [""];
    if |OptionWords(b)| == 5 {
      assert lines[5] == OptionLines(b)[4];
      OptionIs(b, 4);
      IndentedWords(OptionWords(b)[4]);
    } else {
      EmptyLine();
      assert |OptionWords(b)| == 4;
      assert lines[5..] == b.rewrite + [""];
      assert lines[5] == (b.rewrite + [""])[0];
    }
  }
}
