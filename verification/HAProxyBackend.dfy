/** The HAProxy backend file of a service: how it is written, and how the Runtime
    API update reads it back. */
module HAProxyBackend {
  import opened Rollout
  import opened Text

  const HEADER_WORDS := ["Generated", "by", "docker-release", "for", "HAProxy"]

  /** The first line of every generated file. */
  function Header(): string {
    "#" + Spaced(HEADER_WORDS)
  }

  /** One backend section: its name, how it keeps clients on a server, and lines
      that rewrite the path. */
  datatype Section = Section(name: string, affinity: string, cookieName: string, servers: seq<Server>,
    rewrite: seq<string>)

  /** Names, addresses and extra lines as the checks on labels and addresses leave
      them. */
  predicate WellWritten(b: Section) {
    && Word(b.name + "_be") && Word(b.cookieName)
    && (forall i :: 0 <= i < |b.servers| ==> Word(b.servers[i].addr))
    && (forall i :: 0 <= i < |b.rewrite| ==> OneLine(b.rewrite[i]) && FirstWord(b.rewrite[i]) == "http-request")
  }

  function FirstWord(line: string): string {
    if Fields(line) == [] then "" else Fields(line)[0]
  }

  function ServerName(s: Server, i: nat): string {
    (if s.backup then "b" else "s") + Itoa(i + 1)
  }

  function WeightWords(s: Server): seq<string> {
    if s.weight > 0 then ["weight", Itoa(s.weight)] else []
  }

  function StateWords(s: Server): seq<string> {
    if s.down then ["disabled"] else if s.backup then ["backup"] else []
  }

  function CookieWords(b: Section, i: nat): seq<string>
    requires i < |b.servers|
  {
    if b.affinity == "cookie" && !b.servers[i].backup then ["cookie", "s" + Itoa(i + 1)] else []
  }

  /** The words of a server line after the name. */
  function Arguments(b: Section, i: nat): seq<string>
    requires i < |b.servers|
  {
    [b.servers[i].addr] + (WeightWords(b.servers[i]) + (StateWords(b.servers[i]) + CookieWords(b, i)))
  }

  lemma ArgumentsSplit(b: Section, i: nat)
    requires i < |b.servers|
    ensures Arguments(b, i) != [] && Arguments(b, i)[0] == b.servers[i].addr
    ensures Arguments(b, i)[1..] == WeightWords(b.servers[i]) + (StateWords(b.servers[i]) + CookieWords(b, i))
  {
    hide WeightWords, StateWords, CookieWords;
  }

  function ServerLine(b: Section, i: nat): string
    requires i < |b.servers|
  {
    Indented(["server", ServerName(b.servers[i], i)] + Arguments(b, i))
  }

  function ServerLines(b: Section, n: nat): seq<string>
    requires n <= |b.servers|
  {
    if n == 0 then [] else ServerLines(b, n - 1) + [ServerLine(b, n - 1)]
  }

  function OptionWords(b: Section): seq<seq<string>> {
    [["mode", "http"], ["option", "http-server-close"], ["http-reuse", "never"]]
    + (if b.affinity == "cookie" then [["balance", "roundrobin"],
      ["cookie", b.cookieName, "insert", "indirect", "nocache"]]
       else if b.affinity == "ip" then [["balance", "source"], ["hash-type", "consistent"]]
       else [["balance", "roundrobin"]])
  }

  function OptionLines(b: Section): (lines: seq<string>)
    ensures |lines| == |OptionWords(b)|
  {
    seq(|OptionWords(b)|, i requires 0 <= i < |OptionWords(b)| => Indented(OptionWords(b)[i]))
  }

  function Title(b: Section): string {
    "backend " + b.name + "_be"
  }

  function SectionLines(b: Section): seq<string> {
    [Title(b)] + OptionLines(b) + ServerLines(b, |b.servers|) + b.rewrite
  }

  lemma WithLine(lines: seq<string>, line: string)
    ensures Terminated(lines + [line]) == Terminated(lines) + line + "\n"
  {
    TerminatedConcat(lines, [line]);
    assert [line][1..] == [];
    assert Terminated([line]) == line + "\n";
  }

  lemma WithWord(words: seq<string>, word: string)
    ensures Spaced(words + [word]) == Spaced(words) + " " + word
  {
    SpacedConcat(words, [word]);
    assert [word][1..] == [];
    assert Spaced([word]) == " " + word;
  }

  method WriteLine(text: string, line: string, ghost lines: seq<string>) returns (r: string)
    requires text == Terminated(lines)
    ensures r == Terminated(lines + [line])
  {
    WithLine(lines, line);
    r := text + line + "\n";
  }

  method WriteOptions(text: string, b: Section, ghost lines: seq<string>) returns (r: string)
    requires text == Terminated(lines)
    ensures r == Terminated(lines + OptionLines(b))
  {
    hide Terminated;
    var options := [["mode", "http"], ["option", "http-server-close"], ["http-reuse", "never"]];
    if b.affinity == "cookie" {
      options := options + [["balance", "roundrobin"], ["cookie", b.cookieName, "insert", "indirect", "nocache"]];
    } else if b.affinity == "ip" {
      options := options + [["balance", "source"], ["hash-type", "consistent"]];
    } else {
      options := options + [["balance", "roundrobin"]];
    }
    assert options == OptionWords(b);
    hide OptionWords;
    r := text;
    assert lines + OptionLines(b)[..0] == lines;
    for i := 0 to |options|
      invariant r == Terminated(lines + OptionLines(b)[..i])
    {
      r := WriteLine(r, Indented(options[i]), lines + OptionLines(b)[..i]);
      assert lines + OptionLines(b)[..i + 1] == lines + OptionLines(b)[..i] + [Indented(options[i])];
    }
    assert OptionLines(b)[..|options|] == OptionLines(b);
  }

  /** Writes a backend: its title, its options and its servers. */
  method RenderBackend(b: Section) returns (text: string)
    ensures text == Terminated([Title(b)] + OptionLines(b) + ServerLines(b, |b.servers|))
  {
    hide Terminated, ServerLine, OptionLines;
    text := WriteLine(Terminated([]), "backend " + b.name + "_be", []);
    assert [] + [Title(b)] == [Title(b)];
    text := WriteOptions(text, b, [Title(b)]);
    assert [Title(b)] + OptionLines(b) == [Title(b)] + OptionLines(b) + ServerLines(b, 0);
    for i := 0 to |b.servers|
      invariant text == Terminated([Title(b)] + OptionLines(b) + ServerLines(b, i))
    {
      var line := RenderServer(b, i);
      text := WriteLine(text, line, [Title(b)] + OptionLines(b) + ServerLines(b, i));
      assert [Title(b)] + OptionLines(b) + ServerLines(b, i + 1) ==
        [Title(b)] + OptionLines(b) + ServerLines(b, i) + [line];
    }
  }

  method WriteWord(line: string, word: string, ghost words: seq<string>) returns (r: string)
    requires line == Indented(words)
    ensures r == Indented(words + [word])
  {
    WithWord(words, word);
    r := line + " " + word;
  }

  method RenderServer(b: Section, i: nat) returns (line: string)
    requires i < |b.servers|
    ensures line == ServerLine(b, i)
  {
    hide Spaced, Itoa, Indented, ServerName, WeightWords, StateWords, CookieWords;
    var s := b.servers[i];
    line := WriteWord(Indented([]), "server", []);
    line := WriteWord(line, ServerName(s, i), [] + ["server"]);
    line := WriteWord(line, s.addr, [] + ["server"] + [ServerName(s, i)]);
    var words := [] + ["server"] + [ServerName(s, i)] + [s.addr];
    line := WriteAttributes(line, b, i, words);
    ArgumentsSplit(b, i);
    assert words + WeightWords(s) + StateWords(s) + CookieWords(b, i) == ["server", ServerName(s, i)] + Arguments(b, i);
  }

  method WriteAttributes(text: string, b: Section, i: nat, ghost words: seq<string>) returns (line: string)
    requires i < |b.servers| && text == Indented(words)
    ensures line == Indented(words + WeightWords(b.servers[i]) + StateWords(b.servers[i]) + CookieWords(b, i))
  {
    hide Spaced, Itoa, Indented;
    var s := b.servers[i];
    line := text;
    ghost var all := words;
    if s.weight > 0 {
      line := WriteWord(line, "weight", all);
      line := WriteWord(line, Itoa(s.weight), all + ["weight"]);
      all := all + ["weight"] + [Itoa(s.weight)];
    }
    assert all == words + WeightWords(s);
    if s.down {
      line := WriteWord(line, "disabled", all);
      all := all + ["disabled"];
    } else if s.backup {
      line := WriteWord(line, "backup", all);
      all := all + ["backup"];
    }
    assert all == words + WeightWords(s) + StateWords(s);
    if b.affinity == "cookie" && !s.backup {
      line := WriteWord(line, "cookie", all);
      line := WriteWord(line, "s" + Itoa(i + 1), all + ["cookie"]);
      all := all + ["cookie"] + ["s" + Itoa(i + 1)];
    }
    assert all == words + WeightWords(s) + StateWords(s) + CookieWords(b, i);
  }

  // ------------------------------------------------------------- whole files

  /** The lines of a file: the main section under the header, and each further
      section after an empty line. */
  function FileLines(bs: seq<Section>): seq<string>
    requires bs != []
    decreases |bs|
  {
    if |bs| == 1 then [Header()] + SectionLines(bs[0])
    else FileLines(bs[..|bs| - 1]) + [""] + SectionLines(bs[|bs| - 1])
  }

  method WriteRewrite(text: string, b: Section, ghost lines: seq<string>) returns (r: string)
    requires text == Terminated(lines)
    ensures r == Terminated(lines + b.rewrite)
  {
    r := text;
    assert lines + b.rewrite[..0] == lines;
    for i := 0 to |b.rewrite|
      invariant r == Terminated(lines + b.rewrite[..i])
    {
      r := WriteLine(r, b.rewrite[i], lines + b.rewrite[..i]);
      assert lines + b.rewrite[..i + 1] == lines + b.rewrite[..i] + [b.rewrite[i]];
    }
    assert b.rewrite[..|b.rewrite|] == b.rewrite;
  }

  /** Writes a service's backend file: its main backend, and those of a live
      preview after it. */
  method RenderFile(main: Section, extra: seq<Section>) returns (text: string)
    ensures text == Terminated(FileLines([main] + extra))
  {
    hide Terminated, SectionLines;
    text := WriteLine(Terminated([]), Header(), []);
    assert [] + [Header()] == [Header()];
    text := WriteSection(text, main, [Header()]);
    assert [main] + extra[..0] == [main];
    for k := 0 to |extra|
      invariant text == Terminated(FileLines([main] + extra[..k]))
    {
      var bs := [main] + extra[..k + 1];
      assert bs[..|bs| - 1] == [main] + extra[..k];
      text := WriteLine(text, "", FileLines([main] + extra[..k]));
      text := WriteSection(text, extra[k], FileLines([main] + extra[..k]) + [""]);
    }
    assert extra[..|extra|] == extra;
  }

  /** Writes a section behind what there is. */
  method WriteSection(text: string, b: Section, ghost lines: seq<string>) returns (r: string)
    requires text == Terminated(lines)
    ensures r == Terminated(lines + SectionLines(b))
  {
    hide Terminated, Title, OptionLines, ServerLines;
    var conf := RenderBackend(b);
    var own := [Title(b)] + OptionLines(b) + ServerLines(b, |b.servers|);
    TerminatedConcat(lines, own);
    r := WriteRewrite(text + conf, b, lines + own);
    assert lines + own + b.rewrite == lines + SectionLines(b);
  }

  // ------------------------------------------------------------ reading back

  predicate IsTitle(line: string) {
    FirstWord(line) == "backend"
  }

  /** The parts so far, with one more line. */
  function CutAdd(parts: seq<seq<string>>, line: string): seq<seq<string>> {
    if parts == [] || IsTitle(line) then parts + [[line]]
    else parts[..|parts| - 1] + [parts[|parts| - 1] + [line]]
  }

  /** The lines cut in front of each title. */
  function Cut(lines: seq<string>): seq<seq<string>> {
    if lines == [] then [] else CutAdd(Cut(lines[..|lines| - 1]), lines[|lines| - 1])
  }

  lemma CutSnoc(lines: seq<string>, line: string)
    ensures Cut(lines + [line]) == CutAdd(Cut(lines), line)
  {
    assert (lines + [line])[..|lines|] == lines;
  }

  method SplitBackends(text: string) returns (sections: seq<string>)
    ensures |sections| == |Cut(SplitLines(text))|
    ensures forall i :: 0 <= i < |sections| ==> sections[i] == JoinLines(Cut(SplitLines(text))[i])
  {
    hide IsTitle, Cut, CutAdd, JoinLines;
    var lines := SplitLines(text);
    assert Cut([]) == [] by { CutNone(); }
    var current: seq<string> := [];
    ghost var done: seq<seq<string>> := [];
    sections := [];
    for i := 0 to |lines|
      invariant |sections| == |done| && forall k :: 0 <= k < |done| ==> sections[k] == JoinLines(done[k])
      invariant Cut(lines[..i]) == if current == [] then done else done + [current]
      invariant current == [] ==> done == [] && i == 0
    {
      assert lines[..i + 1] == lines[..i] + [lines[i]];
      CutSnoc(lines[..i], lines[i]);
      CutAdds(done, current, lines[i]);
      assert [] + [lines[i]] == [lines[i]] && [] + [[lines[i]]] == [[lines[i]]];
      var words := Fields(lines[i]);
      if |words| > 0 && words[0] == "backend" {
        assert IsTitle(lines[i]) by { TitleIs(lines[i]); }
        if |current| > 0 {
          sections := sections + [JoinLines(current)];
          done := done + [current];
        }
        current := [];
      } else {
        assert !IsTitle(lines[i]) by { TitleIs(lines[i]); }
      }
      current := current + [lines[i]];
    }
    assert lines[..|lines|] == lines;
    if |current| > 0 {
      sections := sections + [JoinLines(current)];
    }
  }

  lemma TitleIs(line: string)
    ensures IsTitle(line) <==> Fields(line) != [] && Fields(line)[0] == "backend"
  {
  }

  lemma CutNone()
    ensures Cut([]) == []
  {
  }

  lemma CutAdds(done: seq<seq<string>>, current: seq<string>, line: string)
    ensures current != [] ==>
      CutAdd(done + [current], line) == if IsTitle(line) then done + [current] + [[line]] else done + [current + [line]]
    ensures CutAdd([], line) == [[line]]
  {
  }

  function Flatten(groups: seq<seq<string>>): seq<string> {
    if groups == [] then [] else Flatten(groups[..|groups| - 1]) + groups[|groups| - 1]
  }

  lemma FlattenSnoc(groups: seq<seq<string>>, group: seq<string>)
    ensures Flatten(groups + [group]) == Flatten(groups) + group
  {
    assert (groups + [group])[..|groups|] == groups;
  }

  predicate Headed(parts: seq<seq<string>>) {
    forall i :: 0 <= i < |parts| ==> parts[i] != [] && forall j :: 1 <= j < |parts[i]| ==> !IsTitle(parts[i][j])
  }

  lemma CutAddIsWhole(parts: seq<seq<string>>, line: string)
    requires Headed(parts)
    ensures Flatten(CutAdd(parts, line)) == Flatten(parts) + [line] && Headed(CutAdd(parts, line))
  {
    hide IsTitle, Flatten;
    if parts == [] || IsTitle(line) {
      FlattenSnoc(parts, [line]);
    } else {
      var rest, last := parts[..|parts| - 1], parts[|parts| - 1];
      assert parts == rest + [last];
      FlattenSnoc(rest, last);
      FlattenSnoc(rest, last + [line]);
    }
  }

  /** Cutting loses no line, and leaves at most one title in each part, at its
      beginning. */
  lemma {:induction false} CutIsWhole(lines: seq<string>)
    ensures Flatten(Cut(lines)) == lines && Headed(Cut(lines))
  {
    hide CutAdd;
    if lines != [] {
      CutIsWhole(lines[..|lines| - 1]);
      CutAddIsWhole(Cut(lines[..|lines| - 1]), lines[|lines| - 1]);
    }
  }

  lemma {:induction false} CutSection(lines: seq<string>, title: string, body: seq<string>)
    requires IsTitle(title) && forall i :: 0 <= i < |body| ==> !IsTitle(body[i])
    ensures Cut(lines + [title] + body) == Cut(lines) + [[title] + body]
  {
    hide IsTitle, Cut;
    if body == [] {
      assert lines + [title] + body == lines + [title] && [title] + body == [title];
      CutSnoc(lines, title);
    } else {
      var shorter, line := body[..|body| - 1], body[|body| - 1];
      assert lines + [title] + body == lines + [title] + shorter + [line];
      CutSection(lines, title, shorter);
      CutSnoc(lines + [title] + shorter, line);
      CutAdds(Cut(lines), [title] + shorter, line);
      assert [title] + shorter + [line] == [title] + body;
    }
  }

  /** A server as the update reads it from its line. */
  datatype Listed = Listed(name: string, addr: string, weight: string, maint: bool, args: seq<string>)

  /** Reads the words after the address; nothing when the line ends in `weight`. */
  function Flags(words: seq<string>, l: Listed): Option<Listed> {
    if words == [] then Some(l)
    else if words[0] == "weight" then
      if |words| < 2 then None else Flags(words[2..], l.(weight := words[1]))
    else if words[0] == "disabled" then Flags(words[1..], l.(maint := true))
    else Flags(words[1..], l)
  }

  /** Reads a server line; nothing when it has no address. */
  function ParseServer(words: seq<string>): Option<Listed> {
    if |words| < 3 then None
    else Flags(words[3..], Listed(words[1], words[2], "1", false, words[2..]))
  }

  datatype Parsed = Parsed(backend: string, servers: seq<Listed>)

  /** What one line adds. Lines with less than two words are passed over. */
  function ParseLine(p: Parsed, line: string): Option<Parsed> {
    var words := Fields(line);
    if |words| < 2 then Some(p)
    else if words[0] == "backend" then Some(p.(backend := words[1]))
    else if words[0] != "server" then Some(p)
    else if ParseServer(words).None? then None
    else Some(p.(servers := p.servers + [ParseServer(words).value]))
  }

  function Parse(lines: seq<string>): Option<Parsed> {
    if lines == [] then Some(Parsed("", []))
    else
      var p := Parse(lines[..|lines| - 1]);
      if p.None? then None else ParseLine(p.value, lines[|lines| - 1])
  }

  method BackendServers(text: string) returns (p: Option<Parsed>)
    ensures p == Parse(SplitLines(text))
  {
    var lines := SplitLines(text);
    p := Some(Parsed("", []));
    for i := 0 to |lines|
      invariant p == Parse(lines[..i]) && p.Some?
    {
      assert lines[..i + 1][..i] == lines[..i];
      var words := Fields(lines[i]);
      if |words| < 2 {
        continue;
      }
      if words[0] == "backend" {
        p := Some(p.value.(backend := words[1]));
      }
      if words[0] != "server" {
        continue;
      }
      var server := ReadServer(words);
      if server.None? {
        ParseFails(lines, i + 1, |lines|);
        assert lines[..|lines|] == lines;
        return None;
      }
      p := Some(p.value.(servers := p.value.servers + [server.value]));
    }
    assert lines[..|lines|] == lines;
  }

  lemma {:induction false} ParseFails(lines: seq<string>, i: nat, n: nat)
    requires i <= n <= |lines| && Parse(lines[..i]).None?
    ensures Parse(lines[..n]).None?
    decreases n
  {
    if i < n {
      ParseFails(lines, i, n - 1);
      assert lines[..n][..n - 1] == lines[..n - 1];
    }
  }

  method ReadServer(words: seq<string>) returns (r: Option<Listed>)
    requires |words| >= 2
    ensures r == ParseServer(words)
  {
    if |words| < 3 {
      return None;
    }
    var l := Listed(words[1], words[2], "1", false, words[2..]);
    var i := 3;
    while i < |words|
      invariant 3 <= i <= |words| && Flags(words[i..], l) == ParseServer(words)
    {
      if words[i] == "weight" {
        i := i + 1;
        if i >= |words| {
          return None;
        }
        assert words[i - 1..][2..] == words[i + 1..];
        l := l.(weight := words[i]);
      } else if words[i] == "disabled" {
        assert words[i..][1..] == words[i + 1..];
        l := l.(maint := true);
      } else {
        assert words[i..][1..] == words[i + 1..];
      }
      i := i + 1;
    }
    return Some(l);
  }

  // ------------------------------------------------------------- round trips

  /** The servers a section lists. */
  function ListedOf(b: Section, i: nat): Listed
    requires i < |b.servers|
  {
    var s := b.servers[i];
    Listed(ServerName(s, i), s.addr, if s.weight > 0 then Itoa(s.weight) else "1", s.down, Arguments(b, i))
  }

  function ListedUpTo(b: Section, n: nat): (r: seq<Listed>)
    requires n <= |b.servers|
    ensures |r| == n && forall i :: 0 <= i < n ==> r[i] == ListedOf(b, i)
  {
    if n == 0 then [] else ListedUpTo(b, n - 1) + [ListedOf(b, n - 1)]
  }

  lemma WordsOf(a: seq<string>, b: seq<string>)
    requires (forall k :: 0 <= k < |a| ==> Word(a[k])) && (forall k :: 0 <= k < |b| ==> Word(b[k]))
    ensures forall k :: 0 <= k < |a + b| ==> Word((a + b)[k])
  {
    hide Word;
  }

  lemma NameWord(n: nat)
    ensures Word("s" + Itoa(n)) && Word("b" + Itoa(n))
  {
    ItoaIsWord(n);
  }

  lemma PartWords(b: Section, i: nat)
    requires i < |b.servers|
    ensures forall k :: 0 <= k < |WeightWords(b.servers[i])| ==> Word(WeightWords(b.servers[i])[k])
    ensures forall k :: 0 <= k < |StateWords(b.servers[i])| ==> Word(StateWords(b.servers[i])[k])
    ensures forall k :: 0 <= k < |CookieWords(b, i)| ==> Word(CookieWords(b, i)[k])
  {
    hide Itoa;
    NameWord(i + 1);
    assert Word("weight") && Word("disabled") && Word("backup") && Word("cookie");
    hide Word;
    if b.servers[i].weight > 0 {
      ItoaIsWord(b.servers[i].weight);
    }
  }

  lemma ArgumentWords(b: Section, i: nat)
    requires WellWritten(b) && i < |b.servers|
    ensures forall k :: 0 <= k < |Arguments(b, i)| ==> Word(Arguments(b, i)[k])
    ensures Word(ServerName(b.servers[i], i))
  {
    hide Word, WeightWords, StateWords, CookieWords, Itoa, FirstWord, Fields;
    PartWords(b, i);
    NameWord(i + 1);
    var s := b.servers[i];
    WordsOf(StateWords(s), CookieWords(b, i));
    WordsOf(WeightWords(s), StateWords(s) + CookieWords(b, i));
    WordsOf([s.addr], WeightWords(s) + (StateWords(s) + CookieWords(b, i)));
  }

  lemma ServerFields(b: Section, i: nat)
    requires WellWritten(b) && i < |b.servers|
    ensures Fields(ServerLine(b, i)) == ["server", ServerName(b.servers[i], i)] + Arguments(b, i)
    ensures OneLine(ServerLine(b, i))
  {
    hide Fields, Itoa, Indented;
    ArgumentWords(b, i);
    assert Word("server");
    IndentedWords(["server", ServerName(b.servers[i], i)] + Arguments(b, i));
  }

  lemma {:induction false} FlagsSkip(words: seq<string>, l: Listed)
    requires forall k :: 0 <= k < |words| ==> words[k] != "weight" && words[k] != "disabled"
    ensures Flags(words, l) == Some(l)
  {
    if words != [] {
      FlagsSkip(words[1..], l);
    }
  }

  lemma FlagsWeight(s: Server, rest: seq<string>, l: Listed)
    ensures Flags(WeightWords(s) + rest, l)
         == Flags(rest, if s.weight > 0 then l.(weight := Itoa(s.weight)) else l)
  {
    hide Itoa;
    if s.weight > 0 {
      assert (["weight", Itoa(s.weight)] + rest)[2..] == rest;
    } else {
      assert [] + rest == rest;
    }
  }

  lemma FlagsState(s: Server, rest: seq<string>, l: Listed)
    requires !l.maint
    ensures Flags(StateWords(s) + rest, l) == Flags(rest, l.(maint := s.down))
  {
    if s.down {
      assert (["disabled"] + rest)[1..] == rest;
    } else if s.backup {
      assert (["backup"] + rest)[1..] == rest;
    } else {
      assert [] + rest == rest;
    }
  }

  lemma ServerRoundTrip(b: Section, i: nat)
    requires WellWritten(b) && i < |b.servers|
    ensures ParseServer(Fields(ServerLine(b, i))) == Some(ListedOf(b, i))
  {
    hide Itoa, Flags, Fields, Spaced, WellWritten, ServerName, WeightWords, StateWords, CookieWords;
    hide Arguments;
    ServerFields(b, i);
    var s := b.servers[i];
    var words := ["server", ServerName(s, i)] + Arguments(b, i);
    assert words[2..] == Arguments(b, i);
    ArgumentsSplit(b, i);
    assert words[3..] == Arguments(b, i)[1..];
    var l := Listed(ServerName(s, i), s.addr, "1", false, Arguments(b, i));
    FlagsWeight(s, StateWords(s) + CookieWords(b, i), l);
    var l' := if s.weight > 0 then l.(weight := Itoa(s.weight)) else l;
    FlagsState(s, CookieWords(b, i), l');
    FlagsCookie(b, i, l'.(maint := s.down));
  }

  lemma FlagsCookie(b: Section, i: nat, l: Listed)
    requires i < |b.servers|
    ensures Flags(CookieWords(b, i), l) == Some(l)
  {
    hide Itoa;
    assert ("s" + Itoa(i + 1))[0] == 's';
    FlagsSkip(CookieWords(b, i), l);
  }

  lemma {:induction false} ParseTail(lines: seq<string>, more: seq<string>)
    requires Parse(lines).Some? && forall k :: 0 <= k < |more| ==>
      FirstWord(more[k]) != "server" && FirstWord(more[k]) != "backend"
    ensures Parse(lines + more) == Parse(lines)
  {
    if more == [] {
      assert lines + more == lines;
    } else {
      assert (lines + more)[..|lines + more| - 1] == lines + more[..|more| - 1];
      ParseTail(lines, more[..|more| - 1]);
    }
  }

  lemma {:induction false} ParseServers(b: Section, lines: seq<string>, n: nat)
    requires WellWritten(b) && n <= |b.servers|
    requires Parse(lines) == Some(Parsed(b.name + "_be", []))
    ensures Parse(lines + ServerLines(b, n)) == Some(Parsed(b.name + "_be", ListedUpTo(b, n)))
  {
    hide ServerLine, WellWritten, Arguments, Fields, ServerName, ListedOf, ParseServer;
    if n == 0 {
      assert lines + ServerLines(b, 0) == lines;
    } else {
      var all := lines + ServerLines(b, n);
      assert all[..|all| - 1] == lines + ServerLines(b, n - 1);
      ParseServers(b, lines, n - 1);
      ServerRoundTrip(b, n - 1);
      ServerFields(b, n - 1);
    }
  }

  lemma TitleFields(b: Section)
    requires WellWritten(b)
    ensures Fields(Title(b)) == ["backend", b.name + "_be"] && IsTitle(Title(b)) && OneLine(Title(b))
  {
    assert Word("backend");
    var name := b.name + "_be";
    assert Title(b) == "backend" + (" " + name);
    FieldsWord("backend", " " + name);
    assert (" " + name)[1..] == name;
    FieldsWord(name, "");
    assert name + "" == name;
    forall i | 0 <= i < |Title(b)| ensures Title(b)[i] != '\n' {
      if i >= 8 {
        assert Title(b)[i] == name[i - 8];
      }
    }
  }

  /** An indented line of words is one line, and its words come back. */
  lemma IndentedWords(words: seq<string>)
    requires forall k :: 0 <= k < |words| ==> Word(words[k])
    ensures Fields(Indented(words)) == words && OneLine(Indented(words))
    ensures words != [] ==> FirstWord(Indented(words)) == words[0]
  {
    hide Fields, Spaced;
    FieldsSpaced(words);
    FieldsIndented("   ", Spaced(words));
    SpacedOneLine(words);
  }

  /** Every option line starts with a word that is neither `server` nor `backend`,
      and is one line. */
  lemma OptionsAre(b: Section)
    requires WellWritten(b)
    ensures forall k :: 0 <= k < |OptionLines(b)| ==>
      FirstWord(OptionLines(b)[k]) != "server" && FirstWord(OptionLines(b)[k]) != "backend" &&
        OneLine(OptionLines(b)[k])
  {
    hide Fields, Indented, FirstWord, OneLine;
    forall k | 0 <= k < |OptionLines(b)|
      ensures FirstWord(OptionLines(b)[k]) != "server" && FirstWord(OptionLines(b)[k]) != "backend" &&
        OneLine(OptionLines(b)[k])
    {
      OptionIs(b, k);
      IndentedWords(OptionWords(b)[k]);
    }
  }

  lemma OptionIs(b: Section, k: nat)
    requires WellWritten(b) && k < |OptionWords(b)|
    ensures OptionWords(b)[k] != [] && OptionWords(b)[k][0] != "server" && OptionWords(b)[k][0] != "backend"
    ensures forall i :: 0 <= i < |OptionWords(b)[k]| ==> Word(OptionWords(b)[k][i])
  {
  }

  /** What a section says beside its servers: its title, HTTP with a backend connection
      for each request, how its affinity keeps clients on a server, and at its end the
      lines that rewrite the path. */
  lemma SectionSays(b: Section)
    requires WellWritten(b)
    ensures var lines := SectionLines(b);
      var options := [["mode", "http"], ["option", "http-server-close"], ["http-reuse", "never"]] +
        if b.affinity == "cookie" then
          [["balance", "roundrobin"], ["cookie", b.cookieName, "insert", "indirect", "nocache"]]
        else if b.affinity == "ip" then [["balance", "source"], ["hash-type", "consistent"]]
        else [["balance", "roundrobin"]];
      && |lines| == 1 + |options| + |b.servers| + |b.rewrite|
      && lines[0] == "backend " + b.name + "_be"
      && (forall k :: 0 <= k < |options| ==> Fields(lines[1 + k]) == options[k])
      && (forall k :: 0 <= k < |b.rewrite| ==> lines[1 + |options| + |b.servers| + k] == b.rewrite[k])
  {
    hide Fields, Indented, ServerLines;
    ServerLinesAre(b, |b.servers|);
    forall k | 0 <= k < |OptionWords(b)| ensures Fields(OptionLines(b)[k]) == OptionWords(b)[k] {
      OptionIs(b, k);
      IndentedWords(OptionWords(b)[k]);
    }
    var lines := SectionLines(b);
    forall k | 0 <= k < |OptionWords(b)| ensures lines[1 + k] == OptionLines(b)[k] {
    }
  }

  lemma {:induction false} ServerLinesAre(b: Section, n: nat)
    requires WellWritten(b) && n <= |b.servers|
    ensures |ServerLines(b, n)| == n
    ensures forall k :: 0 <= k < n ==> FirstWord(ServerLines(b, n)[k]) == "server" && OneLine(ServerLines(b, n)[k])
  {
    hide ServerLine, Fields, WellWritten;
    if n > 0 {
      ServerLinesAre(b, n - 1);
      ServerFields(b, n - 1);
    }
  }

  function Body(b: Section): seq<string> {
    OptionLines(b) + ServerLines(b, |b.servers|) + b.rewrite
  }

  lemma BodyLines(b: Section)
    requires WellWritten(b)
    ensures forall k :: 0 <= k < |Body(b)| ==> !IsTitle(Body(b)[k]) && OneLine(Body(b)[k])
  {
    hide Fields, ServerLine, OptionLines;
    OptionsAre(b);
    ServerLinesAre(b, |b.servers|);
  }

  /** A section as it is cut out of a file: with the empty line behind it. */
  function Part(b: Section): seq<string> {
    SectionLines(b) + [""]
  }

  /** Reading a section gives its backend and exactly its servers, in order, with
      address, weight (1 if none is given) and state. */
  lemma SectionRoundTrip(b: Section)
    requires WellWritten(b)
    ensures Parse(Part(b)) == Some(Parsed(b.name + "_be", ListedUpTo(b, |b.servers|)))
  {
    hide ServerLine, OptionLines, ServerLines, ListedUpTo, Title, Fields;
    var n := |b.servers|;
    TitleFields(b);
    OptionsAre(b);
    assert Parse([Title(b)]) == Some(Parsed(b.name + "_be", [])) by {
      assert [Title(b)][..0] == [];
    }
    ParseTail([Title(b)], OptionLines(b));
    ParseServers(b, [Title(b)] + OptionLines(b), n);
    assert FirstWord("") == "" by { EmptyLine(); }
    ParseTail([Title(b)] + OptionLines(b) + ServerLines(b, n), b.rewrite + [""]);
    assert Part(b) == [Title(b)] + OptionLines(b) + ServerLines(b, n) + (b.rewrite + [""]);
  }

  lemma EmptyLine()
    ensures FirstWord("") == "" && OneLine("") && !IsTitle("")
  {
  }

  lemma HeaderLine()
    ensures OneLine(Header()) && !IsTitle(Header())
  {
    hide Fields, Spaced;
    assert forall i :: 0 <= i < |HEADER_WORDS| ==> OneLine(HEADER_WORDS[i]);
    SpacedOneLine(HEADER_WORDS);
    SpacedStarts(HEADER_WORDS);
    FieldsWord("#", Spaced(HEADER_WORDS));
  }

  lemma SpacedStarts(words: seq<string>)
    ensures Spaced(words) != "" ==> Blank(Spaced(words)[0])
  {
  }

  function Parts(bs: seq<Section>): (r: seq<seq<string>>)
    ensures |r| == |bs| && forall k :: 0 <= k < |bs| ==> r[k] == Part(bs[k])
  {
    if bs == [] then [] else Parts(bs[..|bs| - 1]) + [Part(bs[|bs| - 1])]
  }

  lemma PartIs(b: Section)
    ensures SectionLines(b) == [Title(b)] + Body(b) && Part(b) == [Title(b)] + (Body(b) + [""])
  {
    hide Title, OptionLines, ServerLines;
  }

  lemma CutPart(lines: seq<string>, b: Section)
    requires WellWritten(b)
    ensures Cut(lines + SectionLines(b) + [""]) == Cut(lines) + [Part(b)]
  {
    hide Title, Body, Cut, IsTitle, SectionLines, Part, OneLine, WellWritten;
    BodyLines(b);
    TitleFields(b);
    EmptyLine();
    PartIs(b);
    assert lines + SectionLines(b) + [""] == lines + [Title(b)] + (Body(b) + [""]);
    CutSection(lines, Title(b), Body(b) + [""]);
  }

  lemma SectionOneLine(b: Section)
    requires WellWritten(b)
    ensures forall k :: 0 <= k < |SectionLines(b)| ==> OneLine(SectionLines(b)[k])
  {
    hide Title, Body, SectionLines, Part, OneLine, WellWritten, IsTitle;
    BodyLines(b);
    TitleFields(b);
    PartIs(b);
  }

  lemma {:induction false} FileLinesAre(bs: seq<Section>)
    requires bs != [] && forall b :: b in bs ==> WellWritten(b)
    ensures forall k :: 0 <= k < |FileLines(bs)| ==> OneLine(FileLines(bs)[k])
    ensures Cut(FileLines(bs) + [""]) == [[Header()]] + Parts(bs)
    decreases |bs|
  {
    hide SectionLines, IsTitle, Cut, OneLine, WellWritten, Part;
    var last := bs[|bs| - 1];
    SectionOneLine(last);
    EmptyLine();
    if |bs| == 1 {
      HeaderLine();
      assert Cut([Header()]) == [[Header()]] by { CutHeader(); }
      assert bs[..0] == [] && Parts(bs) == [] + [Part(last)];
      CutPart([Header()], last);
    } else {
      var front := bs[..|bs| - 1];
      FileLinesAre(front);
      CutPart(FileLines(front) + [""], last);
    }
  }

  lemma CutHeader()
    ensures Cut([Header()]) == [[Header()]]
  {
    hide IsTitle;
    CutSnoc([], Header());
    CutNone();
    assert [] + [Header()] == [Header()];
  }

  /** A written file is cut into its header and its sections, each with its own
      backend and nothing of the others; put together again they are the file. */
  lemma FileRoundTrip(bs: seq<Section>)
    requires bs != [] && forall b :: b in bs ==> WellWritten(b)
    ensures var text := Terminated(FileLines(bs));
      Cut(SplitLines(text)) == [[Header()]] + Parts(bs) && JoinLines(Flatten(Cut(SplitLines(text)))) == text
  {
    var text := Terminated(FileLines(bs));
    FileLinesAre(bs);
    SplitTerminated(FileLines(bs));
    CutIsWhole(SplitLines(text));
    JoinSplit(text);
  }
}
