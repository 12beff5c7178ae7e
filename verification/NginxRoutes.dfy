/** The hosts of nginx and Angie route files: no host may be served by two
    services. */
module NginxRoutes {
  import opened Rollout
  import opened Text
  import opened ConfigFiles

  function TrimSemicolon(s: string): string {
    if s != "" && s[|s| - 1] == ';' then s[..|s| - 1] else s
  }

  function LowerAll(words: seq<string>): (r: seq<string>)
    ensures |r| == |words| && forall i :: 0 <= i < |words| ==> r[i] == Lower(words[i])
  {
    seq(|words|, i requires 0 <= i < |words| => Lower(words[i]))
  }

  /** The hosts one line names. */
  function LineNames(line: string): seq<string> {
    var words := Fields(TrimSemicolon(TrimSpace(line)));
    if |words| > 1 && words[0] == "server_name" then LowerAll(words[1..]) else []
  }

  function NamesIn(lines: seq<string>): seq<string> {
    if lines == [] then [] else NamesIn(lines[..|lines| - 1]) + LineNames(lines[|lines| - 1])
  }

  /** The hosts that a route file serves. */
  function ServerNames(text: string): seq<string> {
    NamesIn(SplitLines(text))
  }

  method NginxServerNames(text: string) returns (hosts: seq<string>)
    ensures hosts == ServerNames(text)
  {
    hide LineNames;
    var lines := SplitLines(text);
    hosts := [];
    for i := 0 to |lines|
      invariant hosts == NamesIn(lines[..i])
    {
      assert lines[..i + 1][..i] == lines[..i];
      var names := NamesOnLine(lines[i]);
      hosts := hosts + names;
    }
    assert lines[..|lines|] == lines;
  }

  method NamesOnLine(line: string) returns (hosts: seq<string>)
    ensures hosts == LineNames(line)
  {
    hide TrimSemicolon, TrimLeft, TrimRight, Fields;
    var words := Fields(TrimSemicolon(TrimSpace(line)));
    hosts := [];
    if |words| > 1 && words[0] == "server_name" {
      for k := 1 to |words|
        invariant hosts == LowerAll(words[1..k])
      {
        assert LowerAll(words[1..k + 1]) == LowerAll(words[1..k]) + [Lower(words[k])];
        hosts := hosts + [Lower(words[k])];
      }
      assert words[1..|words|] == words[1..];
    }
  }

  predicate IsServerFile(f: File) {
    f.ext == ".server"
  }

  function NamesOf(content: Option<string>): seq<string> {
    if content.Some? then ServerNames(content.value) else []
  }

  /** No host is in two route files. */
  ghost predicate Apart(files: Files) {
    forall f, g, h :: f in files && g in files && IsServerFile(f) && IsServerFile(g) ==>
      h in ServerNames(files[f]) && h in ServerNames(files[g]) ==> f == g
  }

  /** Whether a change would serve a host that a file it does not touch serves. */
  ghost predicate Conflict(files: Files, changes: Changes) {
    exists f, h :: NewHost(changes, h)
      && f in files && f !in changes && IsServerFile(f) && h in ServerNames(files[f])
  }

  /** Whether a route file among the changes names this host. */
  ghost predicate NewHost(changes: Changes, h: string) {
    exists c :: c in changes && IsServerFile(c) && h in NamesOf(changes[c])
  }

  /** Whether the changes clash with the other route files. If they name a host, another
      route file that cannot be read is an error too. */
  method CheckRouteConflicts(files: Files, unreadable: set<File>, changes: Changes) returns (ok: bool)
    ensures Conflict(files, changes) ==> !ok
    ensures !Conflict(files, changes) ==>
      (ok <==> (exists h :: NewHost(changes, h)) ==>
                 forall f :: f in files && f !in changes && IsServerFile(f) ==> f !in unreadable)
  {
    hide ServerNames;
    ok := true;
    var hosts := GatherHosts(changes);
    if hosts == {} {
      return;
    }
    assert exists h :: NewHost(changes, h) by {
      var h :| h in hosts;
      assert NewHost(changes, h);
    }
    var todo := files.Keys;
    while todo != {}
      invariant todo <= files.Keys
      invariant forall f, h :: f in files && f !in todo && f !in changes && IsServerFile(f) ==>
        h in ServerNames(files[f]) ==> h !in hosts
      invariant forall f :: f in files && f !in todo && f !in changes && IsServerFile(f) ==> f !in unreadable
      decreases |todo|
    {
      var f :| f in todo;
      todo := todo - {f};
      if f in changes || !IsServerFile(f) {
        continue;
      }
      if f in unreadable {
        return false;
      }
      var names := NginxServerNames(files[f]);
      for k := 0 to |names|
        invariant forall j :: 0 <= j < k ==> names[j] !in hosts
      {
        if names[k] in hosts {
          assert names[k] in ServerNames(files[f]);
          return false;
        }
      }
    }
  }

  method GatherHosts(changes: Changes) returns (hosts: set<string>)
    ensures forall h :: h in hosts <==> NewHost(changes, h)
  {
    hide ServerNames;
    hosts := {};
    var todo := changes.Keys;
    while todo != {}
      invariant todo <= changes.Keys
      invariant forall h :: h in hosts <==> exists c ::
        c in changes && c !in todo && IsServerFile(c) && h in NamesOf(changes[c])
      decreases |todo|
    {
      var c :| c in todo;
      todo := todo - {c};
      if IsServerFile(c) && changes[c].Some? {
        var names := NginxServerNames(changes[c].value);
        hosts := hosts + set h | h in names;
      }
    }
  }

  /** The changes one release or one clean-up makes: one route file at most, or
      nothing but removals. */
  ghost predicate OneService(changes: Changes) {
    || (forall f, g :: f in changes && g in changes && IsServerFile(f) && IsServerFile(g) ==> f == g)
    || (forall f :: f in changes ==> changes[f].None?)
  }

  lemma ConflictIs(files: Files, changes: Changes, c: File, f: File, h: string)
    requires c in changes && IsServerFile(c) && h in NamesOf(changes[c])
    requires f in files && f !in changes && IsServerFile(f) && h in ServerNames(files[f])
    ensures Conflict(files, changes)
  {
    hide ServerNames;
    assert NewHost(changes, h);
  }

  lemma NewHostIsFree(files: Files, changes: Changes, c: File, f: File, h: string)
    requires OneService(changes) && !Blocked(files, changes) && !Conflict(files, changes)
    requires c in changes && changes[c].Some? && IsServerFile(c) && IsServerFile(f) && h in NamesOf(changes[c])
    requires f in Laid(files, changes, Touched(files, changes)) &&
      h in ServerNames(Laid(files, changes, Touched(files, changes))[f])
    ensures c == f
  {
    hide ServerNames, Conflict;
    if f !in changes {
      ConflictIs(files, changes, c, f, h);
      assert false;
    }
  }

  /** Changes that pass the check keep every host in one file, so over any run of
      applied, undone and cleaning transactions at most one service serves a
      host. */
  lemma StaysApart(files: Files, changes: Changes)
    requires Apart(files) && OneService(changes) && !Blocked(files, changes) && !Conflict(files, changes)
    ensures Apart(Laid(files, changes, Touched(files, changes)))
  {
    hide ServerNames, Conflict;
    var after := Laid(files, changes, Touched(files, changes));
    forall f, g, h | f in after && g in after && IsServerFile(f) && IsServerFile(g) && h in ServerNames(after[f]) &&
      h in ServerNames(after[g])
      ensures f == g
    {
      if f in changes && changes[f].Some? {
        NewHostIsFree(files, changes, f, g, h);
      } else if g in changes && changes[g].Some? {
        NewHostIsFree(files, changes, g, f, h);
      }
    }
  }

  /** A file serves exactly the hosts that its lines name. */
  lemma {:induction false} NamesAre(lines: seq<string>, host: string)
    ensures host in NamesIn(lines) <==> exists i :: 0 <= i < |lines| && host in LineNames(lines[i])
  {
    hide LineNames;
    if lines != [] {
      var rest := lines[..|lines| - 1];
      NamesAre(rest, host);
      assert forall i :: 0 <= i < |rest| ==> rest[i] == lines[i];
    }
  }

  // ------------------------------------------------------------- round trip

  /** The hosts of the server line of a block are read back, in lower case. */
  lemma ServerNameRoundTrip(hosts: seq<string>)
    requires hosts != [] && forall i :: 0 <= i < |hosts| ==> Word(hosts[i])
    ensures LineNames(Indented(["server_name"] + hosts) + ";") == LowerAll(hosts)
  {
    hide Fields, Spaced, TrimRight, TrimLeft, Word;
    var words := ["server_name"] + hosts;
    var rest := Spaced(hosts);
    ServerNameWord();
    assert Spaced(words) == " " + ("server_name" + rest) by { SpacedFirst("server_name", hosts); }
    var body := "server_name" + rest;
    assert Indented(words) + ";" == "    " + (body + ";");
    TrimsTo("    ", body + ";");
    assert (body + ";")[..|body|] == body;
    SpacedBlank(hosts);
    FieldsWord("server_name", rest);
    FieldsSpaced(hosts);
  }

  lemma ServerNameWord()
    ensures Word("server_name")
  {
  }

  lemma SpacedFirst(word: string, words: seq<string>)
    ensures Spaced([word] + words) == " " + (word + Spaced(words))
  {
    assert ([word] + words)[1..] == words;
  }

  lemma SpacedBlank(words: seq<string>)
    ensures Spaced(words) != "" ==> Blank(Spaced(words)[0])
  {
  }

  lemma {:induction false} TrimsTo(pad: string, s: string)
    requires s != "" && !Blank(s[0]) && !Blank(s[|s| - 1]) && forall i :: 0 <= i < |pad| ==> Blank(pad[i])
    ensures TrimSpace(pad + s) == s
  {
    if pad == "" {
      assert pad + s == s;
    } else {
      assert (pad + s)[1..] == pad[1..] + s;
      TrimsTo(pad[1..], s);
    }
  }
}
