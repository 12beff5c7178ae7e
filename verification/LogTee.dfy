/** The proxy's output on its way to the log: every byte passes, and each whole
    line that is a request to an app container is handed on. */
module LogTee {
  import opened Rollout
  import opened Requests
  import opened Text

  /** How much of a line without an end is kept: 64 KiB. */
  const MAX_LINE := 65536

  type Parser = string -> Option<Entry>

  /** The entries of the lines that the parser accepts, in order. */
  function Accepted(parse: Parser, lines: seq<string>): seq<Entry> {
    if lines == [] then []
    else
      var entry := parse(lines[|lines| - 1]);
      Accepted(parse, lines[..|lines| - 1]) + (if entry.Some? then [entry.value] else [])
  }

  function Complete(text: string): seq<string> {
    SplitLines(text)[..|SplitLines(text)| - 1]
  }

  function Unfinished(text: string): string {
    SplitLines(text)[|SplitLines(text)| - 1]
  }

  /** What is kept of an unfinished line, and what was published so far. */
  datatype Buffer = Buffer(partial: string, published: seq<Entry>)

  /** One more piece of output. */
  function Feed(parse: Parser, b: Buffer, piece: string): Buffer {
    var rest := Unfinished(b.partial + piece);
    Buffer(if |rest| > MAX_LINE then "" else rest, b.published + Accepted(parse, Complete(b.partial + piece)))
  }

  // --------------------------------------------------------------- the hub

  /** Every subscriber heard these entries in order, and nothing else. */
  ghost predicate Heard(before: map<nat, seq<Entry>>, after: map<nat, seq<Entry>>, entries: seq<Entry>) {
    after == map id | id in before :: before[id] + entries
  }

  /** Hands every published entry to whoever is subscribed at the time. */
  class Hub {
    var next: nat
    /** What each current subscriber was called with, in order. */
    var subs: map<nat, seq<Entry>>

    ghost predicate Valid()
      reads this
    {
      forall id :: id in subs ==> id < next
    }

    constructor ()
      ensures Valid() && subs == map[]
    {
      next, subs := 0, map[];
    }

    method Subscribe() returns (id: nat)
      requires Valid()
      modifies this
      ensures Valid() && id !in old(subs) && subs == old(subs)[id := []]
      ensures id == old(next) && next == id + 1
    {
      id := next;
      next := next + 1;
      subs := subs[id := []];
    }

    method Cancel(id: nat)
      requires Valid()
      modifies this`subs
      ensures Valid() && subs == old(subs) - {id}
    {
      subs := subs - {id};
    }

    method Publish(e: Entry)
      requires Valid()
      modifies this`subs
      ensures Valid() && Heard(old(subs), subs, [e])
    {
      var todo := subs.Keys;
      while todo != {}
        invariant todo <= old(subs).Keys
        invariant subs.Keys == old(subs).Keys
        invariant forall id :: id in subs ==> subs[id] == if id in todo then old(subs)[id] else old(subs)[id] + [e]
        decreases |todo|
      {
        var id :| id in todo;
        todo := todo - {id};
        subs := subs[id := subs[id] + [e]];
      }
    }
  }

  lemma HeardNothing(subs: map<nat, seq<Entry>>)
    ensures Heard(subs, subs, [])
  {
    assert forall id :: id in subs ==> subs[id] + [] == subs[id];
  }

  lemma HeardOneMore(before: map<nat, seq<Entry>>, subs: map<nat, seq<Entry>>, after: map<nat, seq<Entry>>,
                     entries: seq<Entry>, e: Entry)
    requires Heard(before, subs, entries) && Heard(subs, after, [e])
    ensures Heard(before, after, entries + [e])
  {
    assert forall id :: id in before ==> before[id] + entries + [e] == before[id] + (entries + [e]);
  }

  // --------------------------------------------------------------- the tee

  /** The writer behind the tee. It may take less of what it is given. */
  class Sink {
    /** What it was given, call by call, and what it took. */
    ghost var given: seq<string>
    ghost var taken: string

    method Take(p: string) returns (n: nat)
      modifies this
      ensures n <= |p| && given == old(given) + [p] && taken == old(taken) + p[..n]
    {
      var k :| 0 <= k <= |p|;
      n := k;
      given, taken := given + [p], taken + p[..n];
    }
  }

  class Tee {
    const parse: Parser
    const out: Sink
    const hub: Hub
    var partial: string
    /** What was published to the hub. */
    ghost var published: seq<Entry>

    ghost function State(): Buffer
      reads this
    {
      Buffer(partial, published)
    }

    constructor (parse: Parser, out: Sink, hub: Hub)
      ensures this.parse == parse && this.out == out && this.hub == hub && State() == Buffer("", [])
    {
      this.parse := parse;
      this.out := out;
      this.hub := hub;
      this.partial := "";
      this.published := [];
    }

    /** Passes output on. The writer behind may take less of it than given; only
        what it took counts. */
    method Write(p: string) returns (n: nat)
      requires hub.Valid()
      modifies this, out, hub
      ensures n <= |p| && out.given == old(out.given) + [p] && out.taken == old(out.taken) + p[..n]
      ensures State() == Feed(parse, old(State()), p[..n])
      ensures hub.Valid() && Heard(old(hub.subs), hub.subs, Accepted(parse, Complete(old(partial) + p[..n])))
    {
      hide Accepted, Complete, Heard;
      n := out.Take(p);
      var data := PublishLines(partial + p[..n]);
      if |data| > MAX_LINE {
        data := "";
      }
      partial := data;
    }

    /** Publishes the whole lines of the text; what is left is the unfinished one. */
    method PublishLines(text: string) returns (data: string)
      requires hub.Valid()
      modifies this`published, hub
      ensures data == Unfinished(text) && published == old(published) + Accepted(parse, Complete(text))
      ensures hub.Valid() && Heard(old(hub.subs), hub.subs, Accepted(parse, Complete(text)))
    {
      hide SplitLines, Accepted, Heard;
      data := text;
      ghost var lines: seq<string> := [];
      AcceptedNone(parse);
      HeardNothing(hub.subs);
      var i: nat := IndexOfNewline(data);
      while i < |data|
        invariant i <= |data| && (forall k :: 0 <= k < i ==> data[k] != '\n') && (i < |data| ==> data[i] == '\n')
        invariant SplitLines(text) == lines + SplitLines(data)
        invariant published == old(published) + Accepted(parse, lines)
        invariant hub.Valid() && Heard(old(hub.subs), hub.subs, Accepted(parse, lines))
        decreases |data|
      {
        assert data == data[..i] + "\n" + data[i + 1..];
        SplitOneLine(data[..i], data[i + 1..]);
        AcceptedSnoc(parse, lines, data[..i]);
        var entry := parse(data[..i]);
        if entry.Some? {
          published := published + [entry.value];
          ghost var subs := hub.subs;
          hub.Publish(entry.value);
          HeardOneMore(old(hub.subs), subs, hub.subs, Accepted(parse, lines), entry.value);
        }
        assert Accepted(parse, lines) + [] == Accepted(parse, lines);
        lines := lines + [data[..i]];
        data := data[i + 1..];
        i := IndexOfNewline(data);
      }
      SplitNoEnd(data);
      assert Complete(text) == lines && Unfinished(text) == data;
    }
  }

  /** Where the first line end is, or the length of the text. */
  method IndexOfNewline(data: string) returns (i: nat)
    ensures i <= |data| && (forall k :: 0 <= k < i ==> data[k] != '\n') && (i < |data| ==> data[i] == '\n')
  {
    i := 0;
    while i < |data| && data[i] != '\n'
      invariant i <= |data| && forall k :: 0 <= k < i ==> data[k] != '\n'
    {
      i := i + 1;
    }
  }

  // ------------------------------------------------------ any way of chunking

  function Concat(pieces: seq<string>): string {
    if pieces == [] then "" else Concat(pieces[..|pieces| - 1]) + pieces[|pieces| - 1]
  }

  /** All pieces, one after the other. */
  function FeedAll(parse: Parser, pieces: seq<string>): Buffer {
    if pieces == [] then Buffer("", []) else Feed(parse, FeedAll(parse, pieces[..|pieces| - 1]), pieces[|pieces| - 1])
  }

  lemma SplitCons(c: char, text: string)
    ensures SplitLines([c] + text) ==
      if c == '\n' then [""] + SplitLines(text) else [[c] + SplitLines(text)[0]] + SplitLines(text)[1..]
  {
    assert ([c] + text)[1..] == text;
  }

  /** Cutting in two steps, with what is unfinished after the first carried over. */
  lemma {:induction false} SplitLater(a: string, b: string)
    ensures SplitLines(a + b) == Complete(a) + SplitLines(Unfinished(a) + b)
  {
    hide SplitLines;
    if a == "" {
      assert a + b == b && "" + b == b;
      SplitEmpty();
    } else {
      var c, rest := a[0], SplitLines(a[1..]);
      assert a == [c] + a[1..] && a + b == [c] + (a[1..] + b);
      SplitCons(c, a[1..]);
      SplitCons(c, a[1..] + b);
      SplitLater(a[1..], b);
      if c != '\n' && |rest| == 1 {
        assert [c] + rest[0] + b == [c] + (rest[0] + b);
        SplitCons(c, rest[0] + b);
      }
    }
  }

  lemma {:induction false} AcceptedConcat(parse: Parser, a: seq<string>, b: seq<string>)
    ensures Accepted(parse, a + b) == Accepted(parse, a) + Accepted(parse, b)
  {
    if b == [] {
      assert a + b == a;
    } else {
      assert (a + b)[..|a + b| - 1] == a + b[..|b| - 1];
      AcceptedConcat(parse, a, b[..|b| - 1]);
    }
  }

  /** However the output is cut into writes, what is published is exactly the
      accepted ones of its whole lines, in order, as long as no unfinished line is
      over the limit at the end of a write. */
  lemma {:induction false} ChunksDoNotMatter(parse: Parser, pieces: seq<string>)
    requires forall k :: 0 <= k <= |pieces| ==> |Unfinished(Concat(pieces[..k]))| <= MAX_LINE
    ensures FeedAll(parse, pieces) == Buffer(Unfinished(Concat(pieces)), Accepted(parse, Complete(Concat(pieces))))
  {
    hide SplitLines, Accepted;
    if pieces == [] {
      assert SplitLines("") == [""] by { SplitEmpty(); }
      assert Accepted(parse, []) == [] by { AcceptedNone(parse); }
    } else {
      var before, piece := pieces[..|pieces| - 1], pieces[|pieces| - 1];
      forall k | 0 <= k <= |before| ensures |Unfinished(Concat(before[..k]))| <= MAX_LINE {
        assert before[..k] == pieces[..k];
      }
      ChunksDoNotMatter(parse, before);
      var text := Concat(before);
      assert pieces[..|pieces|] == pieces;
      SplitLater(text, piece);
      AcceptedConcat(parse, Complete(text), Complete(Unfinished(text) + piece));
      assert Complete(text + piece) == Complete(text) + Complete(Unfinished(text) + piece);
    }
  }

  lemma AcceptedSnoc(parse: Parser, lines: seq<string>, line: string)
    ensures Accepted(parse, lines + [line]) ==
      Accepted(parse, lines) + (if parse(line).Some? then [parse(line).value] else [])
  {
    assert (lines + [line])[..|lines|] == lines;
  }

  lemma SplitEmpty()
    ensures SplitLines("") == [""]
  {
  }

  lemma AcceptedNone(parse: Parser)
    ensures Accepted(parse, []) == []
  {
  }

  lemma {:induction false} UnfinishedIsOneLine(text: string)
    ensures OneLine(Unfinished(text))
  {
    if text != "" {
      UnfinishedIsOneLine(text[1..]);
    }
  }

  /** The whole lines of a text with one more character in front of it. */
  lemma CompleteCons(c: char, tail: string)
    ensures var lines := Complete(tail);
            if c == '\n' then
              Complete([c] + tail) == [""] + lines && Unfinished([c] + tail) == Unfinished(tail)
            else if lines != [] then
              Complete([c] + tail) == [[c] + lines[0]] + lines[1..] && Unfinished([c] + tail) == Unfinished(tail)
            else
              Complete([c] + tail) == [] && Unfinished([c] + tail) == [c] + Unfinished(tail)
  {
    hide SplitLines;
    SplitCons(c, tail);
  }

  /** A text is its whole lines, each with its line end, and the unfinished one. */
  lemma {:induction false} LinesAre(text: string)
    ensures text == Terminated(Complete(text)) + Unfinished(text)
    ensures forall line :: line in Complete(text) ==> OneLine(line)
  {
    hide SplitLines, Complete, Unfinished, OneLine, Terminated;
    if text == "" {
      LinesOfNothing();
    } else {
      var c, tail := text[0], text[1..];
      LinesAre(tail);
      assert text == [c] + tail;
      CompleteCons(c, tail);
      LinesCons(c, Complete(tail), Unfinished(tail));
    }
  }

  lemma LinesOfNothing()
    ensures Complete("") == [] && Unfinished("") == "" && Terminated([]) == ""
  {
    SplitEmpty();
  }

  /** The two ways in which a character in front of a text changes its whole lines. */
  lemma LinesCons(c: char, lines: seq<string>, unfinished: string)
    requires forall line :: line in lines ==> OneLine(line)
    ensures Terminated([""] + lines) + unfinished == ['\n'] + (Terminated(lines) + unfinished)
    ensures forall line :: line in [""] + lines ==> OneLine(line)
    ensures lines == [] ==> Terminated(lines) + ([c] + unfinished) == [c] + (Terminated(lines) + unfinished)
    ensures lines != [] ==>
      Terminated([[c] + lines[0]] + lines[1..]) + unfinished == [c] + (Terminated(lines) + unfinished)
    ensures lines != [] && c != '\n' ==>
      forall line :: line in [[c] + lines[0]] + lines[1..] ==> OneLine(line)
  {
    hide Terminated;
    FirstTerminated("", lines);
    assert "" + "\n" + Terminated(lines) + unfinished == ['\n'] + (Terminated(lines) + unfinished);
    if lines == [] {
      assert Terminated(lines) == "" by {
        LinesOfNothing();
      }
    } else {
      LongerLine(c, lines[0], lines[1..]);
      assert [lines[0]] + lines[1..] == lines;
      assert [c] + Terminated(lines) + unfinished == [c] + (Terminated(lines) + unfinished);
      if c != '\n' {
        forall line | line in [[c] + lines[0]] + lines[1..] ensures OneLine(line) {
          OneLineEach(c, lines, line);
        }
      }
    }
  }

  /** A character in front of the first line is one in front of them all. */
  lemma LongerLine(c: char, first: string, rest: seq<string>)
    ensures Terminated([[c] + first] + rest) == [c] + Terminated([first] + rest)
  {
    hide Terminated;
    FirstTerminated([c] + first, rest);
    FirstTerminated(first, rest);
    assert [c] + first + "\n" + Terminated(rest) == [c] + (first + "\n" + Terminated(rest));
  }

  lemma OneLineEach(c: char, lines: seq<string>, line: string)
    requires lines != [] && c != '\n' && forall other :: other in lines ==> OneLine(other)
    requires line in [[c] + lines[0]] + lines[1..]
    ensures OneLine(line)
  {
    if line != [c] + lines[0] {
      assert line in lines[1..];
    } else {
      assert OneLine(lines[0]);
    }
  }

  lemma FirstTerminated(first: string, rest: seq<string>)
    ensures Terminated([first] + rest) == first + "\n" + Terminated(rest)
  {
    assert ([first] + rest)[1..] == rest;
  }

  /** The buffer never holds a line end or more than the limit. */
  lemma {:induction false} BufferIsBounded(parse: Parser, pieces: seq<string>)
    ensures OneLine(FeedAll(parse, pieces).partial) && |FeedAll(parse, pieces).partial| <= MAX_LINE
  {
    if pieces != [] {
      UnfinishedIsOneLine(FeedAll(parse, pieces[..|pieces| - 1]).partial + pieces[|pieces| - 1]);
    }
  }

  /** What becomes of a line that is over the limit at the end of a write: its beginning is
      forgotten, and what follows up to the line end is read as a line of its own. */
  lemma LongLineLosesItsBeginning(parse: Parser, a: string, rest: string, tail: string)
    requires OneLine(a) && |a| > 65536 && OneLine(rest) && OneLine(tail) && |tail| <= 65536
    ensures FeedAll(parse, [a, rest + "\n" + tail]) ==
      Buffer(tail, if parse(rest).Some? then [parse(rest).value] else [])
  {
    hide SplitLines, Accepted;
    var b := rest + "\n" + tail;
    SplitNoEnd(a);
    SplitNoEnd(tail);
    SplitOneLine(rest, tail);
    AcceptedNone(parse);
    AcceptedSnoc(parse, [], rest);
    assert [] + [rest] == [rest] && "" + a == a && "" + b == b;
    assert [a, b][..1] == [a] && [a][..0] == [];
    assert Complete(a) == [] && Complete(b) == [rest] && Unfinished(b) == tail;
    assert FeedAll(parse, [a]) == Feed(parse, FeedAll(parse, []), a);
    assert FeedAll(parse, [a]) == Buffer("", []);
    assert FeedAll(parse, [a, b]) == Feed(parse, FeedAll(parse, [a]), b);
  }

  /** That the limit is kept to is exactly what it takes for the buffer to hold the
      unfinished line after every write. */
  lemma {:induction false} BufferIsUnfinished(parse: Parser, pieces: seq<string>)
    ensures (forall k :: 0 <= k <= |pieces| ==> FeedAll(parse, pieces[..k]).partial == Unfinished(Concat(pieces[..k])))
       <==> (forall k :: 0 <= k <= |pieces| ==> |Unfinished(Concat(pieces[..k]))| <= MAX_LINE)
  {
    hide SplitLines, Feed, Unfinished;
    if forall k :: 0 <= k <= |pieces| ==> |Unfinished(Concat(pieces[..k]))| <= MAX_LINE {
      forall k | 0 <= k <= |pieces| ensures FeedAll(parse, pieces[..k]).partial == Unfinished(Concat(pieces[..k])) {
        forall j | 0 <= j <= k ensures |Unfinished(Concat(pieces[..k][..j]))| <= MAX_LINE {
          assert pieces[..k][..j] == pieces[..j];
        }
        ChunksDoNotMatter(parse, pieces[..k]);
      }
    } else {
      var k :| 0 <= k <= |pieces| && |Unfinished(Concat(pieces[..k]))| > MAX_LINE;
      BufferIsBounded(parse, pieces[..k]);
    }
  }
}
