/** Reading the nginx access log back: the trailer at the end of each line, and
    what the log format put in it. */
module NginxLog {
  import opened Rollout
  import opened Requests
  import opened Text

  // ----------------------------------------------------------------- escaping

  function HexDigit(n: nat): char
    requires n < 16
  {
    if n < 10 then ('0' as int + n) as char else ('A' as int + n - 10) as char
  }

  predicate IsHex(c: char) {
    '0' <= c <= '9' || 'A' <= c <= 'F' || 'a' <= c <= 'f'
  }

  function HexValue(c: char): (n: nat)
    requires IsHex(c)
    ensures n < 16
  {
    if '0' <= c <= '9' then c as int - '0' as int
    else if 'A' <= c <= 'F' then c as int - 'A' as int + 10
    else c as int - 'a' as int + 10
  }

  /** Every character is one byte. */
  predicate Bytes(s: string) {
    forall i :: 0 <= i < |s| ==> s[i] < '\U{100}'
  }

  /** How the proxy writes text from a client: the bytes that `esc` picks become
      `\xHH`. */
  function Escape(esc: char -> bool, s: string): string
    requires Bytes(s)
  {
    if s == "" then ""
    else
      (if esc(s[0]) then ['\\', 'x', HexDigit(s[0] as int / 16), HexDigit(s[0] as int % 16)] else [s[0]]) +
        Escape(esc, s[1..])
  }

  /** Whether an escaped byte starts at `i`. */
  predicate IsEscape(s: string, i: nat) {
    i + 3 < |s| && s[i] == '\\' && s[i + 1] == 'x' && IsHex(s[i + 2]) && IsHex(s[i + 3])
  }

  function Unescape(s: string): string {
    if s == "" then ""
    else if IsEscape(s, 0) then [(HexValue(s[2]) * 16 + HexValue(s[3])) as char] + Unescape(s[4..])
    else [s[0]] + Unescape(s[1..])
  }

  method UnescapeNginx(s: string) returns (r: string)
    ensures r == Unescape(s)
  {
    if !HasEscape(s) {
      NothingToUnescape(s);
      return s;
    }
    r := "";
    var i := 0;
    while i < |s|
      invariant 0 <= i <= |s| && r + Unescape(s[i..]) == Unescape(s)
    {
      var rest := s[i..];
      assert IsEscape(s, i) <==> IsEscape(rest, 0);
      if s[i] == '\\' && i + 3 < |s| && s[i + 1] == 'x' && IsHex(s[i + 2]) && IsHex(s[i + 3]) {
        assert rest[4..] == s[i + 4..];
        r := r + [(HexValue(s[i + 2]) * 16 + HexValue(s[i + 3])) as char];
        i := i + 4;
      } else {
        assert rest[1..] == s[i + 1..];
        r := r + [s[i]];
        i := i + 1;
      }
    }
  }

  predicate HasEscape(s: string) {
    exists i :: 0 <= i < |s| - 1 && s[i] == '\\' && s[i + 1] == 'x'
  }

  lemma {:induction false} NothingToUnescape(s: string)
    requires !HasEscape(s)
    ensures Unescape(s) == s
  {
    if s != "" {
      assert |s| > 1 && s[0] == '\\' ==> s[0 + 1] != 'x';
      forall i | 0 <= i < |s[1..]| - 1 ensures !(s[1..][i] == '\\' && s[1..][i + 1] == 'x') {
        assert s[1..][i] == s[i + 1] && s[1..][i + 1] == s[i + 1 + 1];
      }
      NothingToUnescape(s[1..]);
    }
  }

  lemma {:induction false} UnescapeBehind(before: string, s: string)
    requires '\\' !in before
    ensures Unescape(before + s) == before + Unescape(s)
  {
    hide HexValue;
    if before == "" {
      assert before + s == s;
    } else {
      assert (before + s)[1..] == before[1..] + s && (before + s)[0] == before[0];
      UnescapeBehind(before[1..], s);
      assert [before[0]] + (before[1..] + Unescape(s)) == before + Unescape(s);
    }
  }

  /** A backslash that begins no escape stays, and so does what comes before it. */
  lemma BadEscapeStays(before: string, s: string)
    requires '\\' !in before && s != "" && s[0] == '\\'
    requires |s| < 4 || s[1] != 'x' || !IsHex(s[2]) || !IsHex(s[3])
    ensures Unescape(before + s) == before + "\\" + Unescape(s[1..])
  {
    UnescapeBehind(before, s);
    hide IsHex, HexValue;
    assert Unescape(s) == "\\" + Unescape(s[1..]);
    assert before + ("\\" + Unescape(s[1..])) == before + "\\" + Unescape(s[1..]);
  }

  lemma HexRoundTrip(n: nat)
    requires n < 16
    ensures IsHex(HexDigit(n)) && HexValue(HexDigit(n)) == n
  {
  }

  /** Unescaping undoes any such escaping, on all bytes, as long as the backslash
      itself is escaped. */
  lemma {:induction false} UnescapeInverts(esc: char -> bool, s: string)
    requires Bytes(s) && esc('\\')
    ensures Unescape(Escape(esc, s)) == s
  {
    if s != "" {
      UnescapeInverts(esc, s[1..]);
      var rest := Escape(esc, s[1..]);
      if esc(s[0]) {
        var a, b := s[0] as int / 16, s[0] as int % 16;
        HexRoundTrip(a);
        HexRoundTrip(b);
        var all := ['\\', 'x', HexDigit(a), HexDigit(b)] + rest;
        assert IsEscape(all, 0) && all[4..] == rest;
        assert HexValue(all[2]) * 16 + HexValue(all[3]) == s[0] as int;
      } else {
        assert ([s[0]] + rest)[1..] == rest;
        assert !IsEscape([s[0]] + rest, 0);
      }
    }
  }

  /** Text whose quotes are escaped has none. */
  lemma {:induction false} EscapedQuotes(esc: char -> bool, s: string)
    requires Bytes(s) && esc('"')
    ensures '"' !in Escape(esc, s)
  {
    if s != "" {
      EscapedQuotes(esc, s[1..]);
      if esc(s[0]) {
        HexRoundTrip(s[0] as int / 16);
        HexRoundTrip(s[0] as int % 16);
      }
    }
  }

  // ------------------------------------------------------------------ trailer

  datatype Trailer = Trailer(status: string, upstream: string, host: string, path: string)
  {
    predicate Quotable() {
      && |status| == 3 && Digits(status)
      && '"' !in upstream && '"' !in host && '"' !in path
    }

    /** The line that has this trailer behind `pre`. */
    function After(pre: string): string {
      pre + " drlog status=" + status + " upstream=" + "\"" + upstream + "\"" + " host=" + "\"" + host + "\"" +
        " path=" + "\"" + path + "\""
    }
  }

  function StripSuffix(s: string, suffix: string): Option<string> {
    if |s| >= |suffix| && s[|s| - |suffix|..] == suffix then Some(s[..|s| - |suffix|]) else None
  }

  /** Takes a last quoted value off the end: `... mark"value"`. */
  function TakeQuoted(s: string, mark: string): Option<(string, string)> {
    var open := StripSuffix(s, "\"");
    if open.None? then None
    else
      var i := LastIndex(open.value, "\"", |open.value|);
      if i.None? then None
      else
        var before := StripSuffix(open.value[..i.value], mark);
        if before.None? then None else Some((before.value, open.value[i.value + 1..]))
  }

  /** The trailer a line ends in, if it does. */
  function MatchTrailer(line: string): Option<Trailer> {
    var path := TakeQuoted(line, " path=");
    if path.None? then None
    else
      var host := TakeQuoted(path.value.0, " host=");
      if host.None? then None
      else
        var upstream := TakeQuoted(host.value.0, " upstream=");
        if upstream.None? || |upstream.value.0| < 3 then None
        else
          var s := upstream.value.0;
          var status := s[|s| - 3..];
          if Digits(status) && StripSuffix(s[..|s| - 3], " drlog status=").Some? then
            Some(Trailer(status, upstream.value.1, host.value.1, path.value.1))
          else None
  }

  lemma Stripped(a: string, suffix: string)
    ensures StripSuffix(a + suffix, suffix) == Some(a)
  {
  }

  lemma TakeIs(before: string, mark: string, value: string)
    requires '"' !in value
    ensures TakeQuoted(before + mark + "\"" + value + "\"", mark) == Some((before, value))
  {
    var s := before + mark + "\"" + value;
    Stripped(s, "\"");
    var i := |before + mark|;
    assert s[i..] == "\"" + value;
    forall k | i < k < |s| ensures !("\"" <= s[k..]) {
      assert s[k] == value[k - i - 1];
    }
    LastIndexIs(s, "\"", |s|, i);
    assert s[..i] == before + mark && s[i + 1..] == value;
    Stripped(before, mark);
  }

  lemma TakeOnly(s: string, mark: string)
    requires TakeQuoted(s, mark).Some?
    ensures var (before, value) := TakeQuoted(s, mark).value;
      s == before + mark + "\"" + value + "\"" && '"' !in value
  {
    var open := StripSuffix(s, "\"").value;
    assert s == open + "\"";
    var i := LastIndex(open, "\"", |open|).value;
    var value := open[i + 1..];
    LastIsLast(open, "\"", |open|);
    forall k | 0 <= k < |value| ensures value[k] != '"' {
      assert !("\"" <= open[i + 1 + k..]);
      assert open[i + 1 + k..][0] == value[k];
    }
    assert open == open[..i] + "\"" + value by { assert open[i..][0] == '"'; }
  }

  lemma {:induction false} LastIsLast(s: string, sep: string, n: nat)
    requires n <= |s|
    ensures LastIndex(s, sep, n).Some? ==> forall k :: LastIndex(s, sep, n).value < k < n ==> !(sep <= s[k..])
  {
    if n > 0 && !(sep <= s[n - 1..]) {
      LastIsLast(s, sep, n - 1);
    }
  }

  /** The trailer is found in every line that ends in one, whatever comes before. */
  lemma TrailerFound(pre: string, t: Trailer)
    requires t.Quotable()
    ensures MatchTrailer(t.After(pre)) == Some(t)
  {
    hide TakeQuoted, StripSuffix, Digits;
    var status := pre + " drlog status=" + t.status;
    var upstream := status + " upstream=" + "\"" + t.upstream + "\"";
    var host := upstream + " host=" + "\"" + t.host + "\"";
    TakeIs(host, " path=", t.path);
    TakeIs(upstream, " host=", t.host);
    TakeIs(status, " upstream=", t.upstream);
    assert status[|status| - 3..] == t.status && status[..|status| - 3] == pre + " drlog status=";
    Stripped(pre, " drlog status=");
  }

  /** And found only there: so a line has at most one trailer. */
  lemma TrailerIs(line: string) returns (pre: string)
    requires MatchTrailer(line).Some?
    ensures MatchTrailer(line).value.Quotable() && line == MatchTrailer(line).value.After(pre)
  {
    hide TakeQuoted, Digits;
    var t := MatchTrailer(line).value;
    TakeOnly(line, " path=");
    var host := TakeQuoted(line, " path=").value.0;
    TakeOnly(host, " host=");
    var upstream := TakeQuoted(host, " host=").value.0;
    TakeOnly(upstream, " upstream=");
    var s := TakeQuoted(upstream, " upstream=").value.0;
    pre := StripSuffix(s[..|s| - 3], " drlog status=").value;
    assert s == pre + " drlog status=" + t.status;
  }

  // ------------------------------------------------------------------ entries

  /** An error log line starts with its date: `2024/05/01 10:20:30 [`. */
  predicate IsErrorLine(line: string) {
    && |line| >= 21
    && (forall i :: 0 <= i < 19 ==>
          if i == 4 || i == 7 then line[i] == '/'
          else if i == 10 then line[i] == ' '
          else if i == 13 || i == 16 then line[i] == ':'
          else '0' <= line[i] <= '9')
    && line[19] == ' ' && line[20] == '['
  }

  /** What follows the first `sep`, or all of it. */
  function AfterFirst(s: string, sep: string, n: nat): string
    requires n <= |s|
    decreases |s| - n
  {
    if n == |s| then s else if sep <= s[n..] then s[n + |sep|..] else AfterFirst(s, sep, n + 1)
  }

  predicate IsServer(upstream: string) {
    var parts := SplitHostPort(upstream);
    parts.Some? && parts.value.0 != "" && parts.value.1 != "" && parts.value.0 != "-" && parts.value.1 != "-"
  }

  /** The checked and cleaned entry; nothing when no app container is named. */
  function NewEntry(status: string, upstream: string, host: string, path: string): Option<Entry> {
    if !Digits(status) || status == "" || !(100 <= Atoi(status) <= 599) then None
    else
      var server := TrimSlash(AfterFirst(TrimSpace(upstream), "://", 0));
      if !IsServer(server) then None
      else
        var name := if SplitHostPort(host).Some? then SplitHostPort(host).value.0 else host;
        Some(Entry(Atoi(status), server, Lower(name), BeforeFirst(path, '?')))
  }

  /** The server that answered: the last of the last group. */
  function LastServer(upstream: string): string {
    AfterLast(AfterLast(upstream, ","), " : ")
  }

  function ParseNginx(line: string): Option<Entry> {
    if IsErrorLine(line) then None
    else
      var t := MatchTrailer(line);
      if t.None? then None
      else NewEntry(t.value.status, LastServer(t.value.upstream), Unescape(t.value.host), Unescape(t.value.path))
  }

  method ReadNginxLine(line: string) returns (entry: Option<Entry>)
    ensures entry == ParseNginx(line)
  {
    hide MatchTrailer, NewEntry, Unescape, IsErrorLine, LastIndex;
    if IsErrorLine(line) {
      return None;
    }
    var m := MatchTrailer(line);
    if m.None? {
      return None;
    }
    var upstream := m.value.upstream;
    var i := LastIndex(upstream, ",", |upstream|);
    if i.Some? {
      upstream := upstream[i.value + 1..];
    }
    var j := LastIndex(upstream, " : ", |upstream|);
    if j.Some? {
      upstream := upstream[j.value + 3..];
    }
    var host := UnescapeNginx(m.value.host);
    var path := UnescapeNginx(m.value.path);
    return NewEntry(m.value.status, upstream, host, path);
  }

  // ------------------------------------------------------- what is printed

  /** A server as the proxy lists it. */
  predicate ServerWord(s: string) {
    Word(s) && ',' !in s
  }

  /** The servers of one attempt, in order. */
  function GroupText(servers: seq<string>): string
    requires servers != []
  {
    if |servers| == 1 then servers[0] else GroupText(servers[..|servers| - 1]) + ", " + servers[|servers| - 1]
  }

  /** The groups of a request that was sent on. */
  function UpstreamText(groups: seq<seq<string>>): string
    requires groups != [] && forall k :: 0 <= k < |groups| ==> groups[k] != []
  {
    if |groups| == 1 then GroupText(groups[0])
    else UpstreamText(groups[..|groups| - 1]) + " : " + GroupText(groups[|groups| - 1])
  }

  lemma AfterLastAt(x: string, sep: string, y: string)
    requires sep != "" && forall k :: |x| < k < |x + sep + y| ==> !(sep <= (x + sep + y)[k..])
    ensures AfterLast(x + sep + y, sep) == y
  {
    var s := x + sep + y;
    assert s[|x|..] == sep + y;
    LastIndexIs(s, sep, |s|, |x|);
    assert s[|x| + |sep|..] == y;
  }

  lemma AfterLastNone(s: string, sep: string)
    requires sep != "" && forall k :: 0 <= k < |s| ==> !(sep <= s[k..])
    ensures AfterLast(s, sep) == s
  {
    LastIndexNone(s, sep, |s|);
  }

  /** A separator that starts with a blank does not start inside a word, nor, if
      it is ` : `, across the one before the word. */
  lemma AfterLastColon(x: string, y: string)
    requires Word(y)
    ensures AfterLast(x + " : " + y, " : ") == y
  {
    var s := x + " : " + y;
    forall k | |x| < k < |s| ensures !(" : " <= s[k..]) {
      var t := s[k..];
      if k >= |x| + 3 {
        assert t[0] == y[k - |x| - 3];
      } else if k == |x| + 2 {
        assert t == " " + y;
        assert |t| > 2 ==> t[2] == y[1];
      } else {
        assert t[0] == ':';
      }
    }
    AfterLastAt(x, " : ", y);
  }

  lemma AfterLastWord(y: string)
    requires Word(y)
    ensures AfterLast(y, " : ") == y && AfterLast(" " + y, " : ") == " " + y
  {
    forall k | 0 <= k < |y| ensures !(" : " <= y[k..]) {
      assert y[k..][0] == y[k];
    }
    AfterLastNone(y, " : ");
    var s := " " + y;
    forall k | 0 <= k < |s| ensures !(" : " <= s[k..]) {
      var t := s[k..];
      if k == 0 {
        assert t == s;
        assert |t| > 2 ==> t[2] == y[1];
      } else {
        assert t[0] == y[k - 1];
      }
    }
    AfterLastNone(s, " : ");
  }

  /** What comes after the last comma, when the text ends in ` : ` and a word. */
  lemma CommaThenColon(x: string, y: string)
    requires ServerWord(y)
    ensures LastServer(x + " : " + y) == y
  {
    var s := x + " : " + y;
    var i := LastIndex(s, ",", |s|);
    if i.None? {
      AfterLastColon(x, y);
    } else {
      var k := i.value;
      assert s[k] == s[k..][0] == ',';
      forall j | |x| <= j < |s| ensures s[j] != ',' {
        assert j >= |x| + 3 ==> s[j] == y[j - |x| - 3] && y[j - |x| - 3] in y;
      }
      assert s[k + 1..] == x[k + 1..] + " : " + y;
      AfterLastColon(x[k + 1..], y);
    }
  }

  /** The server that answered is read back from every upstream list, with at most
      a blank in front. */
  lemma LastServerIs(groups: seq<seq<string>>)
    requires groups != [] && (forall k :: 0 <= k < |groups| ==> groups[k] != [])
    requires ServerWord(groups[|groups| - 1][|groups[|groups| - 1]| - 1])
    ensures var g := groups[|groups| - 1];
      LastServer(UpstreamText(groups)) == g[|g| - 1] || LastServer(UpstreamText(groups)) == " " + g[|g| - 1]
  {
    hide Word, LastIndex;
    var g := groups[|groups| - 1];
    var server := g[|g| - 1];
    var text := UpstreamText(groups);
    if |g| > 1 {
      var before := GroupText(g[..|g| - 1]);
      var x := if |groups| == 1 then before else UpstreamText(groups[..|groups| - 1]) + " : " + before;
      assert text == x + "," + (" " + server);
      NoComma(x, server);
      AfterLastWord(server);
    } else if |groups| > 1 {
      CommaThenColon(UpstreamText(groups[..|groups| - 1]), server);
    } else {
      assert text == server;
      OneServer(server);
    }
  }

  lemma NoComma(x: string, server: string)
    requires ServerWord(server)
    ensures AfterLast(x + "," + (" " + server), ",") == " " + server
  {
    var s := x + "," + (" " + server);
    forall k | |x| < k < |s| ensures !("," <= s[k..]) {
      assert s[k..][0] == (" " + server)[k - |x| - 1];
    }
    AfterLastAt(x, ",", " " + server);
  }

  lemma OneServer(server: string)
    requires ServerWord(server)
    ensures LastServer(server) == server
  {
    forall k | 0 <= k < |server| ensures !("," <= server[k..]) {
      assert server[k..][0] == server[k];
    }
    AfterLastNone(server, ",");
    AfterLastWord(server);
  }

  /** One half of a server address. */
  predicate AddressPart(s: string) {
    s != "" && s != "-" && forall i :: 0 <= i < |s| ==> !Blank(s[i]) && s[i] !in ":,/[]\""
  }

  lemma {:induction false} ServerParts(ip: string, port: string)
    requires AddressPart(ip) && AddressPart(port)
    ensures SplitHostPort(ip + ":" + port) == Some((ip, port)) && IsServer(ip + ":" + port)
  {
    var s := ip + ":" + port;
    forall k | |ip| < k < |s| ensures !(":" <= s[k..]) {
      assert s[k..][0] == port[k - |ip| - 1];
    }
    assert s[|ip|..] == ":" + port;
    LastIndexIs(s, ":", |s|, |ip|);
    assert s[..|ip|] == ip && s[|ip| + 1..] == port;
  }

  lemma {:induction false} NoScheme(s: string, n: nat)
    requires n <= |s| && forall i :: 0 <= i < |s| ==> s[i] != '/'
    ensures AfterFirst(s, "://", n) == s
    decreases |s| - n
  {
    if n < |s| {
      assert |s[n..]| > 1 ==> s[n..][1] == s[n + 1];
      NoScheme(s, n + 1);
    }
  }

  lemma TrimServer(s: string)
    requires Word(s)
    ensures TrimSpace(s) == s && TrimSpace(" " + s) == s
  {
    assert (" " + s)[1..] == s;
  }

  lemma NoPort(host: string)
    requires ':' !in host
    ensures SplitHostPort(host) == None
  {
    forall k | 0 <= k < |host| ensures !(":" <= host[k..]) {
      assert host[k..][0] == host[k];
    }
    LastIndexNone(host, ":", |host|);
  }

  lemma ThreeDigits(code: nat)
    requires 100 <= code <= 599
    ensures |Itoa(code)| == 3 && Digits(Itoa(code)) && Atoi(Itoa(code)) == code
  {
    AtoiItoa(code);
    assert Itoa(code) == Itoa(code / 10) + [Digit(code % 10)];
    assert Itoa(code / 10) == Itoa(code / 10 / 10) + [Digit(code / 10 % 10)];
  }

  lemma EntryIs(code: nat, ip: string, port: string, upstream: string, host: string, path: string, query: string)
    requires 100 <= code <= 599 && AddressPart(ip) && AddressPart(port)
    requires upstream == ip + ":" + port || upstream == " " + (ip + ":" + port)
    requires ':' !in host && '?' !in path && (query == "" || query[0] == '?')
    ensures NewEntry(Itoa(code), upstream, host, path + query) == Some(Entry(code, ip + ":" + port, Lower(host), path))
  {
    hide SplitHostPort, Itoa, Lower, TrimLeft, TrimRight;
    var server := ip + ":" + port;
    ThreeDigits(code);
    forall i | 0 <= i < |server| ensures !Blank(server[i]) && server[i] != '/' {
      assert server[i] == if i < |ip| then ip[i] else if i == |ip| then ':' else port[i - |ip| - 1];
    }
    TrimServer(server);
    NoScheme(server, 0);
    ServerParts(ip, port);
    NoPort(host);
    BeforeFirstIs(path, query, '?');
  }

  /** Reading back what the log format prints. For every request, whatever text the
      client sent and whatever stands before the trailer, the line gives the
      status, the last server of the upstream list, the host in lower case and the
      path without its query, provided that the proxy escapes quotes and
      backslashes and the line does not start like an error log line. */
  lemma NginxRoundTrip(pre: string, code: nat, groups: seq<seq<string>>, ip: string, port: string,
                       host: string, path: string, query: string, esc: char -> bool, line: string)
    requires 100 <= code <= 599 && AddressPart(ip) && AddressPart(port)
    requires groups != [] && (forall k :: 0 <= k < |groups| ==> groups[k] != []) && '"' !in UpstreamText(groups)
    requires groups[|groups| - 1][|groups[|groups| - 1]| - 1] == ip + ":" + port
    requires Bytes(host) && ':' !in host && Bytes(path + query) && '?' !in path && (query == "" || query[0] == '?')
    requires esc('"') && esc('\\')
    requires line == Trailer(Itoa(code), UpstreamText(groups), Escape(esc, host), Escape(esc, path + query)).After(pre)
    requires !IsErrorLine(line)
    ensures ParseNginx(line) == Some(Entry(code, ip + ":" + port, Lower(host), path))
  {
    hide NewEntry, MatchTrailer, UpstreamText, LastServer, Unescape, Escape, IsErrorLine, Itoa, Lower;
    var t := Trailer(Itoa(code), UpstreamText(groups), Escape(esc, host), Escape(esc, path + query));
    ThreeDigits(code);
    EscapedQuotes(esc, host);
    EscapedQuotes(esc, path + query);
    TrailerFound(pre, t);
    UnescapeInverts(esc, host);
    UnescapeInverts(esc, path + query);
    var server := ip + ":" + port;
    forall i | 0 <= i < |server| ensures !Blank(server[i]) && server[i] != ',' {
      assert server[i] == if i < |ip| then ip[i] else if i == |ip| then ':' else port[i - |ip| - 1];
    }
    LastServerIs(groups);
    EntryIs(code, ip, port, LastServer(UpstreamText(groups)), host, path, query);
  }

  // ------------------------------------------------------- what is no request

  /** A line of the error log is no request, whatever it ends in. */
  lemma ErrorLineIsNothing(year: string, month: string, day: string, hour: string, minute: string, second: string,
                           rest: string)
    requires |year| == 4 && |month| == |day| == |hour| == |minute| == |second| == 2
    requires Digits(year + month + day + hour + minute + second)
    ensures ParseNginx(year + "/" + month + "/" + day + " " + hour + ":" + minute + ":" + second + " [" + rest) == None
  {
    hide MatchTrailer, NewEntry;
    var digits := year + month + day + hour + minute + second;
    var line := year + "/" + month + "/" + day + " " + hour + ":" + minute + ":" + second + " [" + rest;
    assert forall i :: 0 <= i < 4 ==> line[i] == digits[i];
    assert forall i :: 5 <= i < 7 ==> line[i] == digits[i - 1];
    assert forall i :: 8 <= i < 10 ==> line[i] == digits[i - 2];
    assert forall i :: 11 <= i < 13 ==> line[i] == digits[i - 3];
    assert forall i :: 14 <= i < 16 ==> line[i] == digits[i - 4];
    assert forall i :: 17 <= i < 19 ==> line[i] == digits[i - 5];
    assert IsErrorLine(line);
  }

  /** What stands on either side of the colon of an upstream. */
  predicate Half(s: string) {
    s == "" || s == "-" || AddressPart(s)
  }

  lemma HalvesSplit(ip: string, port: string)
    requires Half(ip) && Half(port)
    ensures SplitHostPort(ip + ":" + port) == Some((ip, port))
    ensures IsServer(ip + ":" + port) <==> AddressPart(ip) && AddressPart(port)
  {
    var s := ip + ":" + port;
    forall k | |ip| < k < |s| ensures !(":" <= s[k..]) {
      assert s[k..][0] == port[k - |ip| - 1];
    }
    assert s[|ip|..] == ":" + port;
    LastIndexIs(s, ":", |s|, |ip|);
    assert s[..|ip|] == ip && s[|ip| + 1..] == port;
  }

  /** A line with a trailer is a request exactly if its status is one and its upstream
      names a container: both an address and a port. */
  lemma RequestExactly(pre: string, status: string, ip: string, port: string, host: string, path: string)
    requires Half(ip) && Half(port)
    requires Trailer(status, ip + ":" + port, host, path).Quotable()
    requires !IsErrorLine(Trailer(status, ip + ":" + port, host, path).After(pre))
    ensures ParseNginx(Trailer(status, ip + ":" + port, host, path).After(pre)).Some? <==>
      100 <= Atoi(status) <= 599 && AddressPart(ip) && AddressPart(port)
  {
    hide MatchTrailer, Unescape, IsErrorLine, SplitHostPort, IsServer, Lower, LastServer, TrimLeft, TrimRight;
    var server := ip + ":" + port;
    TrailerFound(pre, Trailer(status, server, host, path));
    forall i | 0 <= i < |server| ensures !Blank(server[i]) && server[i] != '/' && server[i] != ',' {
      assert server[i] == if i < |ip| then ip[i] else if i == |ip| then ':' else port[i - |ip| - 1];
    }
    OneServer(server);
    TrimServer(server);
    NoScheme(server, 0);
    HalvesSplit(ip, port);
  }

  /** And a request that was sent nowhere has an upstream without a port. */
  lemma NobodyAnswered(pre: string, t: Trailer)
    requires t.Quotable() && (t.upstream == "" || t.upstream == "-")
    ensures ParseNginx(t.After(pre)) == None
  {
    hide MatchTrailer, Unescape, IsErrorLine, Lower;
    TrailerFound(pre, t);
    NoPort(t.upstream);
    NoScheme(t.upstream, 0);
    if t.upstream == "-" {
      OneServer("-");
      TrimServer("-");
    } else {
      AfterLastNone("", ",");
      AfterLastNone("", " : ");
    }
  }

  lemma {:induction false} SchemeCut(proto: string, rest: string, n: nat)
    requires n <= |proto| && ':' !in proto
    ensures AfterFirst(proto + "://" + rest, "://", n) == rest
    decreases |proto| - n
  {
    var s := proto + "://" + rest;
    if n == |proto| {
      assert s[n..] == "://" + rest;
      assert s[n + 3..] == rest;
    } else {
      assert s[n..][0] == proto[n];
      SchemeCut(proto, rest, n + 1);
    }
  }

  /** An upstream may be written as a URL, and a host with its port: neither changes
      the entry. */
  lemma UrlIsServer(code: nat, proto: string, ip: string, port: string, slash: string, host: string, at: string,
                    path: string, query: string)
    requires 100 <= code <= 599 && AddressPart(ip) && AddressPart(port)
    requires (proto == "" || Word(proto)) && ':' !in proto && (slash == "" || slash == "/")
    requires AddressPart(host) && Half(at) && '?' !in path && (query == "" || query[0] == '?')
    ensures NewEntry(Itoa(code), proto + "://" + (ip + ":" + port + slash), host + ":" + at, path + query)
         == Some(Entry(code, ip + ":" + port, Lower(host), path))
  {
    hide SplitHostPort, Itoa, Lower, TrimLeft, TrimRight;
    var server := ip + ":" + port;
    var upstream := proto + "://" + (server + slash);
    ThreeDigits(code);
    forall i | 0 <= i < |server + slash| ensures !Blank((server + slash)[i]) {
      assert (server + slash)[i] ==
        if i < |ip| then ip[i] else if i == |ip| then ':' else if i < |server| then port[i - |ip| - 1] else slash[0];
    }
    forall i | 0 <= i < |upstream| ensures !Blank(upstream[i]) {
      assert upstream[i] ==
        if i < |proto| then proto[i] else if i < |proto| + 3 then "://"[i - |proto|]
        else (server + slash)[i - |proto| - 3];
    }
    TrimServer(upstream);
    SchemeCut(proto, server + slash, 0);
    assert TrimSlash(server + slash) == server by { SlashOff(ip, port, slash); }
    ServerParts(ip, port);
    HalvesSplit(host, at);
    BeforeFirstIs(path, query, '?');
  }

  lemma SlashOff(ip: string, port: string, slash: string)
    requires AddressPart(ip) && AddressPart(port) && (slash == "" || slash == "/")
    ensures TrimSlash(ip + ":" + port + slash) == ip + ":" + port
  {
    var server := ip + ":" + port;
    assert server[|server| - 1] == port[|port| - 1];
    assert slash == "" ==> server + slash == server;
    assert slash == "/" ==> (server + slash)[..|server|] == server;
  }
}
