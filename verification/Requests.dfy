/** Requests the proxy answered and the rules that say which of them count as
    errors of the new version. */
module Requests {

  /** One request the proxy answered. */
  datatype Entry = Entry(status: int, upstream: string, host: string, path: string)

  /** One status (`502`) or a whole class (`5xx`). */
  datatype StatusMatch = StatusMatch(code: int, hundreds: bool)

  /** What the proxy's log delivers during a window, whether it breaks off, and whether
      the window is over by the time one looks. */
  datatype Delivery = Delivery(requests: seq<Entry>, lost: bool, over: bool)

  datatype Rules = Rules(failOn: seq<StatusMatch>, paths: seq<string>, maxErrors: int)

  /** Division that rounds toward zero. */
  function Truncated(a: int, b: int): int
    requires b > 0
  {
    if a >= 0 then a / b else -(-a / b)
  }

  predicate MatchesOne(m: StatusMatch, status: int) {
    if m.hundreds then Truncated(status, 100) == Truncated(m.code, 100) else status == m.code
  }

  predicate Counted(rules: Rules, status: int, path: string) {
    && (exists i :: 0 <= i < |rules.failOn| && MatchesOne(rules.failOn[i], status))
    && (rules.paths == [] || exists i :: 0 <= i < |rules.paths| && rules.paths[i] <= path)
  }

  /** A request from one of `greens` that the rules count. */
  predicate IsError(rules: Rules, greens: set<string>, e: Entry) {
    e.upstream in greens && Counted(rules, e.status, e.path)
  }

  function CountErrors(rules: Rules, greens: set<string>, es: seq<Entry>): nat {
    if es == [] then 0
    else CountErrors(rules, greens, es[..|es| - 1]) + (if IsError(rules, greens, es[|es| - 1]) then 1 else 0)
  }

  method MatchesStatus(matches: seq<StatusMatch>, status: int) returns (r: bool)
    ensures r <==> exists i :: 0 <= i < |matches| && MatchesOne(matches[i], status)
  {
    for i := 0 to |matches|
      invariant forall j :: 0 <= j < i ==> !MatchesOne(matches[j], status)
    {
      var m := matches[i];
      if (m.hundreds && Truncated(status, 100) == Truncated(m.code, 100)) || (!m.hundreds && status == m.code) {
        assert MatchesOne(matches[i], status);
        return true;
      }
    }
    return false;
  }

  method Counts(rules: Rules, status: int, path: string) returns (r: bool)
    ensures r <==> Counted(rules, status, path)
  {
    var matched := MatchesStatus(rules.failOn, status);
    if !matched {
      return false;
    }
    if |rules.paths| == 0 {
      return true;
    }
    for i := 0 to |rules.paths|
      invariant forall j :: 0 <= j < i ==> !(rules.paths[j] <= path)
    {
      if rules.paths[i] <= path {
        return true;
      }
    }
    return false;
  }

  /** A class match is exactly its hundred statuses. */
  lemma ClassIsItsHundred(digit: int, status: int)
    requires 1 <= digit <= 5
    ensures MatchesOne(StatusMatch(100 * digit, true), status) <==> 100 * digit <= status <= 100 * digit + 99
  {
  }

  lemma {:induction false} CountConcat(rules: Rules, greens: set<string>, a: seq<Entry>, b: seq<Entry>)
    ensures CountErrors(rules, greens, a + b) == CountErrors(rules, greens, a) + CountErrors(rules, greens, b)
  {
    if b == [] {
      assert a + b == a;
    } else {
      assert (a + b)[..|a + b| - 1] == a + b[..|b| - 1];
      CountConcat(rules, greens, a, b[..|b| - 1]);
    }
  }

  lemma {:induction false} ErrorsSplit(rules: Rules, greens: set<string>, es: seq<Entry>, k: nat)
    requires k < |es|
    ensures CountErrors(rules, greens, es)
         == CountErrors(rules, greens, es[..k] + es[k + 1..]) + (if IsError(rules, greens, es[k]) then 1 else 0)
  {
    assert es == es[..k] + ([es[k]] + es[k + 1..]);
    CountConcat(rules, greens, es[..k], [es[k]] + es[k + 1..]);
    CountConcat(rules, greens, [es[k]], es[k + 1..]);
    CountConcat(rules, greens, es[..k], es[k + 1..]);
    assert [es[k]][..0] == [];
  }

  lemma WithoutOne(es: seq<Entry>, k: nat)
    requires k < |es|
    ensures multiset(es[..k] + es[k + 1..]) == multiset(es) - multiset{es[k]}
  {
    assert es == es[..k] + [es[k]] + es[k + 1..];
  }

  lemma FindSame(a: seq<Entry>, b: seq<Entry>) returns (k: nat)
    requires a != [] && multiset(a) == multiset(b)
    ensures k < |b| && b[k] == a[0]
    ensures multiset(a[..0] + a[1..]) == multiset(b[..k] + b[k + 1..])
  {
    assert a[0] in multiset(a);
    assert a[0] in b;
    k :| 0 <= k < |b| && b[k] == a[0];
    WithoutOne(a, 0);
    WithoutOne(b, k);
  }

  /** The count does not depend on the order of delivery: deliveries of the same
      requests, each as often, count the same, however they interleave. */
  lemma {:induction false} OrderDoesNotMatter(rules: Rules, greens: set<string>, a: seq<Entry>, b: seq<Entry>)
    requires multiset(a) == multiset(b)
    ensures CountErrors(rules, greens, a) == CountErrors(rules, greens, b)
    decreases |a|
  {
    hide IsError, CountErrors;
    if a == [] {
      assert |b| == |multiset(b)| == |multiset(a)|;
    } else {
      var k := FindSame(a, b);
      OrderDoesNotMatter(rules, greens, a[..0] + a[1..], b[..k] + b[k + 1..]);
      ErrorsSplit(rules, greens, b, k);
      ErrorsSplit(rules, greens, a, 0);
    }
  }

  lemma {:induction false} CountGrows(rules: Rules, greens: set<string>, es: seq<Entry>, i: nat, j: nat)
    requires i <= j <= |es|
    ensures CountErrors(rules, greens, es[..i]) <= CountErrors(rules, greens, es[..j])
    ensures i < j && IsError(rules, greens, es[i]) ==>
      CountErrors(rules, greens, es[..i]) < CountErrors(rules, greens, es[..j])
  {
    hide IsError;
    if i < j {
      CountGrows(rules, greens, es, i, j - 1);
      assert es[..j][..j - 1] == es[..j - 1];
    }
  }

  /** What one request among others adds to the count: one if it was answered by a new
      container, with a status and under a path that the rules name, and else nothing. */
  lemma OneRequestCounts(rules: Rules, greens: set<string>, a: seq<Entry>, e: Entry, b: seq<Entry>)
    ensures CountErrors(rules, greens, a + [e] + b) == CountErrors(rules, greens, a + b) +
      if && e.upstream in greens
         && (exists i :: 0 <= i < |rules.failOn| &&
               if rules.failOn[i].hundreds then Truncated(e.status, 100) == Truncated(rules.failOn[i].code, 100)
               else e.status == rules.failOn[i].code)
         && (rules.paths == [] || exists i :: 0 <= i < |rules.paths| && rules.paths[i] <= e.path)
      then 1 else 0
  {
    hide CountErrors, Truncated;
    var es := a + [e] + b;
    ErrorsSplit(rules, greens, es, |a|);
    assert es[..|a|] == a && es[|a| + 1..] == b && es[|a|] == e;
  }

  /** When the errors of a stream pass the limit, they do so at exactly one
      request. */
  lemma LimitPassedOnce(rules: Rules, greens: set<string>, es: seq<Entry>) returns (k: nat)
    requires 0 <= rules.maxErrors < CountErrors(rules, greens, es)
    ensures k < |es| && IsError(rules, greens, es[k]) && CountErrors(rules, greens, es[..k]) == rules.maxErrors
    ensures forall j :: 0 <= j < |es| && IsError(rules, greens, es[j]) ==>
      CountErrors(rules, greens, es[..j]) == rules.maxErrors ==> j == k
  {
    hide IsError;
    assert es[..|es|] == es;
    var n := |es|;
    while CountErrors(rules, greens, es[..n - 1]) > rules.maxErrors
      invariant 0 < n <= |es| && CountErrors(rules, greens, es[..n]) > rules.maxErrors
      decreases n
    {
      n := n - 1;
    }
    k := n - 1;
    assert es[..n][..k] == es[..k];
    forall j | 0 <= j < |es| && IsError(rules, greens, es[j]) && CountErrors(rules, greens, es[..j]) == rules.maxErrors
      ensures j == k
    {
      if j < k {
        CountGrows(rules, greens, es, j, k);
      } else {
        CountGrows(rules, greens, es, k, j);
      }
    }
  }

  /** Counts the errors users get from the new containers. */
  class ErrorWatch {
    const rules: Rules
    const greens: set<string>
    var errors: int
    var last: Entry
    /** Closed once the limit is passed; closing it twice would be a crash. */
    var exceeded: bool

    /** Everything delivered so far, in order of delivery. */
    ghost var delivered: seq<Entry>

    ghost predicate Valid()
      reads this
    {
      && errors == CountErrors(rules, greens, delivered)
      && (exceeded <==> errors > rules.maxErrors)
    }

    constructor (rules: Rules, addrs: seq<string>)
      requires 0 <= rules.maxErrors
      ensures Valid() && this.rules == rules && delivered == []
      ensures greens == set a | a in addrs
    {
      var seen: set<string> := {};
      for i := 0 to |addrs|
        invariant seen == set a | a in addrs[..i]
      {
        seen := seen + {addrs[i]};
      }
      assert addrs[..|addrs|] == addrs;
      this.rules := rules;
      this.greens := seen;
      this.errors := 0;
      this.last := Entry(0, "", "", "");
      this.exceeded := false;
      this.delivered := [];
    }

    /** The limit signal goes off in the call that makes the count pass the limit,
        and in no other. */
    method Observe(e: Entry)
      requires Valid()
      modifies this
      ensures Valid() && delivered == old(delivered) + [e]
      ensures exceeded && !old(exceeded) <==> IsError(rules, greens, e) && old(errors) == rules.maxErrors
      ensures old(exceeded) ==> exceeded
      ensures IsError(rules, greens, e) ==> last == e
    {
      delivered := delivered + [e];
      assert delivered[..|delivered| - 1] == old(delivered);
      if e.upstream !in greens {
        return;
      }
      var counts := Counts(rules, e.status, e.path);
      if !counts {
        return;
      }
      errors := errors + 1;
      last := e;
      if errors == rules.maxErrors + 1 {
        assert !exceeded;
        exceeded := true;
      }
    }

    /** Ends with the window, when the limit is passed, or when the stream is lost;
        of those that have come about any one comes up. `over` says whether the
        window was over by then. False when cancelled. */
    method Wait(lost: bool, over: bool, cancelled: bool) returns (ok: bool, tooMany: bool, blind: bool)
      requires Valid()
      ensures !ok ==> cancelled && !tooMany && !blind
      ensures tooMany ==> errors > rules.maxErrors
      ensures blind ==> lost && !tooMany
      ensures ok && !tooMany && !blind ==> over || (errors <= rules.maxErrors && !lost && !cancelled)
    {
      ok, tooMany, blind := true, false, false;
      if
      case cancelled => ok := false;
      case exceeded => tooMany := true;
      case lost => blind := true;
      case over || (!cancelled && !exceeded && !lost) =>
    }
  }
}
