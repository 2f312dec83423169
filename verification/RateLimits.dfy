/** The sliding-window rate limiter (rate_limiter.py): a pruned bucket per key against the full history. */
module RateLimits {
  import opened Prelude

  datatype Rule = Rule(limit: int, windowSeconds: int)

  datatype Key = Key(identity: string, operation: string)

  datatype Request = Request(key: Key, now: real)

  type Rules = map<string, Rule>
  type Times = map<Key, seq<real>>

  const DEFAULT_RULES: Rules := map[
    "project_analysis" := Rule(10, 60),
    "context_build" := Rule(20, 60),
    "execution" := Rule(10, 60),
    "verification" := Rule(10, 60)
  ]

  function TimesOf(times: Times, key: Key): seq<real> {
    if key in times then times[key] else []
  }

  /** The entries after `start`, in order. */
  function After(hits: seq<real>, start: real): seq<real> {
    if hits == [] then []
    else After(Front(hits), start) + if Last(hits) > start then [Last(hits)] else []
  }

  function WindowStart(rule: Rule, now: real): real {
    now - rule.windowSeconds as real
  }

  predicate Allows(rules: Rules, times: Times, r: Request) {
    r.key.operation in rules ==>
      var rule := rules[r.key.operation];
      |After(TimesOf(times, r.key), WindowStart(rule, r.now))| < rule.limit
  }

  /** The buckets after a check: an allowed one overwrites its bucket with the pruned entries and itself. */
  function Pruned(rules: Rules, buckets: Times, r: Request): Times {
    if r.key.operation in rules && Allows(rules, buckets, r) then
      buckets[r.key := After(TimesOf(buckets, r.key), WindowStart(rules[r.key.operation], r.now)) + [r.now]]
    else buckets
  }

  // ----- the limiter ---------------------------------------------------------

  class RateLimiter {
    const rules: Rules
    var buckets: Times

    constructor (rules: Rules)
      ensures rules != map[] ==> this.rules == rules
      ensures rules == map[] ==>
        && this.rules.Keys == {"project_analysis", "context_build", "execution", "verification"}
        && forall operation :: operation in this.rules ==>
             this.rules[operation] == Rule(if operation == "context_build" then 20 else 10, 60)
      ensures buckets == map[]
    {
      this.rules := if rules == map[] then DEFAULT_RULES else rules;
      buckets := map[];
    }

    /** One protected operation; a refusal is the raised `RateLimitExceeded` and stores nothing. */
    method Check(r: Request) returns (allowed: bool)
      modifies this
      ensures allowed == Allows(rules, old(buckets), r)
      ensures buckets == Pruned(rules, old(buckets), r)
    {
      if r.key.operation !in rules {
        return true;
      }
      var rule := rules[r.key.operation];
      var stored := if r.key in buckets then buckets[r.key] else [];
      var start := r.now - rule.windowSeconds as real;
      var hits: seq<real> := [];
      var i := 0;
      while i < |stored|
        invariant i <= |stored|
        invariant hits == After(stored[..i], start)
      {
        assert Front(stored[..i + 1]) == stored[..i];
        if stored[i] > start {
          hits := hits + [stored[i]];
        }
        i := i + 1;
      }
      assert stored[..|stored|] == stored;
      if |hits| >= rule.limit {
        return false;
      }
      buckets := buckets[r.key := hits + [r.now]];
      return true;
    }
  }

  // ----- the reference: nothing is ever forgotten ----------------------------

  function Recorded(rules: Rules, history: Times, r: Request): Times {
    if r.key.operation in rules && Allows(rules, history, r)
    then history[r.key := TimesOf(history, r.key) + [r.now]] else history
  }

  function Buckets(rules: Rules, requests: seq<Request>): Times {
    if requests == [] then map[] else Pruned(rules, Buckets(rules, Front(requests)), Last(requests))
  }

  function History(rules: Rules, requests: seq<Request>): Times {
    if requests == [] then map[] else Recorded(rules, History(rules, Front(requests)), Last(requests))
  }

  /** The clock never goes back. */
  predicate Ordered(requests: seq<Request>) {
    forall i, j :: 0 <= i < j < |requests| ==> requests[i].now <= requests[j].now
  }

  lemma {:induction false} AfterTwice(hits: seq<real>, a: real, b: real)
    requires a <= b
    ensures After(After(hits, a), b) == After(hits, b)
  {
    if hits != [] {
      AfterTwice(Front(hits), a, b);
      AfterAppend(After(Front(hits), a), Last(hits), b);
      assert After(Front(hits), a) + [] == After(Front(hits), a);
    }
  }

  lemma AfterAppend(hits: seq<real>, t: real, start: real)
    ensures After(hits + [t], start) == After(hits, start) + if t > start then [t] else []
  {
    assert Front(hits + [t]) == hits;
  }

  lemma OneCheck(rules: Rules, buckets: Times, history: Times, r: Request, key: Key)
    requires key.operation in rules
    ensures
      var kept, next := TimesOf(buckets, key), TimesOf(Pruned(rules, buckets, r), key);
      next == if r.key == key && Allows(rules, buckets, r)
             then After(kept, WindowStart(rules[key.operation], r.now)) + [r.now] else kept
    ensures
      var kept, next := TimesOf(history, key), TimesOf(Recorded(rules, history, r), key);
      next == if r.key == key && Allows(rules, history, r) then kept + [r.now] else kept
  {
    hide After, Allows;
  }

  /** Pruning forgets only what no later window can see. */
  lemma {:induction false} SameRecent(rules: Rules, requests: seq<Request>, key: Key, start: real)
    requires Ordered(requests) && key.operation in rules
    requires requests != [] ==> WindowStart(rules[key.operation], Last(requests).now) <= start
    ensures After(TimesOf(Buckets(rules, requests), key), start) == After(TimesOf(History(rules, requests), key), start)
  {
    hide After, Pruned, Recorded, TimesOf;
    if requests != [] {
      var before, r := Front(requests), Last(requests);
      assert before != [] ==> Last(before).now <= r.now;
      var buckets, history := Buckets(rules, before), History(rules, before);
      SameRecent(rules, before, key, start);
      OneCheck(rules, buckets, history, r, key);
      if r.key == key {
        var cut := WindowStart(rules[key.operation], r.now);
        SameRecent(rules, before, key, cut);
        AfterTwice(TimesOf(buckets, key), cut, start);
        AfterAppend(After(TimesOf(buckets, key), cut), r.now, start);
        AfterAppend(TimesOf(history, key), r.now, start);
      }
    }
  }

  /** Each decision on the pruned bucket is the decision on the full history of allowed checks. */
  lemma PrunedDecidesAsHistory(rules: Rules, requests: seq<Request>, i: nat)
    requires Ordered(requests) && i < |requests|
    ensures Allows(rules, Buckets(rules, requests[..i]), requests[i])
      == Allows(rules, History(rules, requests[..i]), requests[i])
  {
    var r := requests[i];
    if r.key.operation in rules {
      SameRecent(rules, requests[..i], r.key, WindowStart(rules[r.key.operation], r.now));
    }
  }

  // ----- the limit -----------------------------------------------------------

  /** Allowed checks at times in `(from, to]`. */
  function Within(times: seq<real>, from: real, to: real): nat {
    if times == [] then 0
    else Within(Front(times), from, to) + if from < Last(times) <= to then 1 else 0
  }

  lemma {:induction false} WithinBound(times: seq<real>, start: real, from: real, to: real)
    requires start <= from
    ensures Within(times, from, to) <= |After(times, start)|
  {
    if times != [] {
      WithinBound(Front(times), start, from, to);
    }
  }

  lemma {:induction false} HistoryNeverOverfull(rules: Rules, requests: seq<Request>, key: Key, from: real)
    requires key.operation in rules
    ensures
      var rule := rules[key.operation];
      Within(TimesOf(History(rules, requests), key), from, from + rule.windowSeconds as real)
      <= if rule.limit > 0 then rule.limit else 0
  {
    if requests != [] {
      HistoryNeverOverfull(rules, Front(requests), key, from);
      var rule, r := rules[key.operation], Last(requests);
      var history := TimesOf(History(rules, Front(requests)), key);
      if r.key == key && Allows(rules, History(rules, Front(requests)), r) {
        assert Front(history + [r.now]) == history;
        if from < r.now <= from + rule.windowSeconds as real {
          WithinBound(history, WindowStart(rule, r.now), from, from + rule.windowSeconds as real);
        }
      }
    }
  }

  /** The times of the checks of a key that the limiter accepted, each decided on its pruned bucket. */
  function Accepted(rules: Rules, requests: seq<Request>, key: Key): seq<real> {
    if requests == [] then []
    else
      var before, r := Front(requests), Last(requests);
      Accepted(rules, before, key)
      + if r.key == key && Allows(rules, Buckets(rules, before), r) then [r.now] else []
  }

  lemma {:induction false} AcceptedIsHistory(rules: Rules, requests: seq<Request>, key: Key)
    requires Ordered(requests) && key.operation in rules
    ensures Accepted(rules, requests, key) == TimesOf(History(rules, requests), key)
  {
    hide After, Pruned, Recorded, Allows;
    if requests != [] {
      var before, r := Front(requests), Last(requests);
      AcceptedIsHistory(rules, before, key);
      PrunedDecidesAsHistory(rules, requests, |before|);
      OneCheck(rules, Buckets(rules, before), History(rules, before), r, key);
    }
  }

  /** In every window of the rule's length, wherever it is placed, the limiter accepted at most `limit` checks. */
  lemma WindowNeverOverfull(rules: Rules, requests: seq<Request>, key: Key, from: real)
    requires Ordered(requests) && key.operation in rules
    ensures
      var rule := rules[key.operation];
      Within(Accepted(rules, requests, key), from, from + rule.windowSeconds as real)
      <= if rule.limit > 0 then rule.limit else 0
  {
    AcceptedIsHistory(rules, requests, key);
    HistoryNeverOverfull(rules, requests, key, from);
  }

  lemma AcceptStep(rules: Rules, requests: seq<Request>, r: Request, kept: seq<real>)
    requires r.key.operation in rules && |kept| < rules[r.key.operation].limit
    requires kept == After(TimesOf(Buckets(rules, requests), r.key), WindowStart(rules[r.key.operation], r.now))
    ensures TimesOf(Buckets(rules, requests + [r]), r.key) == kept + [r.now]
    ensures Accepted(rules, requests + [r], r.key) == Accepted(rules, requests, r.key) + [r.now]
  {
    hide After;
    assert Front(requests + [r]) == requests;
  }

  lemma NothingYet(rules: Rules, key: Key)
    ensures TimesOf(Buckets(rules, []), key) == [] && Accepted(rules, [], key) == []
  {
  }

  lemma AfterFew(hits: seq<real>, start: real)
    ensures hits == [] ==> After(hits, start) == []
    ensures |hits| == 1 ==> After(hits, start) == if hits[0] > start then hits else []
    ensures |hits| == 2 && hits[0] <= start && hits[1] <= start ==> After(hits, start) == []
  {
  }

  /** The clock must not go back: with two accepted checks at 0, one at 100 and one at 1, three fall in (-1, 59]. */
  lemma BackwardClockOverfills(key: Key)
    ensures
      var rules: Rules := map[key.operation := Rule(2, 60)];
      var requests := [Request(key, 0.0)] + [Request(key, 0.0)] + [Request(key, 100.0)] + [Request(key, 1.0)];
      Within(Accepted(rules, requests, key), -1.0, 59.0) == 3
  {
    hide Buckets, Accepted, After;
    var rules: Rules := map[key.operation := Rule(2, 60)];
    var a, c, d := Request(key, 0.0), Request(key, 100.0), Request(key, 1.0);
    NothingYet(rules, key);
    AfterFew([], -60.0);
    AcceptStep(rules, [], a, []);
    assert [] + [a] == [a];
    assert TimesOf(Buckets(rules, [a]), key) == [0.0];
    AfterFew([0.0], -60.0);
    AcceptStep(rules, [a], a, [0.0]);
    assert TimesOf(Buckets(rules, [a] + [a]), key) == [0.0, 0.0];
    AfterFew([0.0, 0.0], 40.0);
    AcceptStep(rules, [a] + [a], c, []);
    assert TimesOf(Buckets(rules, [a] + [a] + [c]), key) == [100.0];
    AfterFew([100.0], -59.0);
    AcceptStep(rules, [a] + [a] + [c], d, [100.0]);
    assert Within([], -1.0, 59.0) == 0;
    WithinAppend([], 0.0);
    WithinAppend([] + [0.0], 0.0);
    WithinAppend([] + [0.0] + [0.0], 100.0);
    WithinAppend([] + [0.0] + [0.0] + [100.0], 1.0);
  }

  lemma WithinAppend(times: seq<real>, t: real)
    ensures Within(times + [t], -1.0, 59.0) == Within(times, -1.0, 59.0) + if -1.0 < t <= 59.0 then 1 else 0
  {
    assert Front(times + [t]) == times;
  }
}
