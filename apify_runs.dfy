/** What the Instagram and TikTok scrapers share: polling an Apify actor run
    until it finishes, merging the datasets of several runs, dropping
    unwanted and duplicate items, and cleaning a hashtag. */
module ApifyRuns {
  import opened Wrappers
  import opened Text

  /** The default polling cadence: every 5 seconds, for at most 300 seconds. */
  const POLL_INTERVAL: nat := 5
  const MAX_WAIT: nat := 300

  /** One run-status request: the run's status and default dataset id, or
      the exception the request raised (an HTTP error status, a missing key). */
  datatype RunCheck = RunStatus(status: string, datasetId: string) | CheckRaised(message: string)

  /** A status on which the run is over without a dataset. */
  predicate IsFailedStatus(s: string) {
    s == "FAILED" || s == "ABORTED" || s == "TIMED-OUT"
  }

  /** The poll loop goes on after this response. */
  predicate Continues(c: RunCheck) {
    c.RunStatus? && c.status != "SUCCEEDED" && !IsFailedStatus(c.status)
  }

  /** The outcome of the response that ends the loop: the dataset id, or
      the error text (`runLabel` is "Apify" or "Apify TikTok"). */
  function Verdict(runLabel: string, c: RunCheck): (r: Result<string, string>)
    requires !Continues(c)
    ensures r.Ok? <==> c.RunStatus? && c.status == "SUCCEEDED"
    ensures r.Ok? ==> r.value == c.datasetId
  {
    match c
    case CheckRaised(msg) => Err(msg)
    case RunStatus(s, ds) => if s == "SUCCEEDED" then Ok(ds) else Err(runLabel + " run ended with status: " + s)
  }

  function TimeoutMessage(runLabel: string, maxWait: nat): string {
    runLabel + " run did not finish within " + NatToString(maxWait) + " seconds"
  }

  /** The poll loop from the `k`-th request on, `elapsed` seconds in;
      `check(k)` is the response to the `k`-th status request. */
  function PollFrom(runLabel: string, check: nat -> RunCheck, k: nat, elapsed: nat, interval: nat, maxWait: nat): Result<string, string>
    requires interval > 0
    decreases maxWait - elapsed
  {
    if elapsed >= maxWait then Err(TimeoutMessage(runLabel, maxWait))
    else if !Continues(check(k)) then Verdict(runLabel, check(k))
    else PollFrom(runLabel, check, k + 1, elapsed + interval, interval, maxWait)
  }

  /** `_poll_until_finished`: requests the run status every `interval`
      seconds while fewer than `maxWait` seconds have passed; stops with the
      dataset id on "SUCCEEDED", with an error on "FAILED", "ABORTED" or
      "TIMED-OUT" or when a request raises, and with a timeout error once
      the time is up. Every request is made before the deadline, so there
      are at most ceil(maxWait / interval) of them. */
  method PollUntilFinished(runLabel: string, check: nat -> RunCheck, interval: nat, maxWait: nat)
    returns (r: Result<string, string>, checks: nat)
    requires interval > 0
    ensures r == PollFrom(runLabel, check, 0, 0, interval, maxWait)
    ensures forall k :: 0 <= k < checks - 1 ==> Continues(check(k))
    ensures checks == 0 || (checks - 1) * interval < maxWait
    ensures checks <= (maxWait + interval - 1) / interval
    ensures checks > 0 && !Continues(check(checks - 1)) ==> r == Verdict(runLabel, check(checks - 1))
    ensures !(checks > 0 && !Continues(check(checks - 1))) ==>
              checks * interval >= maxWait && r == Err(TimeoutMessage(runLabel, maxWait))
  {
    var elapsed: nat := 0;
    checks := 0;
    while elapsed < maxWait
      invariant elapsed == checks * interval
      invariant checks == 0 || (checks - 1) * interval < maxWait
      invariant forall k :: 0 <= k < checks ==> Continues(check(k))
      invariant PollFrom(runLabel, check, checks, elapsed, interval, maxWait) == PollFrom(runLabel, check, 0, 0, interval, maxWait)
      decreases maxWait - elapsed
    {
      var c := check(checks);
      checks := checks + 1;
      if !Continues(c) {
        r := Verdict(runLabel, c);
        CheckBound(checks, interval, maxWait);
        return;
      }
      elapsed := elapsed + interval;
      assert elapsed == checks * interval;
    }
    r := Err(TimeoutMessage(runLabel, maxWait));
    CheckBound(checks, interval, maxWait);
  }

  lemma CheckBound(checks: nat, interval: nat, maxWait: nat)
    requires interval > 0
    requires checks == 0 || (checks - 1) * interval < maxWait
    ensures checks <= (maxWait + interval - 1) / interval
  {
    var q := (maxWait + interval - 1) / interval;
    if checks > q {
      MulMono(checks - 1, q, interval);
    }
  }

  lemma MulMono(a: nat, b: nat, c: nat)
    requires a >= b
    ensures a * c >= b * c
  {
  }

  /** One actor run of a scrape: whether it could be started, the responses
      its status requests get, and the dataset it fetched. */
  datatype RunTrace<P> = RunTrace(start: Result<string, string>, check: nat -> RunCheck, fetch: Result<seq<P>, string>)

  /** One run's items, or the error that stopped it. */
  function RunOutcome<P>(runLabel: string, run: RunTrace<P>): Result<seq<P>, string> {
    if run.start.Err? then Err(run.start.error)
    else
      var polled := PollFrom(runLabel, run.check, 0, 0, POLL_INTERVAL, MAX_WAIT);
      if polled.Err? then Err(polled.error) else run.fetch
  }

  /** The runs' items one run after another, or the first run's error. */
  function Collected<P>(runLabel: string, runs: seq<RunTrace<P>>): Result<seq<P>, string> {
    if runs == [] then Ok([])
    else
      var first := RunOutcome(runLabel, runs[0]);
      if first.Err? then first
      else
        var rest := Collected(runLabel, runs[1..]);
        if rest.Err? then rest else Ok(first.value + rest.value)
  }

  function Prepend<P>(items: seq<P>, r: Result<seq<P>, string>): Result<seq<P>, string> {
    if r.Err? then r else Ok(items + r.value)
  }

  /** The scrapers' run loop: start a run, poll it, fetch its dataset and
      append it; the first failure is raised to the caller. */
  method CollectRuns<P>(runLabel: string, runs: seq<RunTrace<P>>) returns (r: Result<seq<P>, string>)
    ensures r == Collected(runLabel, runs)
  {
    var all: seq<P> := [];
    assert runs[0..] == runs;
    assert Prepend([], Collected(runLabel, runs)) == Collected(runLabel, runs) by {
      if Collected(runLabel, runs).Ok? {
        assert [] + Collected(runLabel, runs).value == Collected(runLabel, runs).value;
      }
    }
    for i := 0 to |runs|
      invariant Collected(runLabel, runs) == Prepend(all, Collected(runLabel, runs[i..]))
    {
      assert runs[i..][1..] == runs[i + 1..];
      var run := runs[i];
      if run.start.Err? {
        return Err(run.start.error);
      }
      var polled, _ := PollUntilFinished(runLabel, run.check, POLL_INTERVAL, MAX_WAIT);
      if polled.Err? {
        return Err(polled.error);
      }
      if run.fetch.Err? {
        return Err(run.fetch.error);
      }
      assert all + (run.fetch.value + (if Collected(runLabel, runs[i + 1..]).Ok? then Collected(runLabel, runs[i + 1..]).value else []))
          == (all + run.fetch.value) + (if Collected(runLabel, runs[i + 1..]).Ok? then Collected(runLabel, runs[i + 1..]).value else []);
      all := all + run.fetch.value;
    }
    assert runs[|runs|..] == [];
    r := Ok(all);
    assert all + [] == all;
  }

  // ----- filtering and de-duplication -----

  /** The items kept by the filter-and-dedupe loop, `seen` holding the keys
      already taken: an item is skipped when `keep` rejects it, or when its
      key is non-empty and already seen; otherwise it is kept and its
      non-empty key is remembered. */
  function Dedupe<T>(ps: seq<T>, keep: T -> bool, key: T -> string, seen: set<string>): seq<T>
  {
    if ps == [] then []
    else
      var p := ps[0];
      var k := key(p);
      if !keep(p) || (k != "" && k in seen) then Dedupe(ps[1..], keep, key, seen)
      else [p] + Dedupe(ps[1..], keep, key, if k != "" then seen + {k} else seen)
  }

  /** One step of `Dedupe` on a non-empty list. */
  lemma DedupeHead<T>(ps: seq<T>, keep: T -> bool, key: T -> string, seen: set<string>)
    requires ps != []
    ensures !keep(ps[0]) || (key(ps[0]) != "" && key(ps[0]) in seen) ==>
              Dedupe(ps, keep, key, seen) == Dedupe(ps[1..], keep, key, seen)
    ensures keep(ps[0]) && !(key(ps[0]) != "" && key(ps[0]) in seen) ==>
              Dedupe(ps, keep, key, seen)
              == [ps[0]] + Dedupe(ps[1..], keep, key, if key(ps[0]) != "" then seen + {key(ps[0])} else seen)
  {
  }

  /** The loop itself, over the merged items. */
  method DedupeLoop<T>(all: seq<T>, keep: T -> bool, key: T -> string) returns (valid: seq<T>)
    ensures valid == Dedupe(all, keep, key, {})
  {
    var seen: set<string> := {};
    valid := [];
    for i := 0 to |all|
      invariant valid + Dedupe(all[i..], keep, key, seen) == Dedupe(all, keep, key, {})
    {
      var p := all[i];
      assert all[i..][0] == p && all[i..][1..] == all[i + 1..];
      DedupeHead(all[i..], keep, key, seen);
      if !keep(p) {
        continue;
      }
      var pid := key(p);
      if pid != "" && pid in seen {
        continue;
      }
      ghost var rest := Dedupe(all[i + 1..], keep, key, if pid != "" then seen + {pid} else seen);
      assert valid + ([p] + rest) == (valid + [p]) + rest;
      if pid != "" {
        seen := seen + {pid};
      }
      valid := valid + [p];
    }
    assert all[|all|..] == [];
    assert valid + [] == valid;
  }

  /** `sub` is `s` with some items left out, in the original order. */
  predicate IsSubsequence<T(==)>(sub: seq<T>, s: seq<T>) {
    if sub == [] then true
    else if s == [] then false
    else if sub[0] == s[0] then IsSubsequence(sub[1..], s[1..])
    else IsSubsequence(sub, s[1..])
  }

  /** Every kept item passes the filter, has a key not seen before, and the
      kept items are the input with items left out, in order. */
  lemma {:induction false} DedupeSound<T>(ps: seq<T>, keep: T -> bool, key: T -> string, seen: set<string>)
    ensures forall q :: q in Dedupe(ps, keep, key, seen) ==> q in ps && keep(q) && (key(q) == "" || key(q) !in seen)
    ensures IsSubsequence(Dedupe(ps, keep, key, seen), ps)
    decreases |ps|
  {
    if ps != [] {
      var p := ps[0];
      var k := key(p);
      if !keep(p) || (k != "" && k in seen) {
        DedupeSound(ps[1..], keep, key, seen);
        SubsequenceSkip(Dedupe(ps[1..], keep, key, seen), ps);
      } else {
        var seen' := if k != "" then seen + {k} else seen;
        DedupeSound(ps[1..], keep, key, seen');
        var out := [p] + Dedupe(ps[1..], keep, key, seen');
        assert out[1..] == Dedupe(ps[1..], keep, key, seen');
      }
    }
  }

  lemma {:induction false} SubsequenceSkip<T>(sub: seq<T>, s: seq<T>)
    requires s != [] && IsSubsequence(sub, s[1..])
    ensures IsSubsequence(sub, s)
    decreases |s|, |sub|, 1
  {
    if sub != [] && sub[0] == s[0] {
      SubsequenceDrop(sub, s[1..]);
    }
  }

  /** A subsequence of `t` with its first item removed is still one. */
  lemma {:induction false} SubsequenceDrop<T>(sub: seq<T>, t: seq<T>)
    requires sub != [] && IsSubsequence(sub, t)
    ensures IsSubsequence(sub[1..], t)
    decreases |t|, |sub|, 0
  {
    if t != [] {
      if sub[0] == t[0] {
        if sub[1..] != [] {
          SubsequenceSkip(sub[1..], t);
        }
      } else {
        SubsequenceDrop(sub, t[1..]);
        if sub[1..] != [] {
          SubsequenceSkip(sub[1..], t);
        }
      }
    }
  }

  /** No two items share a non-empty key. */
  ghost predicate UniqueKeys<T>(s: seq<T>, key: T -> string) {
    forall i, j :: 0 <= i < j < |s| && key(s[i]) != "" ==> key(s[i]) != key(s[j])
  }

  /** No two kept items share a non-empty key. */
  lemma {:induction false} DedupeUnique<T>(ps: seq<T>, keep: T -> bool, key: T -> string, seen: set<string>)
    ensures UniqueKeys(Dedupe(ps, keep, key, seen), key)
    decreases |ps|
  {
    if ps != [] {
      var p := ps[0];
      var k := key(p);
      if !keep(p) || (k != "" && k in seen) {
        DedupeUnique(ps[1..], keep, key, seen);
        assert Dedupe(ps, keep, key, seen) == Dedupe(ps[1..], keep, key, seen);
      } else {
        var seen' := if k != "" then seen + {k} else seen;
        DedupeUnique(ps[1..], keep, key, seen');
        DedupeSound(ps[1..], keep, key, seen');
        var tail := Dedupe(ps[1..], keep, key, seen');
        var out := [p] + tail;
        assert Dedupe(ps, keep, key, seen) == out;
        assert k != "" ==> k in seen';
        forall i, j | 0 <= i < j < |out| && key(out[i]) != ""
          ensures key(out[i]) != key(out[j])
        {
          var q := tail[j - 1];
          assert out[j] == q && q in tail;
          assert key(q) == "" || key(q) !in seen';
          if i > 0 {
            assert out[i] == tail[i - 1];
            assert key(tail[i - 1]) != key(tail[j - 1]);
          } else {
            assert out[i] == p && key(p) == k && k in seen';
          }
        }
      }
    }
  }

  /** Every item the filter accepts is kept when it has no key, or when it is
      the first accepted item with its key and that key was not seen. */
  lemma {:induction false} DedupeComplete<T>(ps: seq<T>, keep: T -> bool, key: T -> string, seen: set<string>, i: nat)
    requires i < |ps| && keep(ps[i])
    requires key(ps[i]) != "" ==> key(ps[i]) !in seen && forall j :: 0 <= j < i && keep(ps[j]) ==> key(ps[j]) != key(ps[i])
    ensures ps[i] in Dedupe(ps, keep, key, seen)
    decreases i
  {
    var p := ps[0];
    var k := key(p);
    var seen' := if !keep(p) || (k != "" && k in seen) then seen else if k != "" then seen + {k} else seen;
    if i > 0 {
      assert ps[1..][i - 1] == ps[i];
      assert forall j :: 0 <= j < i - 1 ==> ps[1..][j] == ps[j + 1];
      DedupeComplete(ps[1..], keep, key, seen', i - 1);
    }
  }

  // ----- hashtags -----

  /** The number of leading '#' characters. */
  function HashRun(s: string): (n: nat)
    ensures n <= |s|
    ensures forall i :: 0 <= i < n ==> s[i] == '#'
    ensures n == |s| || s[n] != '#'
  {
    if s != [] && s[0] == '#' then 1 + HashRun(s[1..]) else 0
  }

  /** `tag.strip().lstrip('#')`: the tag without surrounding whitespace and
      without its leading '#' characters. */
  function CleanTag(tag: string): (r: string)
    ensures r == [] || r[0] != '#'
    ensures r == Trim(tag)[HashRun(Trim(tag))..]
  {
    var t := Trim(tag);
    t[HashRun(t)..]
  }
}
