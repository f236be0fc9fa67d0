/**
 * The container stabilization hard check (src/runner/stabilization.rs) and the window validation
 * that makes it satisfiable (src/config.rs). Durations are milliseconds.
 */
module Stabilization {
  import opened Wrappers
  import opened Names

  datatype Container = Container(name: string, state: Option<string>, running: bool)

  /** One answer to `get_package_details`: containers, or an error. */
  datatype Observation = Unreadable | Readable(containers: seq<Container>)

  datatype StabilizationConfig = StabilizationConfig(timeout: nat, pollInterval: nat, requiredSamples: nat)

  datatype Sample = Sample(containerNames: seq<string>, allRunning: bool, nonRunningStates: seq<string>, failed: bool)

  datatype StabilizationResult = StabilizationResult(
    passed: bool,
    stableSamples: nat,
    samples: seq<Sample>,
    lastNonRunningStates: seq<string>)

  const MAX_HISTORY: nat := 100
  const MAX_ATTEMPTS: nat := 10_000

  function Min(a: nat, b: nat): nat {
    if a < b then a else b
  }

  /** How many samples the timeout leaves room for. */
  function AttemptBudget(config: StabilizationConfig): nat {
    var poll := if config.pollInterval < 1 then 1 else config.pollInterval;
    Min(config.timeout / poll + 1, MAX_ATTEMPTS)
  }

  // ---------------------------------------------------------------- one observation

  function NamesOf(containers: seq<Container>): seq<string> {
    seq(|containers|, i requires 0 <= i < |containers| => containers[i].name)
  }

  function NonRunning(containers: seq<Container>): seq<string> {
    if containers == [] then []
    else
      var rest := NonRunning(containers[1..]);
      var c := containers[0];
      if c.running then rest
      else [c.name + ":" + (if c.state.Some? then c.state.value else "unknown")] + rest
  }

  predicate AllRunning(containers: seq<Container>) {
    containers != [] && forall c :: c in containers ==> c.running
  }

  lemma {:induction false} NonRunningIsEmptyIffAllRun(containers: seq<Container>)
    ensures containers != [] && NonRunning(containers) == [] <==> AllRunning(containers)
  {
    if containers != [] {
      assert containers == [containers[0]] + containers[1..];
      if |containers| > 1 {
        NonRunningIsEmptyIffAllRun(containers[1..]);
      }
    }
  }

  /** The states are those of the containers that do not run, in their order. */
  lemma {:induction false} NonRunningNamesTheStopped(before: seq<Container>, c: Container)
    ensures NonRunning([]) == []
    ensures NonRunning(before + [c]) == NonRunning(before) +
                                        if c.running then [] else [c.name + ":" + if c.state.Some? then c.state.value else "unknown"]
  {
    if before == [] {
      assert [] + [c] == [c];
    } else {
      NonRunningNamesTheStopped(before[1..], c);
      assert (before + [c])[1..] == before[1..] + [c];
    }
  }

  function SampleOf(o: Observation): Sample {
    match o
    case Unreadable => Sample([], false, [], true)
    case Readable(containers) =>
      var nonRunning := NonRunning(containers);
      Sample(Sorted(NamesOf(containers)), containers != [] && nonRunning == [], nonRunning, false)
  }

  /** What the check looks at: the container names of an all-running package. */
  function Vital(o: Observation): Option<seq<string>> {
    if o.Readable? && AllRunning(o.containers) then Some(Sorted(NamesOf(o.containers))) else None
  }

  /** Two all-running observations agree exactly when they show the same names equally often. */
  lemma SameVitalIffSameContainers(a: Observation, b: Observation)
    requires Vital(a).Some? && Vital(b).Some?
    ensures Vital(a) == Vital(b) <==> multiset(NamesOf(a.containers)) == multiset(NamesOf(b.containers))
  {
    SortedEqualIffSameNames(NamesOf(a.containers), NamesOf(b.containers));
  }

  /** The sample the source stores says just that. */
  lemma SampleShowsVital(o: Observation)
    ensures SampleOf(o).allRunning <==> Vital(o).Some?
    ensures Vital(o).Some? ==> SampleOf(o).containerNames == Vital(o).value && Vital(o).value != [] && !SampleOf(o).failed
  {
    if o.Readable? {
      NonRunningIsEmptyIffAllRun(o.containers);
    }
  }

  ghost function Vitals(seen: seq<Observation>): (v: seq<Option<seq<string>>>)
    ensures |v| == |seen|
    ensures forall i :: 0 <= i < |seen| ==> v[i] == Vital(seen[i])
  {
    if seen == [] then [] else Vitals(seen[..|seen| - 1]) + [Vital(seen[|seen| - 1])]
  }

  // ---------------------------------------------------------------- what a streak is

  /** The last k entries are present and all equal. */
  ghost predicate IsStreak<T>(v: seq<Option<T>>, k: nat) {
    k <= |v| && forall i :: |v| - k <= i < |v| ==> v[i].Some? && v[i] == v[|v| - 1]
  }

  ghost predicate IsLongestStreak<T>(v: seq<Option<T>>, k: nat) {
    IsStreak(v, k) && forall j :: k < j <= |v| ==> !IsStreak(v, j)
  }

  /** The running count the source keeps, entry by entry. */
  ghost function Streak<T>(v: seq<Option<T>>): nat {
    if v == [] || v[|v| - 1] == None then 0
    else if |v| > 1 && v[|v| - 2] == v[|v| - 1] then Streak(v[..|v| - 1]) + 1
    else 1
  }

  /** The count is the declarative thing: the longest suffix of equal, present entries. */
  lemma {:induction false} StreakIsLongest<T>(v: seq<Option<T>>)
    ensures IsLongestStreak(v, Streak(v))
  {
    if v != [] {
      var n := |v| - 1;
      var before := v[..n];
      StreakIsLongest(before);
      forall j | Streak(v) < j <= |v|
        ensures !IsStreak(v, j)
      {
        if v[n].Some? && n > 0 && v[n - 1] == v[n] {
          assert !IsStreak(before, j - 1);
          var i :| n - (j - 1) <= i < n && !(before[i].Some? && before[i] == before[n - 1]);
          assert v[i] == before[i];
        }
      }
    }
  }

  /** The check passes at an answered sample that completes a long enough streak. */
  ghost predicate PassesAt(seen: seq<Observation>, required: nat) {
    seen != [] && seen[|seen| - 1].Readable? && Streak(Vitals(seen)) >= required
  }

  // ---------------------------------------------------------------- bounded evidence

  ghost function SamplesOf(seen: seq<Observation>): (samples: seq<Sample>)
    ensures |samples| == |seen|
    ensures forall i :: 0 <= i < |seen| ==> samples[i] == SampleOf(seen[i])
  {
    if seen == [] then [] else SamplesOf(seen[..|seen| - 1]) + [SampleOf(seen[|seen| - 1])]
  }

  ghost function LastNonRunning(seen: seq<Observation>): seq<string> {
    if seen == [] then []
    else
      var last := SampleOf(seen[|seen| - 1]).nonRunningStates;
      if last != [] then last else LastNonRunning(seen[..|seen| - 1])
  }

  function Recent<T>(s: seq<T>): seq<T> {
    s[|s| - Min(MAX_HISTORY, |s|)..]
  }

  method PushSample(samples: seq<Sample>, sample: Sample, ghost all: seq<Sample>) returns (r: seq<Sample>)
    requires samples == Recent(all)
    ensures r == Recent(all + [sample])
  {
    r := samples;
    if |r| == MAX_HISTORY {
      r := r[1..];
    }
    r := r + [sample];
  }

  // ---------------------------------------------------------------- the loop

  /** The variables the loop carries from sample to sample. */
  datatype Tracking = Tracking(
    consecutive: nat,
    expectedNames: Option<seq<string>>,
    samples: seq<Sample>,
    lastNonRunning: seq<string>)

  /** They summarize exactly what has been observed so far. */
  ghost predicate Tracks(t: Tracking, seen: seq<Observation>) {
    && t.consecutive == Streak(Vitals(seen))
    && t.expectedNames == (if seen == [] then None else Vital(seen[|seen| - 1]))
    && t.samples == Recent(SamplesOf(seen))
    && t.lastNonRunning == LastNonRunning(seen)
  }

  /** One answered or failed sample. */
  method TakeSample(t: Tracking, answer: Observation, ghost seen: seq<Observation>) returns (r: Tracking)
    requires Tracks(t, seen)
    ensures Tracks(r, seen + [answer])
  {
    ghost var after := seen + [answer];
    assert after[..|seen|] == seen && after[|seen|] == answer;
    assert Vitals(after) == Vitals(seen) + [Vital(answer)];
    assert Vitals(after)[..|seen|] == Vitals(seen);
    var sample := SampleOf(answer);
    var samples := PushSample(t.samples, sample, SamplesOf(seen));
    var lastNonRunning := if sample.nonRunningStates != [] then sample.nonRunningStates else t.lastNonRunning;
    SampleShowsVital(answer);
    if !sample.allRunning {
      r := Tracking(0, None, samples, lastNonRunning);
    } else {
      if t.expectedNames == Some(sample.containerNames) {
        r := Tracking(t.consecutive + 1, t.expectedNames, samples, lastNonRunning);
      } else {
        r := Tracking(1, Some(sample.containerNames), samples, lastNonRunning);
      }
    }
  }

  /** The result summarizes what was observed. */
  ghost predicate Reports(result: StabilizationResult, seen: seq<Observation>) {
    && result.stableSamples == Streak(Vitals(seen))
    && result.samples == Recent(SamplesOf(seen))
    && result.lastNonRunningStates == LastNonRunning(seen)
  }

  /** Everything up to and including the last answer was asked for, and nothing passed before it. */
  ghost predicate Polled(seen: seq<Observation>, answers: seq<Observation>, required: nat) {
    |seen| <= |answers| && seen == answers[..|seen|] && NoEarlierPass(seen, required)
  }

  lemma EmptyHistory(answers: seq<Observation>, config: StabilizationConfig)
    ensures Tracks(Tracking(0, None, [], []), []) && TimeSlept(0, config) == 0
    ensures Polled([], answers, config.requiredSamples) && !PassesAt([], config.requiredSamples)
  {
  }

  lemma PassesNow(t: Tracking, seen: seq<Observation>, answer: Observation, required: nat)
    requires Tracks(t, seen + [answer])
    ensures PassesAt(seen + [answer], required) <==> answer.Readable? && t.consecutive >= required
  {
  }

  /** Another sample would come after the timeout, or would be one too many. */
  predicate WindowIsOver(config: StabilizationConfig, samples: nat) {
    samples * (if config.pollInterval < 1 then 1 else config.pollInterval) > config.timeout || samples == 10_000
  }

  /** Every look at the signal but the one that stopped the check found Continue. */
  predicate Heard(signals: seq<bool>, looks: nat, stopped: bool) {
    && 0 < looks <= |signals|
    && forall k :: 0 <= k < looks ==> (signals[k] <==> !stopped || k < looks - 1)
  }

  /** The evidence holds the last hundred samples. */
  predicate KeepsLast(result: StabilizationResult, seen: seq<Observation>) {
    && |result.samples| == (if |seen| < 100 then |seen| else 100)
    && forall i :: 0 <= i < |result.samples| ==> result.samples[i] == SampleOf(seen[|seen| - |result.samples| + i])
  }

  /**
   * `answers` is what Dappmanager would answer to each detail call and `signals` whether each look at the
   * control signal would find Continue; both are arbitrary. `seen` is the part of the answers that was
   * asked for, `looks` how often the signal was read, and `slept` the time slept in between.
   */
  method Stabilize(answers: seq<Observation>, signals: seq<bool>, config: StabilizationConfig)
    returns (result: StabilizationResult, seen: seq<Observation>, looks: nat, stopped: bool, slept: nat)
    requires |answers| >= 10_000 && |signals| >= 20_000
    ensures |seen| <= 10_000 && Polled(seen, answers, config.requiredSamples)
    ensures Reports(result, seen)
    ensures KeepsLast(result, seen)
    ensures result.passed <==> PassesAt(seen, config.requiredSamples)
    ensures !result.passed && !stopped ==> WindowIsOver(config, |seen|)
    ensures Heard(signals, looks, stopped)
    ensures stopped ==> !result.passed && |seen| == looks / 2
    ensures !stopped ==> looks == 2 * |seen| - 1 && slept == TimeSlept(|seen| - 1, config)
    ensures slept <= config.timeout
  {
    hide Streak, Vitals, SamplesOf, LastNonRunning, Recent, Vital, WindowIsOver, SampleOf, KeepsLast, PassesAt, NoEarlierPass;
    EmptyHistory(answers, config);
    var maxAttempts := AttemptBudget(config);
    BudgetEndsWindow(config);
    var t, sleeps: nat := Tracking(0, None, [], []), 0;
    seen, looks, stopped, slept := [], 1, !signals[0], 0;
    while |seen| < maxAttempts && !stopped
      invariant |seen| <= maxAttempts
      invariant looks < 2 * maxAttempts
      invariant stopped ==> |seen| == looks / 2
      invariant !stopped ==> looks == if |seen| < maxAttempts then 2 * |seen| + 1 else 2 * |seen| - 1
      invariant Heard(signals, looks, stopped)
      invariant Tracks(t, seen)
      invariant Polled(seen, answers, config.requiredSamples) && !PassesAt(seen, config.requiredSamples)
      invariant sleeps < maxAttempts && sleeps == if |seen| < maxAttempts then |seen| else |seen| - 1
      invariant slept == TimeSlept(sleeps, config)
      decreases maxAttempts - |seen|
    {
      var answer := answers[|seen|];
      t := TakeSample(t, answer, seen);
      ExtendHistory(seen, answers, config.requiredSamples);
      PassesNow(t, seen, answer, config.requiredSamples);
      seen := seen + [answer];
      if answer.Readable? && t.consecutive >= config.requiredSamples {
        result := StabilizationResult(true, t.consecutive, t.samples, t.lastNonRunning);
        SleepFits(config, sleeps);
        ReportKeepsLast(result, seen);
        return;
      }
      if |seen| < maxAttempts {
        sleeps, slept := sleeps + 1, slept + config.pollInterval;
        LookAgain(signals, looks);
        looks, stopped := looks + 1, !signals[looks];
        if !stopped {
          LookAgain(signals, looks);
          looks, stopped := looks + 1, !signals[looks];
        }
      }
    }
    SleepFits(config, sleeps);
    result := StabilizationResult(false, t.consecutive, t.samples, t.lastNonRunning);
    ReportKeepsLast(result, seen);
  }

  lemma ReportKeepsLast(result: StabilizationResult, seen: seq<Observation>)
    requires Reports(result, seen)
    ensures KeepsLast(result, seen)
  {
    hide SampleOf, LastNonRunning, Streak, Vitals;
  }

  lemma LookAgain(signals: seq<bool>, looks: nat)
    requires Heard(signals, looks, false) && looks < |signals|
    ensures Heard(signals, looks + 1, !signals[looks])
  {
  }

  lemma BudgetEndsWindow(config: StabilizationConfig)
    ensures 0 < AttemptBudget(config) <= 10_000 && WindowIsOver(config, AttemptBudget(config))
  {
    var poll := if config.pollInterval < 1 then 1 else config.pollInterval;
    assert (config.timeout / poll + 1) * poll > config.timeout;
  }

  /** No proper prefix of what was observed already passed. */
  ghost predicate NoEarlierPass(seen: seq<Observation>, required: nat) {
    forall m :: 0 <= m < |seen| ==> !PassesAt(seen[..m], required)
  }

  lemma ExtendHistory(seen: seq<Observation>, answers: seq<Observation>, required: nat)
    requires |seen| < |answers| && Polled(seen, answers, required) && !PassesAt(seen, required)
    ensures Polled(seen + [answers[|seen|]], answers, required)
  {
    var n := |seen|;
    assert seen[..n] == seen && answers[..n + 1] == answers[..n] + [answers[n]];
    forall m | 0 <= m < n + 1
      ensures !PassesAt((seen + [answers[n]])[..m], required)
    {
      assert (seen + [answers[n]])[..m] == seen[..m];
    }
  }

  /** Total time slept over a number of polls. */
  function TimeSlept(polls: nat, config: StabilizationConfig): nat {
    if polls == 0 then 0 else TimeSlept(polls - 1, config) + config.pollInterval
  }

  lemma {:induction false} TimeSleptIsProduct(polls: nat, config: StabilizationConfig)
    ensures TimeSlept(polls, config) == polls * config.pollInterval
  {
    if polls > 0 {
      TimeSleptIsProduct(polls - 1, config);
    }
  }

  lemma ProductFits(t: nat, p: nat, k: nat)
    requires 0 < p && k <= t / p
    ensures k * p <= t
  {
    assert (t / p) * p <= t;
    assert k * p <= (t / p) * p;
  }

  lemma SleepFits(config: StabilizationConfig, polls: nat)
    requires polls < AttemptBudget(config)
    ensures TimeSlept(polls, config) <= config.timeout
  {
    TimeSleptIsProduct(polls, config);
    if config.pollInterval > 0 {
      ProductFits(config.timeout, config.pollInterval, polls);
    }
  }

  // ---------------------------------------------------------------- configuration

  /** The stabilization checks of `Config::from_env`; anything else is refused at startup. */
  predicate Accepted(config: StabilizationConfig) {
    && 1 <= config.requiredSamples <= 20
    && 100 <= config.timeout <= 600_000
    && 100 <= config.pollInterval <= 600_000
    && config.timeout >= config.pollInterval * (config.requiredSamples - 1)
  }

  lemma QuotientAtLeast(t: nat, p: nat, k: nat)
    requires 0 < p && p * k <= t
    ensures k <= t / p
  {
    var q := t / p;
    assert t < p * (q + 1);
    MultiplyCancels(p, k, q + 1);
  }

  lemma MultiplyCancels(p: nat, a: nat, b: nat)
    ensures p * a < p * b ==> a < b
  {
    if b <= a {
      assert p * b <= p * a;
    }
  }

  /** An accepted window always has room for the required run of samples. */
  lemma BudgetCoversRequiredRun(config: StabilizationConfig)
    requires Accepted(config)
    ensures !WindowIsOver(config, config.requiredSamples - 1)
    ensures AttemptBudget(config) >= config.requiredSamples
  {
    QuotientAtLeast(config.timeout, config.pollInterval, config.requiredSamples - 1);
  }

  /** What is steady from sample `from` on has passed once the required samples followed. */
  lemma SteadyPasses(seen: seq<Observation>, from: nat, required: nat)
    requires 1 <= required && from + required <= |seen|
    requires forall k :: from <= k < |seen| ==> Vital(seen[k]).Some? && Vital(seen[k]) == Vital(seen[from])
    ensures PassesAt(seen[..from + required], required)
    ensures PassesAt(seen, required) || !NoEarlierPass(seen, required)
  {
    var start := seen[..from + required];
    var v := Vitals(start);
    forall i | |v| - required <= i < |v|
      ensures v[i].Some? && v[i] == v[|v| - 1]
    {
      assert start[i] == seen[i];
    }
    assert IsStreak(v, required);
    StreakIsLongest(v);
    assert start[|start| - 1].Readable?;
    assert |seen| == |start| ==> seen == start;
  }

  lemma MultiplyGrows(a: nat, b: nat, p: nat)
    ensures a <= b ==> a * p <= b * p
  {
  }

  lemma WindowGrows(config: StabilizationConfig, a: nat, b: nat)
    requires WindowIsOver(config, a) && !WindowIsOver(config, b) && a <= 10_000 && b < 10_000
    ensures b < a
  {
    MultiplyGrows(a, b, if config.pollInterval < 1 then 1 else config.pollInterval);
  }

  lemma SteadyStreak(seen: seq<Observation>, n: nat)
    requires n <= |seen|
    requires forall k :: 0 <= k < |seen| ==> Vital(seen[k]).Some? && Vital(seen[k]) == Vital(seen[0])
    ensures !PassesAt(seen[..n], n + 1)
    ensures forall required :: required > n ==> !PassesAt(seen[..n], required)
  {
    StreakIsLongest(Vitals(seen[..n]));
  }

  /**
   * Without a control signal a package that is healthy and unchanged from some sample on passes whenever the
   * window has room for the required samples from there. If it is so from the beginning, it takes no more than these.
   */
  method StabilizeSteadyPackage(answers: seq<Observation>, signals: seq<bool>, config: StabilizationConfig, from: nat)
    returns (result: StabilizationResult, seen: seq<Observation>)
    requires |answers| >= 10_000 && |signals| >= 20_000
    requires 1 <= config.requiredSamples && from + config.requiredSamples <= 10_000
    requires !WindowIsOver(config, from + config.requiredSamples - 1)
    requires false !in signals
    requires forall k :: from <= k < |answers| ==> Vital(answers[k]).Some? && Vital(answers[k]) == Vital(answers[from])
    ensures result.passed && |seen| <= from + config.requiredSamples
    ensures from == 0 ==> |seen| == config.requiredSamples
    ensures |seen| <= 100 ==> result.samples == SamplesOf(seen)
  {
    hide WindowIsOver, Vital, SamplesOf, NoEarlierPass, PassesAt, Heard, KeepsLast, Streak, LastNonRunning;
    var looks, stopped, slept;
    result, seen, looks, stopped, slept := Stabilize(answers, signals, config);
    var enough := from + config.requiredSamples;
    if !result.passed {
      NeverStopped(signals, looks, stopped);
      WindowGrows(config, |seen|, enough - 1);
    }
    if |seen| >= enough {
      SteadyPasses(seen, from, config.requiredSamples);
    }
    if |seen| > enough {
      PassedAlready(seen, enough, config.requiredSamples);
    }
    if from == 0 && |seen| < enough {
      assert seen[..|seen|] == seen;
      assert forall k :: 0 <= k < |seen| ==> Vital(seen[k]).Some? && Vital(seen[k]) == Vital(answers[0]) && Vital(seen[0]) == Vital(answers[0]);
      SteadyStreak(seen, |seen|);
    }
  }

  lemma NeverStopped(signals: seq<bool>, looks: nat, stopped: bool)
    requires Heard(signals, looks, stopped) && false !in signals
    ensures !stopped
  {
    assert signals[looks - 1] in signals;
  }

  lemma PassedAlready(seen: seq<Observation>, n: nat, required: nat)
    requires n < |seen| && PassesAt(seen[..n], required)
    ensures !NoEarlierPass(seen, required)
  {
  }

  /** The samples of the passing run: all of them running, all with one sorted name list. */
  predicate StableWindow(result: StabilizationResult, required: nat) {
    && required <= |result.samples|
    && forall i :: |result.samples| - required <= i < |result.samples| ==>
         && result.samples[i].allRunning
         && !result.samples[i].failed
         && result.samples[i].containerNames != []
         && result.samples[i].containerNames == result.samples[|result.samples| - 1].containerNames
  }

  lemma StreakSamples(seen: seq<Observation>, k: nat)
    requires PassesAt(seen, k)
    ensures k <= |seen|
    ensures forall i :: |seen| - k <= i < |seen| ==> Vital(seen[i]).Some? && Vital(seen[i]) == Vital(seen[|seen| - 1])
  {
    var v := Vitals(seen);
    StreakIsLongest(v);
    forall i | |seen| - k <= i < |seen|
      ensures Vital(seen[i]).Some? && Vital(seen[i]) == Vital(seen[|seen| - 1])
    {
      assert v[i].Some? && v[i] == v[|v| - 1];
    }
  }

  lemma KeptSample(seen: seq<Observation>, required: nat, i: nat)
    requires PassesAt(seen, required) && required <= MAX_HISTORY
    requires Min(MAX_HISTORY, |seen|) - required <= i < Min(MAX_HISTORY, |seen|)
    ensures required <= Min(MAX_HISTORY, |seen|)
    ensures var sample := Recent(SamplesOf(seen))[i];
            && sample.allRunning && !sample.failed && sample.containerNames != []
            && Some(sample.containerNames) == Vital(seen[|seen| - 1])
  {
    StreakSamples(seen, required);
    SampleShowsVital(seen[|seen| - Min(MAX_HISTORY, |seen|) + i]);
  }

  /** What a passed check leaves in the evidence, up to the history bound. */
  lemma PassedShowsStableWindow(seen: seq<Observation>, required: nat, result: StabilizationResult)
    requires PassesAt(seen, required) && required <= MAX_HISTORY
    requires result.samples == Recent(SamplesOf(seen))
    ensures StableWindow(result, required)
  {
    hide SamplesOf, PassesAt, SampleOf, Vital;
    StreakSamples(seen, required);
    var kept := |result.samples|;
    forall i: nat | kept - required <= i < kept
      ensures result.samples[i].allRunning && !result.samples[i].failed && result.samples[i].containerNames != []
      ensures result.samples[i].containerNames == result.samples[kept - 1].containerNames
    {
      KeptSample(seen, required, i);
      KeptSample(seen, required, kept - 1);
    }
  }

  lemma ReportsKeepRecent(result: StabilizationResult, seen: seq<Observation>)
    requires Reports(result, seen)
    ensures result.samples == Recent(SamplesOf(seen))
  {
  }
}
