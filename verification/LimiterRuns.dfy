/** Runs of the rate limiter that reach its bounds, and runs that no bound holds. */
module LimiterRuns {
  import opened Wrappers
  import opened Tables
  import opened Limiter

  lemma ContinueNone(s: State, limit: nat)
    ensures Continue(s, [], limit) == s
  {
  }

  lemma ContinueSnoc(s: State, steps: seq<Step>, step: Step, limit: nat)
    ensures Continue(s, steps + [step], limit) == Next(Continue(s, steps, limit), step, limit)
  {
    assert (steps + [step])[..|steps|] == steps;
  }

  lemma {:induction false} ContinueConcat(s: State, steps: seq<Step>, more: seq<Step>, limit: nat)
    ensures Continue(s, steps + more, limit) == Continue(Continue(s, steps, limit), more, limit)
  {
    if more == [] {
      assert steps + more == steps;
    } else {
      var n := |more| - 1;
      ContinueConcat(s, steps, more[..n], limit);
      ContinueSnoc(s, steps + more[..n], more[n], limit);
      assert steps + more == steps + more[..n] + [more[n]];
    }
  }

  /** INCR of `n` requests numbered from `first`. */
  function Incrs(first: nat, n: nat): seq<Step> {
    if n == 0 then [] else Incrs(first, n - 1) + [Incr(first + n - 1)]
  }

  /** TTL of `n` requests numbered from `first`. */
  function Ttls(first: nat, n: nat): seq<Step> {
    if n == 0 then [] else Ttls(first, n - 1) + [Ttl(first + n - 1)]
  }

  // ------------------------------------------------------------------- crowds

  /**
   What the runs below promise: all but the first request count from `from` on,
   those still to be answered from `late` on, and answers come from `since` on
   and within `delay`.
   */
  datatype Plan = Plan(from: real, late: real, since: real, delay: real)

  /** The requests are numbered in the order of their hits, and every one is admitted. */
  ghost predicate Numbered(s: State, limit: nat) {
    && (forall r :: r in s.requests <==> 0 <= r < |s.hits|)
    && (forall i :: 0 <= i < |s.hits| ==> s.hits[i].request == i && s.hits[i].count <= limit)
  }

  ghost predicate InTime(s: State, p: Plan, answered: nat) {
    && (forall i :: 1 <= i < |s.hits| ==> p.from <= s.hits[i].at <= s.now)
    && (forall i :: answered <= i < |s.hits| ==> p.late <= s.hits[i].at)
  }

  /** The first request never asks for its answer; after it, those below `answered` have theirs. */
  ghost predicate Answering(s: State, limit: nat, p: Plan, answered: nat)
    requires Numbered(s, limit)
  {
    && 1 <= answered <= |s.hits|
    && s.requests[0].NeedsTtl?
    && (forall r :: 1 <= r < answered ==> Replied(s.requests[r], s.hits[r].at, p) && s.requests[r].at <= s.now)
    && (forall r :: answered <= r < |s.hits| ==> s.requests[r] == NeedsTtl(s.hits[r].count))
  }

  predicate Replied(phase: Phase, hitAt: real, p: Plan) {
    phase.Answered? && phase.admitted && p.since <= phase.at <= hitAt + p.delay
  }

  ghost predicate Crowd(s: State, limit: nat, p: Plan, answered: nat) {
    Numbered(s, limit) && InTime(s, p, answered) && Answering(s, limit, p, answered)
  }

  /** The key as a flood leaves it. */
  predicate KeyIs(s: State, count: nat, expires: real) {
    s.key.Some? && s.key.value.count == count && s.key.value.expires == Some(expires)
  }

  lemma CrowdIncr(s: State, limit: nat, p: Plan, answered: nat, count: nat, expires: real)
    requires Crowd(s, limit, p, answered) && KeyIs(s, count, expires) && s.now <= expires
    requires 1 <= count < limit && p.from <= s.now && p.late <= s.now
    ensures
      var t := Next(s, Incr(|s.hits|), limit);
      && Crowd(t, limit, p, answered) && KeyIs(t, count + 1, expires) && t.now == s.now && |t.hits| == |s.hits| + 1
  {
    var t := Next(s, Incr(|s.hits|), limit);
    var m := |s.hits|;
    assert t.hits == s.hits + [Hit(m, s.now, s.key.value.life, count + 1)];
    assert t.requests == s.requests[m := NeedsTtl(count + 1)];
  }

  /** Time passes the expiry, and the next request opens a lifetime. */
  lemma CrowdReopens(s: State, limit: nat, p: Plan, answered: nat, count: nat, expires: real, wait: real)
    requires Crowd(s, limit, p, answered) && KeyIs(s, count, expires) && limit > 0
    requires wait >= 0.0 && expires < s.now + wait && p.from <= s.now + wait && p.late <= s.now + wait
    ensures
      var t := Next(Next(Next(Next(s, Tick(wait), limit), Lapse, limit), Incr(|s.hits|), limit), Expire(|s.hits|), limit);
      && Crowd(t, limit, p, answered) && KeyIs(t, 1, t.now + WINDOW) && t.now == s.now + wait && |t.hits| == |s.hits| + 1
  {
    var m := |s.hits|;
    var s1 := Next(s, Tick(wait), limit);
    var s2 := Next(s1, Lapse, limit);
    assert s2 == s.(now := s.now + wait, key := None);
    var s3 := Next(s2, Incr(m), limit);
    assert s3.hits == s.hits + [Hit(m, s2.now, |s.began|, 1)] && s3.requests == s.requests[m := NeedsExpire];
    var s4 := Next(s3, Expire(m), limit);
    assert s4.hits == s3.hits && s4.requests == s.requests[m := NeedsTtl(1)];
  }

  lemma CrowdAnswers(s: State, limit: nat, p: Plan, answered: nat)
    requires Crowd(s, limit, p, answered) && Alive(s) && answered < |s.hits|
    requires p.since <= s.now <= p.late + p.delay
    ensures
      var t := Next(s, Ttl(answered), limit);
      && Crowd(t, limit, p, answered + 1) && t.now == s.now && t.hits == s.hits && t.key == s.key
  {
    hide TtlHeader;
    var t := Next(s, Ttl(answered), limit);
    assert t.requests == s.requests[answered := Answered(true, TtlHeader(s), s.now)];
  }

  lemma CrowdWaits(s: State, limit: nat, p: Plan, answered: nat, wait: real)
    requires Crowd(s, limit, p, answered) && wait >= 0.0
    ensures Crowd(Next(s, Tick(wait), limit), limit, p, answered) && Next(s, Tick(wait), limit) == s.(now := s.now + wait)
  {
  }

  // ------------------------------------------------------------------- floods

  lemma {:induction false} Flood(s: State, limit: nat, p: Plan, answered: nat, count: nat, expires: real, n: nat)
    requires Crowd(s, limit, p, answered) && KeyIs(s, count, expires) && s.now <= expires
    requires 1 <= count && count + n <= limit && p.from <= s.now && p.late <= s.now
    ensures
      var t := Continue(s, Incrs(|s.hits|, n), limit);
      && Crowd(t, limit, p, answered) && KeyIs(t, count + n, expires) && t.now == s.now && |t.hits| == |s.hits| + n
  {
    hide Crowd, Next, Continue, KeyIs;
    if n == 0 {
      ContinueNone(s, limit);
    } else {
      Flood(s, limit, p, answered, count, expires, n - 1);
      var m := |s.hits|;
      ContinueSnoc(s, Incrs(m, n - 1), Incr(m + n - 1), limit);
      CrowdIncr(Continue(s, Incrs(m, n - 1), limit), limit, p, answered, count + n - 1, expires);
    }
  }

  lemma {:induction false} Answers(s: State, limit: nat, p: Plan, first: nat, n: nat)
    requires Crowd(s, limit, p, first) && Alive(s) && first + n <= |s.hits|
    requires p.since <= s.now <= p.late + p.delay
    ensures
      var t := Continue(s, Ttls(first, n), limit);
      && Crowd(t, limit, p, first + n) && t.now == s.now && t.hits == s.hits && t.key == s.key
  {
    hide Crowd, Next, Continue;
    if n == 0 {
      ContinueNone(s, limit);
    } else {
      Answers(s, limit, p, first, n - 1);
      ContinueSnoc(s, Ttls(first, n - 1), Ttl(first + n - 1), limit);
      CrowdAnswers(Continue(s, Ttls(first, n - 1), limit), limit, p, first + n - 1);
    }
  }

  /** After the wait a lifetime opens with request `m` and fills to the limit. */
  function Again(m: nat, limit: nat, wait: real): seq<Step>
    requires limit > 0
  {
    [Tick(wait), Lapse, Incr(m), Expire(m)] + Incrs(m + 1, limit - 1)
  }

  lemma ContinueFour(s: State, a: Step, b: Step, c: Step, d: Step, limit: nat)
    ensures Continue(s, [a, b, c, d], limit) == Next(Next(Next(Next(s, a, limit), b, limit), c, limit), d, limit)
  {
    hide Next;
    ContinueSnoc(s, [], a, limit);
    ContinueSnoc(s, [a], b, limit);
    ContinueSnoc(s, [a, b], c, limit);
    ContinueSnoc(s, [a, b, c], d, limit);
    assert [] + [a] == [a] && [a] + [b] == [a, b] && [a, b] + [c] == [a, b, c] && [a, b, c] + [d] == [a, b, c, d];
  }

  lemma FillsAgain(s: State, limit: nat, p: Plan, answered: nat, count: nat, expires: real, wait: real)
    requires Crowd(s, limit, p, answered) && KeyIs(s, count, expires) && limit > 0
    requires wait >= 0.0 && expires < s.now + wait && p.from <= s.now + wait && p.late <= s.now + wait
    ensures
      var t := Continue(s, Again(|s.hits|, limit, wait), limit);
      && Crowd(t, limit, p, answered) && KeyIs(t, limit, t.now + WINDOW)
      && t.now == s.now + wait && |t.hits| == |s.hits| + limit
  {
    hide Crowd, Next, Continue;
    var m := |s.hits|;
    var opening := [Tick(wait), Lapse, Incr(m), Expire(m)];
    ContinueFour(s, Tick(wait), Lapse, Incr(m), Expire(m), limit);
    CrowdReopens(s, limit, p, answered, count, expires, wait);
    var t := Continue(s, opening, limit);
    ContinueConcat(s, opening, Incrs(m + 1, limit - 1), limit);
    Flood(t, limit, p, answered, 1, t.now + WINDOW, limit - 1);
  }

  // ------------------------------------------------------------------- bursts

  /** First request at 0, the rest of the limit just before the key expires, and `n` full limits, each just after an expiry. */
  function Bursts(limit: nat, gap: real, n: nat): seq<Step>
    requires limit > 0
  {
    if n == 0 then [Incr(0), Expire(0), Tick(WINDOW - gap)] + Incrs(1, limit - 1)
    else Bursts(limit, gap, n - 1) + Again(n * limit, limit, if n == 1 then 2.0 * gap else WINDOW + gap)
  }

  /** The instant of the n-th full limit. */
  function InstantOf(n: nat, gap: real): real {
    if n == 0 then WINDOW - gap else n as real * WINDOW + n as real * gap
  }

  function BurstPlan(gap: real, since: real, delay: real): Plan {
    Plan(WINDOW - gap, WINDOW - gap, since, delay)
  }

  ghost predicate BurstsDone(s: State, limit: nat, gap: real, n: nat, since: real, delay: real) {
    && Crowd(s, limit, BurstPlan(gap, since, delay), 1)
    && |s.hits| == (n + 1) * limit && s.now == InstantOf(n, gap)
    && KeyIs(s, limit, n as real * WINDOW + n as real * gap + WINDOW)
    && s.hits[0].at == 0.0
  }

  lemma Opened(limit: nat, gap: real, p: Plan)
    requires limit > 0 && 0.0 < gap < WINDOW
    ensures
      var s := Next(Next(Next(START, Incr(0), limit), Expire(0), limit), Tick(WINDOW - gap), limit);
      && Crowd(s, limit, p, 1) && KeyIs(s, 1, WINDOW) && s.now == WINDOW - gap && s.hits == [Hit(0, 0.0, 0, 1)]
  {
    var s1 := Next(START, Incr(0), limit);
    assert s1.hits == [Hit(0, 0.0, 0, 1)] && s1.requests == map[0 := NeedsExpire];
    var s2 := Next(s1, Expire(0), limit);
    assert s2.requests == map[0 := NeedsTtl(1)] && s2.key == Some(Key(1, 0, Some(WINDOW)));
  }

  /** Requests that come later leave the hits before them in place. */
  lemma {:induction false} FirstHitStays(s: State, steps: seq<Step>, limit: nat)
    requires s.hits != []
    ensures var t := Continue(s, steps, limit); t.hits != [] && t.hits[0] == s.hits[0]
  {
    if steps == [] {
    } else {
      FirstHitStays(s, steps[..|steps| - 1], limit);
    }
  }

  lemma OpeningBurst(limit: nat, gap: real, since: real, delay: real)
    requires limit > 0 && 0.0 < gap < WINDOW
    ensures BurstsDone(After(Bursts(limit, gap, 0), limit), limit, gap, 0, since, delay)
  {
    hide Crowd, Next, Continue, KeyIs;
    var p := BurstPlan(gap, since, delay);
    var a, b, c := Incr(0), Expire(0), Tick(WINDOW - gap);
    ContinueNone(START, limit);
    ContinueSnoc(START, [], a, limit);
    ContinueSnoc(START, [a], b, limit);
    ContinueSnoc(START, [a, b], c, limit);
    assert [] + [a] == [a] && [a] + [b] == [a, b] && [a, b] + [c] == [a, b, c];
    Opened(limit, gap, p);
    var s := Continue(START, [a, b, c], limit);
    ContinueConcat(START, [a, b, c], Incrs(1, limit - 1), limit);
    Flood(s, limit, p, 1, 1, WINDOW, limit - 1);
    FirstHitStays(s, Incrs(1, limit - 1), limit);
  }

  lemma NextBurst(s: State, limit: nat, gap: real, n: nat, since: real, delay: real)
    requires limit > 0 && 0.0 < gap < WINDOW && BurstsDone(s, limit, gap, n, since, delay)
    ensures
      var wait := if n == 0 then 2.0 * gap else WINDOW + gap;
      BurstsDone(Continue(s, Again((n + 1) * limit, limit, wait), limit), limit, gap, n + 1, since, delay)
  {
    hide Crowd, Next, Continue, KeyIs;
    var wait := if n == 0 then 2.0 * gap else WINDOW + gap;
    InstantsStep(n, gap);
    FillsAgain(s, limit, BurstPlan(gap, since, delay), 1, limit, n as real * WINDOW + n as real * gap + WINDOW, wait);
    FirstHitStays(s, Again((n + 1) * limit, limit, wait), limit);
    assert (n + 2) * limit == (n + 1) * limit + limit;
  }

  lemma InstantsStep(n: nat, gap: real)
    requires gap > 0.0
    ensures InstantOf(n + 1, gap) == InstantOf(n, gap) + if n == 0 then 2.0 * gap else WINDOW + gap
    ensures n as real * gap >= 0.0 && (n + 1) as real * gap == n as real * gap + gap
  {
    assert (n + 1) as real == n as real + 1.0;
  }

  lemma {:induction false} BurstsReach(limit: nat, gap: real, n: nat, since: real, delay: real)
    requires limit > 0 && 0.0 < gap < WINDOW
    ensures BurstsDone(After(Bursts(limit, gap, n), limit), limit, gap, n, since, delay)
  {
    hide BurstsDone, Continue;
    if n == 0 {
      OpeningBurst(limit, gap, since, delay);
    } else {
      BurstsReach(limit, gap, n - 1, since, delay);
      NextBurst(After(Bursts(limit, gap, n - 1), limit), limit, gap, n - 1, since, delay);
      var wait := if n == 1 then 2.0 * gap else WINDOW + gap;
      ContinueConcat(START, Bursts(limit, gap, n - 1), Again(n * limit, limit, wait), limit);
    }
  }

  /** All rows but the first count. */
  lemma {:induction false} CountButFirst<T>(rows: seq<T>, p: T -> bool)
    requires rows != [] && !p(rows[0]) && forall i :: 1 <= i < |rows| ==> p(rows[i])
    ensures Count(rows, p) == |rows| - 1
  {
    var n := |rows| - 1;
    if n == 0 {
      assert rows[..0] == [];
    } else {
      assert p(rows[n]) && rows[..n][0] == rows[0];
      CountButFirst(rows[..n], p);
    }
  }

  /** The bursts admit (n + 1) limit - 1 requests from just before the first expiry to just after the n-th. */
  lemma BurstsAreAdmitted(limit: nat, gap: real, n: nat, to: real)
    requires limit > 0 && 0.0 < gap < WINDOW && InstantOf(n, gap) <= to
    ensures Count(After(Bursts(limit, gap, n), limit).hits, AdmittedIn(WINDOW - gap, to, limit)) == (n + 1) * limit - 1
  {
    BurstsReach(limit, gap, n, 0.0, 0.0);
    var s := After(Bursts(limit, gap, n), limit);
    hide After, Count;
    CountButFirst(s.hits, AdmittedIn(WINDOW - gap, to, limit));
  }

  /** The bound of one window is sharp however short the interval: 2 limit - 1 requests are admitted within twice any gap. */
  lemma BurstReachesBound(limit: nat, gap: real)
    requires limit > 0 && 0.0 < gap < WINDOW
    ensures Count(After(Bursts(limit, gap, 1), limit).hits, AdmittedIn(WINDOW - gap, WINDOW + gap, limit)) == 2 * limit - 1
  {
    BurstsAreAdmitted(limit, gap, 1, WINDOW + gap);
  }

  /** The bound of n windows is attained for every n and every limit. */
  lemma SpanIsReached(limit: nat, n: nat, gap: real)
    requires limit > 0 && n > 0 && gap > 0.0 && (n + 1) as real * gap <= WINDOW
    ensures Count(After(Bursts(limit, gap, n), limit).hits, AdmittedIn(WINDOW - gap, WINDOW - gap + n as real * WINDOW, limit))
         == (n + 1) * limit - 1
  {
    InstantsStep(n, gap);
    InstantsStep(n - 1, gap);
    assert InstantOf(n, gap) == n as real * WINDOW + n as real * gap;
    hide InstantOf;
    BurstsAreAdmitted(limit, gap, n, WINDOW - gap + n as real * WINDOW);
  }

  // ------------------------------------------------------------- late answers

  /** All requests of the first n limits but the very first are answered at one instant, the n-th limit a window later. */
  function LateAnswers(limit: nat, gap: real, n: nat): seq<Step>
    requires limit > 0 && n > 0
  {
    Bursts(limit, gap, n - 1) + ([Tick(gap)] + Ttls(1, n * limit - 1))
    + (Again(n * limit, limit, WINDOW) + Ttls(n * limit, limit))
  }

  /** The instant at which the window of answers opens. */
  function AnswersFrom(n: nat, gap: real): real
    requires n > 0
  {
    InstantOf(n - 1, gap) + gap
  }

  /** With every request answered the plan for later ones may be set anew. */
  lemma CrowdReplans(s: State, limit: nat, p: Plan, late: real)
    requires Crowd(s, limit, p, |s.hits|)
    ensures Crowd(s, limit, p.(late := late), |s.hits|)
  {
  }

  lemma FirstAnswers(s: State, limit: nat, gap: real, n: nat, delay: real)
    requires limit > 0 && n > 1 && 0.0 < gap < WINDOW && (n - 2) as real * WINDOW + (n + 1) as real * gap <= delay
    requires BurstsDone(s, limit, gap, n - 1, AnswersFrom(n, gap), delay)
    ensures
      var t := Continue(s, [Tick(gap)] + Ttls(1, n * limit - 1), limit);
      && Crowd(t, limit, BurstPlan(gap, AnswersFrom(n, gap), delay), |t.hits|) && |t.hits| == n * limit
      && t.now == AnswersFrom(n, gap) && KeyIs(t, limit, t.now - gap + WINDOW) && t.hits[0].at == 0.0
  {
    hide Crowd, Next, Continue;
    var p := BurstPlan(gap, AnswersFrom(n, gap), delay);
    CrowdWaits(s, limit, p, 1, gap);
    ContinueNone(s, limit);
    ContinueSnoc(s, [], Tick(gap), limit);
    assert [] + [Tick(gap)] == [Tick(gap)];
    var t := Continue(s, [Tick(gap)], limit);
    ContinueConcat(s, [Tick(gap)], Ttls(1, n * limit - 1), limit);
    LateEnough(n, gap, delay);
    Answers(t, limit, p, 1, n * limit - 1);
  }

  lemma LateEnough(n: nat, gap: real, delay: real)
    requires n > 1 && 0.0 < gap < WINDOW && (n - 2) as real * WINDOW + (n + 1) as real * gap <= delay
    ensures AnswersFrom(n, gap) <= WINDOW - gap + delay && delay > 0.0
    ensures InstantOf(n - 1, gap) == (n - 1) as real * WINDOW + (n - 1) as real * gap
  {
    assert (n + 1) as real == (n - 1) as real + 2.0 && (n - 2) as real == (n - 1) as real - 1.0;
    assert (n + 1) as real * gap == (n - 1) as real * gap + 2.0 * gap;
  }

  lemma LastAnswers(s: State, limit: nat, p: Plan)
    requires limit > 0 && Crowd(s, limit, p, |s.hits|) && p.from <= s.now && p.since <= s.now && p.delay >= 0.0
    requires s.key.Some? && KeyIs(s, limit, s.key.value.expires.GetOr(0.0)) && s.key.value.expires.GetOr(0.0) < s.now + WINDOW
    ensures
      var t := Continue(s, Again(|s.hits|, limit, WINDOW) + Ttls(|s.hits|, limit), limit);
      && Crowd(t, limit, p.(late := s.now + WINDOW), |t.hits|) && |t.hits| == |s.hits| + limit && t.now == s.now + WINDOW
  {
    hide Crowd, Next, Continue;
    var q := p.(late := s.now + WINDOW);
    CrowdReplans(s, limit, p, s.now + WINDOW);
    FillsAgain(s, limit, q, |s.hits|, limit, s.key.value.expires.value, WINDOW);
    ContinueConcat(s, Again(|s.hits|, limit, WINDOW), Ttls(|s.hits|, limit), limit);
    Answers(Continue(s, Again(|s.hits|, limit, WINDOW), limit), limit, q, |s.hits|, limit);
  }

  lemma CrowdIsPrompt(s: State, limit: nat, p: Plan)
    requires Crowd(s, limit, p, |s.hits|)
    ensures Prompt(s, p.delay)
    ensures forall i :: 1 <= i < |s.hits| ==> LetThroughIn(s.requests, p.since, s.now)(s.hits[i])
    ensures !LetThroughIn(s.requests, p.since, s.now)(s.hits[0])
  {
    forall i | 1 <= i < |s.hits| ensures Replied(s.requests[s.hits[i].request], s.hits[i].at, p) && s.requests[i].at <= s.now {
    }
  }

  /** Answers at most `delay` late let (n + 1) limit - 1 requests through in one window. */
  lemma LateAnswersReach(limit: nat, gap: real, n: nat, delay: real)
    requires limit > 0 && n > 1 && 0.0 < gap < WINDOW && (n - 2) as real * WINDOW + (n + 1) as real * gap <= delay
    ensures
      var s, from := After(LateAnswers(limit, gap, n), limit), AnswersFrom(n, gap);
      Prompt(s, delay) && Count(s.hits, LetThroughIn(s.requests, from, from + WINDOW)) == (n + 1) * limit - 1
  {
    hide Crowd, Next, Continue, BurstsDone, Count, Prompt;
    var from := AnswersFrom(n, gap);
    var p := BurstPlan(gap, from, delay);
    LateEnough(n, gap, delay);
    BurstsReach(limit, gap, n - 1, from, delay);
    var s1 := Continue(START, Bursts(limit, gap, n - 1), limit);
    FirstAnswers(s1, limit, gap, n, delay);
    var s2 := Continue(s1, [Tick(gap)] + Ttls(1, n * limit - 1), limit);
    LastAnswers(s2, limit, p);
    ContinueConcat(START, Bursts(limit, gap, n - 1), [Tick(gap)] + Ttls(1, n * limit - 1), limit);
    ContinueConcat(START, Bursts(limit, gap, n - 1) + ([Tick(gap)] + Ttls(1, n * limit - 1)),
                   Again(n * limit, limit, WINDOW) + Ttls(n * limit, limit), limit);
    var s := After(LateAnswers(limit, gap, n), limit);
    CrowdIsPrompt(s, limit, p.(late := from + WINDOW));
    assert (n + 1) * limit == n * limit + limit;
    CountButFirst(s.hits, LetThroughIn(s.requests, from, from + WINDOW));
  }

  ghost predicate LetsThrough(run: seq<Step>, limit: nat, from: real, delay: real, count: int) {
    var s := After(run, limit);
    Prompt(s, delay) && Count(s.hits, LetThroughIn(s.requests, from, from + WINDOW)) == count
  }

  ghost predicate CanLetThrough(limit: nat, delay: real, count: int) {
    exists run: seq<Step>, from: real :: LetsThrough(run, limit, from, delay, count)
  }

  /** However small a delay is allowed beyond n - 2 windows, (n + 1) limit - 1 requests can be let through in one window. */
  lemma DelayIsReached(limit: nat, n: nat, delay: real)
    requires limit > 0 && n > 1 && (n - 2) as real * WINDOW < delay
    ensures CanLetThrough(limit, delay, (n + 1) * limit - 1)
  {
    var spare := delay - (n - 2) as real * WINDOW;
    var gap := (if spare < WINDOW then spare else WINDOW) / (n + 1) as real;
    GapFits(n, if spare < WINDOW then spare else WINDOW, gap);
    hide After;
    LateAnswersReach(limit, gap, n, delay);
    assert LetsThrough(LateAnswers(limit, gap, n), limit, AnswersFrom(n, gap), delay, (n + 1) * limit - 1);
  }

  lemma GapFits(n: nat, room: real, gap: real)
    requires n > 0 && 0.0 < room <= WINDOW && gap == room / (n + 1) as real
    ensures 0.0 < gap < WINDOW && (n + 1) as real * gap == room
  {
    var k := (n + 1) as real;
    assert k >= 2.0 && k * gap == room;
    assert gap >= WINDOW ==> k * gap >= 2.0 * WINDOW;
    assert gap <= 0.0 ==> k * gap <= 0.0;
  }

  // ------------------------------------------------- answers without a delay bound

  /** The requests `0`, ..., `n - 1` each open a lifetime of their own and stop short of their TTL. */
  function Openers(n: nat): seq<Step> {
    if n == 0 then []
    else Openers(n - 1) + [Incr(n - 1), Expire(n - 1), Tick(WINDOW + 1.0), Lapse]
  }

  /** The first `answered` of `n` admitted requests have their answer, at this instant; the others wait for it. */
  ghost predicate Waiting(s: State, n: nat, answered: nat) {
    && s.key.None? && |s.hits| == n && answered <= n
    && (forall r :: r in s.requests <==> 0 <= r < n)
    && (forall i :: 0 <= i < n ==> s.hits[i].request == i && s.hits[i].count == 1)
    && (forall r :: 0 <= r < answered ==> s.requests[r].Answered? && s.requests[r].admitted && s.requests[r].at == s.now)
    && (forall r :: answered <= r < n ==> s.requests[r] == NeedsTtl(1))
  }

  lemma OpenerWaits(s: State, n: nat, limit: nat)
    requires Waiting(s, n, 0)
    ensures Waiting(Next(Next(Next(Next(s, Incr(n), limit), Expire(n), limit), Tick(WINDOW + 1.0), limit), Lapse, limit), n + 1, 0)
  {
    var s1 := Next(s, Incr(n), limit);
    assert s1.hits == s.hits + [Hit(n, s.now, |s.began|, 1)] && s1.requests == s.requests[n := NeedsExpire];
    var s2 := Next(s1, Expire(n), limit);
    assert s2.requests == s.requests[n := NeedsTtl(1)] && s2.key == Some(Key(1, |s.began|, Some(s.now + WINDOW)));
    var s3 := Next(s2, Tick(WINDOW + 1.0), limit);
    var s4 := Next(s3, Lapse, limit);
    assert s4.key.None? && s4.hits == s1.hits && s4.requests == s2.requests;
  }

  lemma {:induction false} OpenersWait(n: nat, limit: nat)
    ensures Waiting(After(Openers(n), limit), n, 0)
  {
    hide Waiting, Next, Continue;
    if n == 0 {
      ContinueNone(START, limit);
      NobodyWaits();
    } else {
      OpenersWait(n - 1, limit);
      var s := After(Openers(n - 1), limit);
      OpenerWaits(s, n - 1, limit);
      ContinueFour(s, Incr(n - 1), Expire(n - 1), Tick(WINDOW + 1.0), Lapse, limit);
      ContinueConcat(START, Openers(n - 1), [Incr(n - 1), Expire(n - 1), Tick(WINDOW + 1.0), Lapse], limit);
    }
  }

  lemma NobodyWaits()
    ensures Waiting(START, 0, 0)
  {
  }

  lemma AnswerWaits(s: State, n: nat, answered: nat, limit: nat)
    requires Waiting(s, n, answered) && answered < n && limit > 0
    ensures Waiting(Next(s, Ttl(answered), limit), n, answered + 1)
  {
    hide TtlHeader;
    var t := Next(s, Ttl(answered), limit);
    assert t.requests == s.requests[answered := Answered(true, TtlHeader(s), s.now)];
  }

  lemma {:induction false} WaitersAnswer(s: State, n: nat, answered: nat, limit: nat)
    requires Waiting(s, n, 0) && limit > 0 && answered <= n
    ensures Waiting(Continue(s, Ttls(0, answered), limit), n, answered)
  {
    hide Waiting, Next, Continue;
    if answered == 0 {
      ContinueNone(s, limit);
    } else {
      WaitersAnswer(s, n, answered - 1, limit);
      ContinueSnoc(s, Ttls(0, answered - 1), Ttl(answered - 1), limit);
      AnswerWaits(Continue(s, Ttls(0, answered - 1), limit), n, answered - 1, limit);
    }
  }

  /** Without a bound on the delay between INCR and answer any number of requests can be let through at one instant. */
  lemma SlowAnswersEscape(n: nat, limit: nat)
    requires limit > 0
    ensures
      var s := After(Openers(n) + Ttls(0, n), limit);
      Count(s.hits, LetThroughIn(s.requests, s.now, s.now)) == n
  {
    OpenersWait(n, limit);
    ContinueConcat(START, Openers(n), Ttls(0, n), limit);
    WaitersAnswer(After(Openers(n), limit), n, n, limit);
    var s := After(Openers(n) + Ttls(0, n), limit);
    hide After, Continue;
    CountAll(s.hits, LetThroughIn(s.requests, s.now, s.now));
  }
}
