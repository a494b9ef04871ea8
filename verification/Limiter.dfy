/**
 The rate limiter as a machine: INCR, EXPIRE and TTL of concurrent requests of
 one identity are steps of their own, and time passes between them.  `life`
 numbers the lifetimes of the counter key and `hits` records every INCR.
 */
module Limiter {
  import opened Wrappers
  import opened Tables

  const WINDOW := 60.0

  datatype Key = Key(count: nat, life: nat, expires: Option<real>)

  datatype Phase =
    | NeedsExpire
    | NeedsTtl(count: nat)
    | Answered(admitted: bool, ttl: int, at: real)

  datatype Hit = Hit(request: nat, at: real, life: nat, count: nat)

  /** `began[l]` is the instant of the INCR that created lifetime `l`. */
  datatype State = State(now: real, key: Option<Key>, began: seq<real>, requests: map<nat, Phase>, hits: seq<Hit>)

  datatype Step =
    | Tick(seconds: real)
    | Lapse
    | Incr(request: nat)
    | Expire(request: nat)
    | Ttl(request: nat)

  const START := State(0.0, None, [], map[], [])

  /** A key is gone once its expiry has passed. */
  predicate Alive(s: State) {
    s.key.Some? && s.key.value.expires.Some? ==> s.now <= s.key.value.expires.value
  }

  predicate Enabled(s: State, step: Step) {
    match step
    case Tick(seconds) => seconds >= 0.0
    case Lapse => s.key.Some? && s.key.value.expires.Some? && s.key.value.expires.value < s.now
    case Incr(r) => r !in s.requests && Alive(s)
    case Expire(r) => r in s.requests && s.requests[r].NeedsExpire? && Alive(s)
    case Ttl(r) => r in s.requests && s.requests[r].NeedsTtl? && Alive(s)
  }

  function Incremented(s: State): Key {
    if s.key.Some? then s.key.value.(count := s.key.value.count + 1) else Key(1, |s.began|, None)
  }

  /** Redis answers -2 without a key, -1 without an expiry, else the seconds left, rounded; negatives become the window. */
  function TtlHeader(s: State): int {
    if s.key.None? || s.key.value.expires.None? then 60
    else
      var left := (s.key.value.expires.value - s.now + 0.5).Floor;
      if left < 0 then 60 else left
  }

  function Effect(s: State, step: Step, limit: nat): State
    requires Enabled(s, step)
  {
    match step
    case Tick(seconds) => s.(now := s.now + seconds)
    case Lapse => s.(key := None)
    case Incr(r) =>
      var k := Incremented(s);
      s.(key := Some(k), began := if s.key.Some? then s.began else s.began + [s.now],
         hits := s.hits + [Hit(r, s.now, k.life, k.count)],
         requests := s.requests[r := if k.count == 1 then NeedsExpire else NeedsTtl(k.count)])
    case Expire(r) =>
      s.(key := if s.key.Some? then Some(s.key.value.(expires := Some(s.now + WINDOW))) else None,
         requests := s.requests[r := NeedsTtl(1)])
    case Ttl(r) => s.(requests := s.requests[r := Answered(s.requests[r].count <= limit, TtlHeader(s), s.now)])
  }

  function Next(s: State, step: Step, limit: nat): State {
    if Enabled(s, step) then Effect(s, step, limit) else s
  }

  /** The state after the steps, from a given one. */
  function Continue(s: State, steps: seq<Step>, limit: nat): State {
    if steps == [] then s else Next(Continue(s, steps[..|steps| - 1], limit), steps[|steps| - 1], limit)
  }

  function After(run: seq<Step>, limit: nat): State {
    Continue(START, run, limit)
  }

  // -------------------------------------------------------------- invariants

  function OfLife(life: nat): Hit -> bool {
    (h: Hit) => h.life == life
  }

  function AdmittedOfLife(life: nat, limit: nat): Hit -> bool {
    (h: Hit) => h.life == life && h.count <= limit
  }

  /** Counted by the instant of the INCR that decides. */
  function AdmittedIn(from: real, to: real, limit: nat): Hit -> bool {
    (h: Hit) => from <= h.at <= to && h.count <= limit
  }

  /** Within a lifetime the INCR answers are 1, 2, 3 and so on. */
  predicate CountsInOrder(hits: seq<Hit>) {
    hits == [] ||
    var n := |hits| - 1;
    CountsInOrder(hits[..n]) && hits[n].count == Count(hits[..n], OfLife(hits[n].life)) + 1
  }

  /** Lifetimes begin more than a window apart. */
  predicate LivesApart(began: seq<real>) {
    forall l :: 0 < l < |began| ==> began[l - 1] + WINDOW < began[l]
  }

  predicate HitOk(h: Hit, began: seq<real>) {
    && h.life < |began| && began[h.life] <= h.at
    && (h.life + 1 < |began| ==> h.at <= began[h.life + 1])
    && (h.count == 1 ==> h.at == began[h.life])
  }

  predicate KeyOk(s: State) {
    match s.key
    case None => s.began != [] ==> s.began[|s.began| - 1] + WINDOW < s.now
    case Some(k) =>
      && k.count > 0 && k.life + 1 == |s.began|
      && k.count == Count(s.hits, OfLife(k.life))
      && s.began[k.life] <= s.now
      && (k.expires.Some? ==> s.began[k.life] + WINDOW <= k.expires.value <= s.now + WINDOW)
  }

  predicate Outstanding(s: State, r: nat) {
    r in s.requests && s.requests[r].NeedsExpire?
  }

  /** The key has no expiry exactly while the EXPIRE of the request that created it is outstanding. */
  predicate ExpiryOutstanding(s: State) {
    && (s.key.Some? && s.key.value.expires.None? <==> exists r :: r in s.requests && Outstanding(s, r))
    && (forall q, r :: q in s.requests && r in s.requests && Outstanding(s, q) && Outstanding(s, r) ==> q == r)
  }

  predicate TimeOrdered(hits: seq<Hit>) {
    forall i, j :: 0 <= i < j < |hits| ==> hits[i].at <= hits[j].at
  }

  predicate HitsOk(s: State) {
    && (forall i :: 0 <= i < |s.hits| ==> HitOk(s.hits[i], s.began) && s.hits[i].at <= s.now)
    && TimeOrdered(s.hits)
  }

  /** Each request is counted once, and its phase goes by that count. */
  predicate PhaseOk(s: State, i: nat, limit: nat)
    requires i < |s.hits|
  {
    && s.hits[i].request in s.requests && s.hits[i].at <= s.now
    && match s.requests[s.hits[i].request] {
         case NeedsExpire => s.hits[i].count == 1
         case NeedsTtl(count) => s.hits[i].count == count
         case Answered(admitted, ttl, at) =>
           (admitted <==> s.hits[i].count <= limit) && 0 <= ttl <= 60 && s.hits[i].at <= at <= s.now
       }
  }

  predicate PhasesOk(s: State, limit: nat) {
    && (forall i :: 0 <= i < |s.hits| ==> PhaseOk(s, i, limit))
    && (forall i, j :: 0 <= i < j < |s.hits| ==> s.hits[i].request != s.hits[j].request)
    && (forall r :: r in s.requests ==> exists i :: 0 <= i < |s.hits| && s.hits[i].request == r)
  }

  predicate Sound(s: State) {
    KeyOk(s) && CountsInOrder(s.hits) && LivesApart(s.began) && ExpiryOutstanding(s) && HitsOk(s)
  }

  lemma NoHitsYet(s: State)
    requires HitsOk(s)
    ensures Count(s.hits, OfLife(|s.began|)) == 0
  {
    CountNone(s.hits, OfLife(|s.began|));
  }

  lemma IncrKeepsCounts(s: State, r: nat, limit: nat)
    requires Sound(s) && Enabled(s, Incr(r))
    ensures KeyOk(Next(s, Incr(r), limit)) && CountsInOrder(Next(s, Incr(r), limit).hits)
  {
    hide ExpiryOutstanding, LivesApart, HitOk;
    var t := Next(s, Incr(r), limit);
    var k := Incremented(s);
    NoHitsYet(s);
    CountAppend(s.hits, Hit(r, s.now, k.life, k.count), OfLife(k.life));
    assert t.hits[..|s.hits|] == s.hits;
  }

  lemma IncrKeepsHits(s: State, r: nat, limit: nat)
    requires Sound(s) && Enabled(s, Incr(r))
    ensures HitsOk(Next(s, Incr(r), limit)) && LivesApart(Next(s, Incr(r), limit).began)
  {
    hide ExpiryOutstanding, CountsInOrder, Count;
    var t := Next(s, Incr(r), limit);
    forall i | 0 <= i < |t.hits| ensures HitOk(t.hits[i], t.began) && t.hits[i].at <= t.now {
      if i < |s.hits| {
        assert HitOk(s.hits[i], s.began);
      }
    }
  }

  lemma ExpiryKept(s: State, step: Step, limit: nat)
    requires Sound(s) && Enabled(s, step)
    ensures ExpiryOutstanding(Next(s, step, limit))
  {
    hide CountsInOrder, LivesApart, HitsOk, Count;
    var t := Next(s, step, limit);
    if s.key.Some? && s.key.value.expires.None? {
      var q :| q in s.requests && Outstanding(s, q);
      if step != Expire(q) {
        assert Outstanding(t, q);
      }
    } else if step.Incr? && s.key.None? {
      assert Outstanding(t, step.request);
    }
    assert !step.Incr? ==> forall q :: q in t.requests && Outstanding(t, q) ==> Outstanding(s, q);
  }

  lemma OthersKeepKey(s: State, step: Step, limit: nat)
    requires Sound(s) && Enabled(s, step) && !step.Incr?
    ensures KeyOk(Next(s, step, limit))
  {
    if step.Expire? {
      ExpireFindsKey(s, step.request);
    }
    hide ExpiryOutstanding, HitsOk, LivesApart, Count, CountsInOrder;
  }

  lemma OthersKeepHits(s: State, step: Step, limit: nat)
    requires HitsOk(s) && Enabled(s, step) && !step.Incr?
    ensures
      var t := Next(s, step, limit);
      t.hits == s.hits && t.began == s.began && HitsOk(t)
  {
    hide HitOk, Count;
  }

  lemma NextKeepsSound(s: State, step: Step, limit: nat)
    requires Sound(s)
    ensures Sound(Next(s, step, limit))
  {
    hide ExpiryOutstanding, HitsOk, LivesApart, CountsInOrder, KeyOk, Effect;
    if Enabled(s, step) {
      ExpiryKept(s, step, limit);
      if step.Incr? {
        IncrKeepsCounts(s, step.request, limit);
        IncrKeepsHits(s, step.request, limit);
      } else {
        OthersKeepKey(s, step, limit);
        OthersKeepHits(s, step, limit);
      }
    }
  }

  /** EXPIRE always meets the key its request created. */
  lemma ExpireFindsKey(s: State, r: nat)
    requires Sound(s) && Outstanding(s, r)
    ensures s.key.Some? && s.key.value.expires.None?
  {
    hide CountsInOrder, LivesApart, HitsOk, Count;
  }

  lemma HeaderRange(s: State)
    requires KeyOk(s) && Alive(s)
    ensures 0 <= TtlHeader(s) <= 60
  {
  }

  lemma IncrKeepsPhases(s: State, r: nat, limit: nat)
    requires PhasesOk(s, limit) && Enabled(s, Incr(r))
    ensures PhasesOk(Next(s, Incr(r), limit), limit)
  {
    var t := Next(s, Incr(r), limit);
    assert t.hits[|s.hits|].request == r;
    forall i | 0 <= i < |s.hits| ensures s.hits[i].request != r {
      assert PhaseOk(s, i, limit);
    }
    forall i | 0 <= i < |t.hits| ensures PhaseOk(t, i, limit) {
      if i < |s.hits| {
        assert PhaseOk(s, i, limit);
      }
    }
    forall q | q in t.requests ensures exists i :: 0 <= i < |t.hits| && t.hits[i].request == q {
      if q != r {
        var i :| 0 <= i < |s.hits| && s.hits[i].request == q;
        assert t.hits[i].request == q;
      }
    }
  }

  lemma NextKeepsPhases(s: State, step: Step, limit: nat)
    requires Sound(s) && PhasesOk(s, limit)
    ensures PhasesOk(Next(s, step, limit), limit)
  {
    hide ExpiryOutstanding, HitsOk, LivesApart, CountsInOrder;
    if step.Incr? && Enabled(s, step) {
      IncrKeepsPhases(s, step.request, limit);
    } else if Enabled(s, step) {
      var t := Next(s, step, limit);
      if step.Ttl? {
        HeaderRange(s);
      }
      hide TtlHeader, KeyOk;
      forall i | 0 <= i < |t.hits| ensures PhaseOk(t, i, limit) {
        assert PhaseOk(s, i, limit);
      }
    }
  }

  lemma {:induction false} EveryRunIsSound(run: seq<Step>, limit: nat)
    ensures Sound(After(run, limit)) && PhasesOk(After(run, limit), limit)
  {
    if run == [] {
    } else {
      hide Sound, PhasesOk, Next;
      EveryRunIsSound(run[..|run| - 1], limit);
      NextKeepsSound(After(run[..|run| - 1], limit), run[|run| - 1], limit);
      NextKeepsPhases(After(run[..|run| - 1], limit), run[|run| - 1], limit);
    }
  }

  // ------------------------------------------------------------------ theorems

  function Min(a: nat, b: nat): nat {
    if a <= b then a else b
  }

  lemma {:induction false} AdmittedInLife(hits: seq<Hit>, life: nat, limit: nat)
    requires CountsInOrder(hits)
    ensures Count(hits, AdmittedOfLife(life, limit)) == Min(limit, Count(hits, OfLife(life)))
  {
    if hits == [] {
    } else {
      AdmittedInLife(hits[..|hits| - 1], life, limit);
    }
  }

  /** One lifetime of the counter admits exactly its first `limit` requests. */
  lemma LifetimeAdmits(run: seq<Step>, limit: nat, life: nat)
    ensures
      var hits := After(run, limit).hits;
      Count(hits, AdmittedOfLife(life, limit)) == Min(limit, Count(hits, OfLife(life)))
  {
    EveryRunIsSound(run, limit);
    AdmittedInLife(After(run, limit).hits, life, limit);
  }

  /** The key lacks an expiry exactly while the EXPIRE of the request that created it is outstanding. */
  lemma NoExpiryIffOutstanding(run: seq<Step>, limit: nat)
    ensures
      var s := After(run, limit);
      s.key.Some? && s.key.value.expires.None? <==> exists r :: r in s.requests && Outstanding(s, r)
  {
    EveryRunIsSound(run, limit);
  }

  lemma {:induction false} LivesGrow(began: seq<real>, l: nat, m: nat)
    requires LivesApart(began) && l < m < |began|
    ensures began[l] + (m - l) as real * WINDOW < began[m]
  {
    if l + 1 == m {
    } else {
      LivesGrow(began, l, m - 1);
      assert began[m - 1] + WINDOW < began[m];
    }
  }

  /** Counted within `windows` windows from the instant on. */
  predicate Inside(h: Hit, from: real, windows: nat) {
    from <= h.at <= from + windows as real * WINDOW
  }

  /** Hits inside n windows lie in at most n + 1 lifetimes; if they reach the last, the first one's opener lies outside. */
  lemma NearHits(s: State, from: real, windows: nat, g: Hit, h: Hit)
    requires Sound(s) && HitOk(g, s.began) && HitOk(h, s.began)
    requires Inside(g, from, windows) && Inside(h, from, windows) && g.life < h.life && windows > 0
    ensures h.life <= g.life + windows
    ensures h.life == g.life + windows ==> s.began[g.life] < from
  {
    LivesGrow(s.began, g.life, h.life);
    if g.life + 1 < h.life {
      LivesGrow(s.began, g.life + 1, h.life);
      assert (h.life - g.life - 1) as real < windows as real;
    }
  }

  /** `life` is the lowest lifetime counted inside. */
  predicate IsLowest(hits: seq<Hit>, from: real, windows: nat, life: nat) {
    && (exists i :: 0 <= i < |hits| && Inside(hits[i], from, windows) && hits[i].life == life)
    && forall i :: 0 <= i < |hits| && Inside(hits[i], from, windows) ==> life <= hits[i].life
  }

  predicate NoneInside(hits: seq<Hit>, from: real, windows: nat) {
    forall i :: 0 <= i < |hits| ==> !Inside(hits[i], from, windows)
  }

  lemma {:induction false} LowestLife(hits: seq<Hit>, from: real, windows: nat) returns (life: nat)
    ensures NoneInside(hits, from, windows) || IsLowest(hits, from, windows, life)
  {
    life := 0;
    if hits == [] {
    } else {
      var n := |hits| - 1;
      hide Inside;
      life := LowestLife(hits[..n], from, windows);
      assert forall i :: 0 <= i < n ==> hits[..n][i] == hits[i];
      if Inside(hits[n], from, windows) && (NoneInside(hits[..n], from, windows) || hits[n].life < life) {
        life := hits[n].life;
      }
    }
  }

  function LaterOfLife(life: nat, limit: nat): Hit -> bool {
    (h: Hit) => h.life == life && 2 <= h.count <= limit
  }

  lemma {:induction false} LaterInLife(hits: seq<Hit>, life: nat, limit: nat)
    requires CountsInOrder(hits) && limit > 0
    ensures Count(hits, LaterOfLife(life, limit)) == Min(limit, Count(hits, OfLife(life))) - Min(1, Count(hits, OfLife(life)))
  {
    if hits == [] {
    } else {
      LaterInLife(hits[..|hits| - 1], life, limit);
    }
  }

  function AdmittedOfLives(first: nat, n: nat, limit: nat): Hit -> bool {
    (h: Hit) => first <= h.life < first + n && h.count <= limit
  }

  /** Successive lifetimes admit at most a limit each. */
  lemma {:induction false} LivesAdmit(hits: seq<Hit>, first: nat, n: nat, limit: nat)
    requires CountsInOrder(hits)
    ensures Count(hits, AdmittedOfLives(first, n, limit)) <= n * limit
  {
    if n == 0 {
      CountNone(hits, AdmittedOfLives(first, 0, limit));
    } else {
      LivesAdmit(hits, first, n - 1, limit);
      AdmittedInLife(hits, first + n - 1, limit);
      CountCovered(hits, AdmittedOfLives(first, n, limit), AdmittedOfLives(first, n - 1, limit), AdmittedOfLife(first + n - 1, limit));
      assert n * limit == (n - 1) * limit + limit;
    }
  }

  /** Admitted and counted inside the windows. */
  function AdmittedInside(from: real, windows: nat, limit: nat): Hit -> bool {
    (h: Hit) => Inside(h, from, windows) && h.count <= limit
  }

  /** Where the first lifetime and its n-th successor both count, the opener of the first does not. */
  lemma ReachingHits(s: State, from: real, windows: nat, life: nat, i: nat)
    requires Sound(s) && IsLowest(s.hits, from, windows, life) && i < |s.hits| && Inside(s.hits[i], from, windows)
    requires exists j :: 0 <= j < |s.hits| && Inside(s.hits[j], from, windows) && s.hits[j].life >= life + windows
    requires windows > 0
    ensures life <= s.hits[i].life <= life + windows
    ensures s.hits[i].life == life ==> s.hits[i].count >= 2
  {
    var k :| 0 <= k < |s.hits| && Inside(s.hits[k], from, windows) && s.hits[k].life == life;
    var j :| 0 <= j < |s.hits| && Inside(s.hits[j], from, windows) && s.hits[j].life >= life + windows;
    NearHits(s, from, windows, s.hits[k], s.hits[j]);
    if s.hits[i].life > life {
      NearHits(s, from, windows, s.hits[k], s.hits[i]);
    } else {
      PositiveCount(s.hits, i);
    }
  }

  lemma FewLivesAdmit(hits: seq<Hit>, limit: nat, from: real, windows: nat, life: nat)
    requires CountsInOrder(hits) && IsLowest(hits, from, windows, life)
    requires forall i :: 0 <= i < |hits| && Inside(hits[i], from, windows) ==> hits[i].life < life + windows
    ensures Count(hits, AdmittedInside(from, windows, limit)) <= windows * limit
  {
    LivesAdmit(hits, life, windows, limit);
    hide Count, CountsInOrder, Inside;
    CountMonotone(hits, hits, AdmittedInside(from, windows, limit), AdmittedOfLives(life, windows, limit));
  }

  lemma ManyLivesAdmit(s: State, limit: nat, from: real, windows: nat, life: nat)
    requires Sound(s) && limit > 0 && windows > 0 && IsLowest(s.hits, from, windows, life)
    requires exists j :: 0 <= j < |s.hits| && Inside(s.hits[j], from, windows) && s.hits[j].life >= life + windows
    ensures Count(s.hits, AdmittedInside(from, windows, limit)) <= (windows + 1) * limit - 1
  {
    var hits, inside := s.hits, AdmittedInside(from, windows, limit);
    LaterInLife(hits, life, limit);
    LivesAdmit(hits, life + 1, windows, limit);
    hide Count, Sound, Inside, IsLowest;
    forall i | 0 <= i < |hits| && inside(hits[i])
      ensures LaterOfLife(life, limit)(hits[i]) || AdmittedOfLives(life + 1, windows, limit)(hits[i])
    {
      ReachingHits(s, from, windows, life, i);
    }
    CountCovered(hits, inside, LaterOfLife(life, limit), AdmittedOfLives(life + 1, windows, limit));
    assert (windows + 1) * limit == windows * limit + limit;
  }

  lemma SpanAdmitted(s: State, limit: nat, from: real, windows: nat)
    requires Sound(s) && limit > 0 && windows > 0
    ensures Count(s.hits, AdmittedInside(from, windows, limit)) <= (windows + 1) * limit - 1
  {
    var life := LowestLife(s.hits, from, windows);
    assert (windows + 1) * limit == windows * limit + limit;
    if NoneInside(s.hits, from, windows) {
      CountNone(s.hits, AdmittedInside(from, windows, limit));
    } else if forall i :: 0 <= i < |s.hits| && Inside(s.hits[i], from, windows) ==> s.hits[i].life < life + windows {
      FewLivesAdmit(s.hits, limit, from, windows, life);
    } else {
      hide Inside;
      ManyLivesAdmit(s, limit, from, windows, life);
    }
  }

  /** Any closed interval of n windows admits at most (n + 1) limit - 1 requests, counted at their INCR. */
  lemma SpanAdmits(run: seq<Step>, limit: nat, from: real, windows: nat)
    requires limit > 0 && windows > 0
    ensures Count(After(run, limit).hits, AdmittedIn(from, from + windows as real * WINDOW, limit)) <= (windows + 1) * limit - 1
  {
    EveryRunIsSound(run, limit);
    var s := After(run, limit);
    SpanAdmitted(s, limit, from, windows);
    hide After, Sound, PhasesOk, Count;
    CountSame(s.hits, s.hits, AdmittedIn(from, from + windows as real * WINDOW, limit), AdmittedInside(from, windows, limit));
  }

  /** Any closed interval of one window admits at most 2 limit - 1 requests, counted at their INCR. */
  lemma WindowAdmits(run: seq<Step>, limit: nat, from: real)
    requires limit > 0
    ensures Count(After(run, limit).hits, AdmittedIn(from, from + 60.0, limit)) <= 2 * limit - 1
  {
    SpanAdmits(run, limit, from, 1);
  }

  // --------------------------------------------------- exactly one window

  /** Counted in a lifetime up to an instant, or before it. */
  function UpTo(life: nat, to: real): Hit -> bool {
    (h: Hit) => h.life == life && h.at <= to
  }

  function Before(life: nat, from: real): Hit -> bool {
    (h: Hit) => h.life == life && h.at < from
  }

  function AdmittedPart(life: nat, from: real, to: real, limit: nat): Hit -> bool {
    (h: Hit) => h.life == life && from <= h.at <= to && h.count <= limit
  }

  lemma AllUpTo(hits: seq<Hit>, life: nat, to: real)
    requires forall i :: 0 <= i < |hits| ==> hits[i].at <= to
    ensures Count(hits, UpTo(life, to)) == Count(hits, OfLife(life))
  {
    CountSame(hits, hits, UpTo(life, to), OfLife(life));
  }

  lemma AllBefore(hits: seq<Hit>, life: nat, from: real)
    requires forall i :: 0 <= i < |hits| ==> hits[i].at < from
    ensures Count(hits, Before(life, from)) == Count(hits, OfLife(life))
  {
    CountSame(hits, hits, Before(life, from), OfLife(life));
  }

  /** Between two instants a lifetime admits what its counter gained below the limit. */
  lemma {:induction false} PartAdmits(hits: seq<Hit>, life: nat, from: real, to: real, limit: nat)
    requires CountsInOrder(hits) && TimeOrdered(hits) && from <= to
    ensures Count(hits, AdmittedPart(life, from, to, limit))
         == Min(limit, Count(hits, UpTo(life, to))) - Min(limit, Count(hits, Before(life, from)))
  {
    if hits == [] {
    } else {
      var n := |hits| - 1;
      PartAdmits(hits[..n], life, from, to, limit);
      if hits[n].at <= to {
        AllUpTo(hits[..n], life, to);
      }
      if hits[n].at < from {
        AllBefore(hits[..n], life, from);
      }
      hide TimeOrdered;
    }
  }

  /** What two successive lifetimes admit in the window: the rest of the old one and the start of the new one. */
  function Overlap(s: State, limit: nat, from: real, life: nat): int
    requires life > 0
  {
    Min(limit, Count(s.hits, UpTo(life - 1, from + WINDOW))) - Min(limit, Count(s.hits, Before(life - 1, from)))
    + Min(limit, Count(s.hits, UpTo(life, from + WINDOW)))
  }

  predicate BeganInside(s: State, from: real, life: nat) {
    0 < life < |s.began| && from <= s.began[life] <= from + WINDOW
  }

  lemma HitsAround(s: State, from: real, life: nat, h: Hit)
    requires LivesApart(s.began) && HitOk(h, s.began) && BeganInside(s, from, life) && from <= h.at <= from + WINDOW
    ensures h.life == life - 1 || h.life == life
  {
    if h.life > life {
      LivesGrow(s.began, life, h.life);
    } else if h.life + 1 < life {
      LivesGrow(s.began, h.life + 1, life);
    }
  }

  lemma NothingBefore(s: State, from: real, life: nat)
    requires HitsOk(s) && BeganInside(s, from, life)
    ensures Count(s.hits, Before(life, from)) == 0
  {
    CountNone(s.hits, Before(life, from));
  }

  /** A window in which a lifetime began admits exactly the overlap. */
  lemma OverlapIsAdmitted(s: State, limit: nat, from: real, life: nat)
    requires Sound(s) && BeganInside(s, from, life)
    ensures Count(s.hits, AdmittedIn(from, from + WINDOW, limit)) == Overlap(s, limit, from, life)
  {
    var to := from + WINDOW;
    PartAdmits(s.hits, life - 1, from, to, limit);
    PartAdmits(s.hits, life, from, to, limit);
    NothingBefore(s, from, life);
    hide Count, CountsInOrder, KeyOk, ExpiryOutstanding, TimeOrdered;
    forall i | 0 <= i < |s.hits| && from <= s.hits[i].at <= to ensures s.hits[i].life == life - 1 || s.hits[i].life == life {
      HitsAround(s, from, life, s.hits[i]);
    }
    CountSplit(s.hits, AdmittedIn(from, to, limit), AdmittedPart(life - 1, from, to, limit), AdmittedPart(life, from, to, limit));
  }

  /** A window in which no lifetime but the first began sees one lifetime only. */
  lemma QuietWindow(s: State, limit: nat, from: real)
    requires Sound(s) && forall life: nat :: !BeganInside(s, from, life)
    ensures Count(s.hits, AdmittedIn(from, from + WINDOW, limit)) <= limit
  {
    hide KeyOk, ExpiryOutstanding, TimeOrdered, LivesApart, CountsInOrder, Count;
    var life := LowestLife(s.hits, from, 1);
    if NoneInside(s.hits, from, 1) {
      CountNone(s.hits, AdmittedIn(from, from + WINDOW, limit));
    } else {
      var k :| 0 <= k < |s.hits| && Inside(s.hits[k], from, 1) && s.hits[k].life == life;
      forall i | 0 <= i < |s.hits| && Inside(s.hits[i], from, 1) ensures s.hits[i].life < life + 1 {
        if s.hits[i].life > life {
          BeginsBetween(s, from, s.hits[k], s.hits[i]);
          assert false;
        }
      }
      FewLivesAdmit(s.hits, limit, from, 1, life);
      CountSame(s.hits, s.hits, AdmittedIn(from, from + WINDOW, limit), AdmittedInside(from, 1, limit));
    }
  }

  lemma BeginsBetween(s: State, from: real, g: Hit, h: Hit)
    requires LivesApart(s.began) && HitOk(g, s.began) && HitOk(h, s.began) && g.life < h.life
    requires Inside(g, from, 1) && Inside(h, from, 1)
    ensures BeganInside(s, from, h.life)
  {
    if g.life + 1 < h.life {
      LivesGrow(s.began, g.life + 1, h.life);
    }
  }

  /** A lifetime began inside, and what the one before still admitted there and what it admitted itself exceed the limit. */
  ghost predicate Overlaps(s: State, limit: nat, from: real) {
    exists life: nat :: BeganInside(s, from, life) && Overlap(s, limit, from, life) > limit
  }

  /** The exact condition for one window, counted at the INCRs, to stay within the limit. */
  lemma WindowStaysWithinIff(run: seq<Step>, limit: nat, from: real)
    ensures Count(After(run, limit).hits, AdmittedIn(from, from + WINDOW, limit)) <= limit <==> !Overlaps(After(run, limit), limit, from)
  {
    EveryRunIsSound(run, limit);
    var s := After(run, limit);
    hide After, Sound, PhasesOk, Count, Overlap;
    if exists life: nat :: BeganInside(s, from, life) {
      var life: nat :| BeganInside(s, from, life);
      forall m: nat | BeganInside(s, from, m)
        ensures Count(s.hits, AdmittedIn(from, from + WINDOW, limit)) == Overlap(s, limit, from, m)
      {
        OverlapIsAdmitted(s, limit, from, m);
      }
    } else {
      QuietWindow(s, limit, from);
    }
  }

  // -------------------------------------------------------------- let through

  /** The request of the hit was answered and let through within the bounds. */
  function LetThroughIn(requests: map<nat, Phase>, from: real, to: real): Hit -> bool {
    (h: Hit) =>
      && h.request in requests && requests[h.request].Answered? && requests[h.request].admitted
      && from <= requests[h.request].at <= to
  }

  /** Every answered request was answered within the delay after its INCR. */
  predicate Prompt(s: State, delay: real) {
    forall i :: 0 <= i < |s.hits| && s.hits[i].request in s.requests && s.requests[s.hits[i].request].Answered? ==>
      s.requests[s.hits[i].request].at <= s.hits[i].at + delay
  }

  /**
   The requests let through in one window, counted when they are answered: with
   answers at most `delay` late, their INCRs lie in the window and the delay
   before it, and the bound is that of the n windows these take.
   */
  lemma WindowLetsThrough(run: seq<Step>, limit: nat, from: real, delay: real, windows: nat)
    requires limit > 0 && Prompt(After(run, limit), delay) && WINDOW + delay <= windows as real * WINDOW && windows > 0
    ensures
      var s := After(run, limit);
      Count(s.hits, LetThroughIn(s.requests, from, from + WINDOW)) <= (windows + 1) * limit - 1
  {
    EveryRunIsSound(run, limit);
    var s := After(run, limit);
    SpanAdmitted(s, limit, from - delay, windows);
    hide After, Sound, Count;
    forall i | 0 <= i < |s.hits| && LetThroughIn(s.requests, from, from + WINDOW)(s.hits[i])
      ensures AdmittedInside(from - delay, windows, limit)(s.hits[i])
    {
      assert PhaseOk(s, i, limit);
    }
    CountMonotone(s.hits, s.hits, LetThroughIn(s.requests, from, from + WINDOW), AdmittedInside(from - delay, windows, limit));
  }

  lemma {:induction false} PositiveCount(hits: seq<Hit>, i: nat)
    requires CountsInOrder(hits) && i < |hits|
    ensures hits[i].count > 0
  {
    if i + 1 == |hits| {
    } else {
      PositiveCount(hits[..|hits| - 1], i);
    }
  }

  /** Every answered request was counted once, and admitted exactly if its count was within the limit; Retry-After is 0 to 60. */
  lemma AnswersFollowCounts(run: seq<Step>, limit: nat, r: nat)
    requires r in After(run, limit).requests && After(run, limit).requests[r].Answered?
    ensures
      var s := After(run, limit);
      && 0 <= s.requests[r].ttl <= 60
      && exists i :: 0 <= i < |s.hits| && s.hits[i].request == r && (s.requests[r].admitted <==> s.hits[i].count <= limit)
    ensures
      var s := After(run, limit);
      forall i, j :: 0 <= i < |s.hits| && 0 <= j < |s.hits| && s.hits[i].request == r == s.hits[j].request ==> i == j
  {
    EveryRunIsSound(run, limit);
    var s := After(run, limit);
    hide Sound, After;
    var i :| 0 <= i < |s.hits| && s.hits[i].request == r;
    assert PhaseOk(s, i, limit);
  }
}
