/** The middleware: whose counter a request uses, and `dispatch` run without interruption while other requests may be under way. */
module RateLimiting {
  import opened Wrappers
  import opened Texts
  import opened Limiter

  const AUTHENTICATED_LIMIT := 100
  const UNAUTHENTICATED_LIMIT := 20

  /** `host` is None without a client; the headers are empty when absent. */
  datatype Request = Request(authorization: string, apiKey: string, host: Option<string>)

  datatype Caller =
    | User(subject: string)
    | ApiKey(prefix: string)
    | Address(host: string)

  /** `decode` is the JWT library: the subject of a valid token. */
  function CallerOf(r: Request, decode: string -> Option<string>): Caller {
    if "Bearer " <= r.authorization && decode(r.authorization[7..]).Some? then User(decode(r.authorization[7..]).value)
    else if r.apiKey != "" then ApiKey(Take(r.apiKey, 16))
    else Address(r.host.GetOr("unknown"))
  }

  function CounterKey(c: Caller): string {
    match c
    case User(subject) => "rl:user:" + subject
    case ApiKey(prefix) => "rl:apikey:" + prefix
    case Address(host) => "rl:ip:" + host
  }

  function LimitOf(c: Caller): nat {
    if c.Address? then UNAUTHENTICATED_LIMIT else AUTHENTICATED_LIMIT
  }

  /** `_get_client_identity` */
  function ClientIdentity(r: Request, decode: string -> Option<string>): (string, nat) {
    (CounterKey(CallerOf(r, decode)), LimitOf(CallerOf(r, decode)))
  }

  /** The header carries a bearer token that decodes. */
  predicate HasToken(r: Request, decode: string -> Option<string>) {
    |r.authorization| >= 7 && r.authorization[..7] == "Bearer " && decode(r.authorization[7..]).Some?
  }

  /** A valid token comes before an API key and a key before the address; the first two allow 100 requests, an address 20. */
  lemma IdentityRule(r: Request, decode: string -> Option<string>)
    ensures
      ClientIdentity(r, decode) ==
        if HasToken(r, decode) then ("rl:user:" + decode(r.authorization[7..]).value, 100)
        else if r.apiKey != "" then ("rl:apikey:" + (if |r.apiKey| > 16 then r.apiKey[..16] else r.apiKey), 100)
        else ("rl:ip:" + (if r.host.Some? then r.host.value else "unknown"), 20)
  {
    assert "Bearer " <= r.authorization <==> |r.authorization| >= 7 && r.authorization[..7] == "Bearer ";
  }

  lemma CounterKeyIsInjective(a: Caller, b: Caller)
    ensures CounterKey(a) == CounterKey(b) <==> a == b
  {
    if CounterKey(a) == CounterKey(b) {
      assert CounterKey(a)[3] == CounterKey(b)[3];
      match a
      case User(subject) => assert subject == CounterKey(a)[8..] == CounterKey(b)[8..];
      case ApiKey(prefix) => assert prefix == CounterKey(a)[10..] == CounterKey(b)[10..];
      case Address(host) => assert host == CounterKey(a)[6..] == CounterKey(b)[6..];
    }
  }

  /** Requests share a counter exactly when they have the same caller, and then also the limit. */
  lemma SharedCounters(r: Request, s: Request, decode: string -> Option<string>)
    ensures ClientIdentity(r, decode).0 == ClientIdentity(s, decode).0 <==> CallerOf(r, decode) == CallerOf(s, decode)
    ensures CallerOf(r, decode) ==
      if HasToken(r, decode) then User(decode(r.authorization[7..]).value)
      else if r.apiKey != "" then ApiKey(Take(r.apiKey, 16)) else Address(r.host.GetOr("unknown"))
    ensures ClientIdentity(r, decode).0 == ClientIdentity(s, decode).0 ==> ClientIdentity(r, decode).1 == ClientIdentity(s, decode).1
  {
    IdentityRule(r, decode);
    CounterKeyIsInjective(CallerOf(r, decode), CallerOf(s, decode));
  }

  /** Without a valid token, API keys share a counter exactly when their first 16 characters agree. */
  lemma ApiKeysShareByPrefix(r: Request, s: Request, decode: string -> Option<string>)
    requires r.apiKey != "" && s.apiKey != "" && CallerOf(r, decode).ApiKey? && CallerOf(s, decode).ApiKey?
    ensures ClientIdentity(r, decode).0 == ClientIdentity(s, decode).0 <==> Take(r.apiKey, 16) == Take(s.apiKey, 16)
  {
    CounterKeyIsInjective(CallerOf(r, decode), CallerOf(s, decode));
  }

  datatype Response = Response(allowed: bool, remaining: nat, ttl: int)

  /** A counter as a request finds it: time has passed since its last use, and an expired key is gone. */
  function Arrival(counters: map<string, State>, key: string, now: real): State
    requires key in counters ==> counters[key].now <= now
  {
    var s := (if key in counters then counters[key] else START).(now := now);
    if s.key.Some? && s.key.value.expires.Some? && s.key.value.expires.value < now then s.(key := None) else s
  }

  lemma ArrivalIsSound(counters: map<string, State>, key: string, now: real, limit: nat)
    requires now >= 0.0
    requires key in counters ==> counters[key].now <= now && Sound(counters[key]) && PhasesOk(counters[key], limit)
    ensures Sound(Arrival(counters, key, now)) && PhasesOk(Arrival(counters, key, now), limit) && Alive(Arrival(counters, key, now))
  {
    hide Sound, PhasesOk, Alive, Effect;
    var s := if key in counters then counters[key] else START;
    var ticked := Next(s, Tick(now - s.now), limit);
    StartIsSound(limit);
    NextKeepsSound(s, Tick(now - s.now), limit);
    NextKeepsPhases(s, Tick(now - s.now), limit);
    NextKeepsSound(ticked, Lapse, limit);
    NextKeepsPhases(ticked, Lapse, limit);
    ArrivalIsSteps(counters, key, now, limit);
  }

  lemma StartIsSound(limit: nat)
    ensures Sound(START) && PhasesOk(START, limit) && START.now == 0.0
  {
  }

  /** The clock's tick, and the lapse of a key that is then expired. */
  lemma ArrivalIsSteps(counters: map<string, State>, key: string, now: real, limit: nat)
    requires now >= 0.0 && (key in counters ==> counters[key].now <= now)
    ensures
      var s := if key in counters then counters[key] else START;
      Arrival(counters, key, now) == Next(Next(s, Tick(now - s.now), limit), Lapse, limit) && Alive(Arrival(counters, key, now))
  {
  }

  /** The header is the key's time left to the nearest second, or the whole window while the EXPIRE is outstanding. */
  predicate TellsExpiry(ttl: int, s: State) {
    && 0 <= ttl <= 60 && s.key.Some?
    && match s.key.value.expires {
         case None => ttl == 60
         case Some(expires) => ttl as real - 0.5 <= expires - s.now < ttl as real + 0.5
       }
  }

  lemma HeaderTellsExpiry(s: State)
    requires Sound(s) && Alive(s) && s.key.Some?
    ensures TellsExpiry(TtlHeader(s), s)
  {
    hide CountsInOrder, LivesApart, HitsOk, ExpiryOutstanding;
  }

  lemma KeyCounts(s: State)
    requires Sound(s) && s.key.Some?
    ensures s.key.value.count > 0
  {
    hide CountsInOrder, LivesApart, HitsOk, ExpiryOutstanding;
  }

  /** INCR, EXPIRE for a first request, and TTL, one after the other. */
  function Counted(before: State, r: nat, limit: nat): State {
    var counted := Next(before, Incr(r), limit);
    if counted.key.Some? && counted.key.value.count == 1 then Next(counted, Expire(r), limit) else counted
  }

  lemma CountedIsSound(before: State, r: nat, limit: nat)
    requires Sound(before) && PhasesOk(before, limit) && Alive(before) && r !in before.requests
    ensures
      var s := Counted(before, r, limit);
      && Sound(s) && PhasesOk(s, limit) && Alive(s) && s.now == before.now && s.key.Some?
      && s.key.value.count == (if before.key.Some? then before.key.value.count + 1 else 1)
      && s.requests == before.requests[r := NeedsTtl(s.key.value.count)]
      && (before.key.None? ==> s.key.value.expires == Some(before.now + 60.0))
      && Next(before, Incr(r), limit).key.Some? && Next(before, Incr(r), limit).key.value.count == s.key.value.count
  {
    hide Sound, PhasesOk;
    if before.key.Some? {
      KeyCounts(before);
    }
    NextKeepsSound(before, Incr(r), limit);
    NextKeepsPhases(before, Incr(r), limit);
    var counted := Next(before, Incr(r), limit);
    NextKeepsSound(counted, Expire(r), limit);
    NextKeepsPhases(counted, Expire(r), limit);
  }

  lemma AnsweredIsSound(s: State, r: nat, limit: nat)
    requires Sound(s) && PhasesOk(s, limit) && Alive(s) && s.key.Some? && r in s.requests && s.requests[r].NeedsTtl?
    ensures
      var after := Next(s, Ttl(r), limit);
      && Sound(after) && PhasesOk(after, limit) && after.key == s.key && after.now == s.now
      && after.requests == s.requests[r := Answered(s.requests[r].count <= limit, TtlHeader(s), s.now)]
      && TellsExpiry(TtlHeader(s), after)
  {
    hide Sound, PhasesOk, TtlHeader;
    NextKeepsSound(s, Ttl(r), limit);
    NextKeepsPhases(s, Ttl(r), limit);
    HeaderTellsExpiry(s);
  }

  /** Identity, INCR, EXPIRE for a first request, TTL and the answer, while other requests may be under way. */
  class Middleware {
    var counters: map<string, State>
    const decode: string -> Option<string>

    ghost predicate Valid()
      reads this
    {
      && (forall k :: k in counters ==> Sound(counters[k]))
      && (forall c: Caller {:trigger CounterKey(c)} :: CounterKey(c) in counters ==> PhasesOk(counters[CounterKey(c)], LimitOf(c)))
    }

    constructor (decode: string -> Option<string>)
      ensures Valid() && counters == map[] && this.decode == decode
    {
      counters := map[];
      this.decode := decode;
    }

    /** `r` numbers the request, `now` is the clock, which never goes back. */
    method Dispatch(request: Request, r: nat, now: real) returns (response: Response)
      requires Valid() && now >= 0.0 && forall k :: k in counters ==> counters[k].now <= now
      requires
        var key := ClientIdentity(request, decode).0;
        key in counters ==> r !in counters[key].requests
      modifies this
      ensures Valid()
      ensures
        var key := ClientIdentity(request, decode).0;
        var limit := if HasToken(request, decode) || request.apiKey != "" then 100 else 20;
        && key in counters && counters == old(counters)[key := counters[key]]
        && var s, before := counters[key], Arrival(old(counters), key, now);
        && s.requests == before.requests[r := Answered(response.allowed, response.ttl, now)]
        && s.key.Some? && s.key.value.count == (if before.key.Some? then before.key.value.count + 1 else 1)
        && (response.allowed <==> s.key.value.count <= limit)
        && response.remaining == (if response.allowed then limit - s.key.value.count else 0)
        && TellsExpiry(response.ttl, s)
        && (before.key.None? ==> s.key.value.expires == Some(now + 60.0))
    {
      hide Sound, PhasesOk, TtlHeader, CallerOf, HasToken, CounterKey, Alive, Effect, Enabled, TellsExpiry;
      ghost var caller := CallerOf(request, decode);
      IdentityRule(request, decode);
      var (key, limit) := ClientIdentity(request, decode);
      ArrivalIsSound(counters, key, now, limit);
      var redis := Arrival(counters, key, now);
      CountedIsSound(redis, r, limit);
      AnsweredIsSound(Counted(redis, r, limit), r, limit);
      redis := Next(redis, Incr(r), limit);
      var currentCount := redis.key.value.count;
      if currentCount == 1 {
        redis := Next(redis, Expire(r), limit);
      }
      var ttl := TtlHeader(redis);
      redis := Next(redis, Ttl(r), limit);
      response := Response(currentCount <= limit, if currentCount <= limit then limit - currentCount else 0, ttl);
      counters := counters[key := redis];
      forall c: Caller {:trigger CounterKey(c)} | CounterKey(c) in counters ensures PhasesOk(counters[CounterKey(c)], LimitOf(c)) {
        CounterKeyIsInjective(c, caller);
      }
    }
  }
}
