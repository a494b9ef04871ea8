/** The Redis cache helper and the project use cases over it, run one after another. */
module ProjectCache {
  import opened Wrappers
  import opened Projects
  import Caching

  datatype RedisError = RedisError

  datatype Stored = Stored(rows: seq<Project>, expires: real)

  datatype Page = Page(cursor: nat, keys: set<string>)

  type Data = map<string, Stored>

  /** The keys a pattern deletes are gone, the others are as they were. */
  function Unmatched(data: Data, pattern: string): Data {
    map k | k in data && !Glob(pattern, k) :: data[k]
  }

  /** Some matching keys are gone, and nothing else changed. */
  predicate PartlyDeleted(before: Data, after: Data, pattern: string) {
    && after.Keys <= before.Keys
    && (forall k :: k in after ==> after[k] == before[k])
    && (forall k :: k in before && k !in after ==> Glob(pattern, k))
  }

  /** A Redis server reached over a connection that may fail at any call; `errors` counts the failures. */
  class Redis {
    var data: Data
    var errors: nat
    const slots: nat
    const slotOf: string -> nat

    constructor (slots: nat, slotOf: string -> nat)
      ensures data == map[] && errors == 0
    {
      data, errors := map[], 0;
      this.slots, this.slotOf := slots, slotOf;
    }

    method Get(key: string, now: real) returns (raw: Result<Option<seq<Project>>, RedisError>)
      modifies this`errors
      ensures raw.Failure? <==> errors != old(errors)
      ensures errors >= old(errors)
      ensures raw.Success? ==> raw.value == if key in data && now <= data[key].expires then Some(data[key].rows) else None
    {
      if * {
        errors := errors + 1;
        return Failure(RedisError);
      }
      raw := Success(if key in data && now <= data[key].expires then Some(data[key].rows) else None);
    }

    method Set(key: string, rows: seq<Project>, expires: real) returns (ok: Result<(), RedisError>)
      modifies this
      ensures ok.Failure? <==> errors != old(errors)
      ensures errors >= old(errors)
      ensures data == if ok.Success? then old(data)[key := Stored(rows, expires)] else old(data)
    {
      if * {
        errors := errors + 1;
        return Failure(RedisError);
      }
      data := data[key := Stored(rows, expires)];
      ok := Success(());
    }

    method Delete(keys: set<string>) returns (ok: Result<(), RedisError>)
      modifies this
      ensures ok.Failure? <==> errors != old(errors)
      ensures errors >= old(errors)
      ensures data == if ok.Success? then old(data) - keys else old(data)
    {
      if * {
        errors := errors + 1;
        return Failure(RedisError);
      }
      data := data - keys;
      ok := Success(());
    }

    /** The slots one SCAN call visits; the last call wraps to the end. */
    predicate Visits(cursor: nat, end: nat, key: string) {
      cursor <= slotOf(key) && (slotOf(key) < end || end >= slots)
    }

    /** One SCAN call: the matching keys of some slots from the cursor on, and cursor 0 after the last slot. */
    method Scan(cursor: nat, pattern: string, count: nat) returns (page: Result<Page, RedisError>)
      requires count > 0
      modifies this`errors
      ensures page.Failure? <==> errors != old(errors)
      ensures errors >= old(errors)
      ensures page.Success? ==> (page.value.cursor == 0 || cursor < page.value.cursor < slots)
      ensures page.Success? ==> forall k :: k in page.value.keys ==> k in data && Glob(pattern, k)
      ensures page.Success? ==> forall k :: k in data && Glob(pattern, k) && cursor <= slotOf(k) && (page.value.cursor == 0 || slotOf(k) < page.value.cursor) ==> k in page.value.keys
    {
      if * {
        errors := errors + 1;
        return Failure(RedisError);
      }
      var end := cursor + count;
      var keys := set k | k in data && Glob(pattern, k) && Visits(cursor, end, k);
      page := Success(Page(if end >= slots then 0 else end, keys));
    }
  }

  class RedisCache {
    const redis: Redis

    constructor (redis: Redis)
      ensures this.redis == redis
    {
      this.redis := redis;
    }

    /** A miss and an error look alike. */
    method CacheGet(key: string, now: real) returns (rows: Option<seq<Project>>)
      modifies redis`errors
      ensures redis.errors >= old(redis.errors)
      ensures rows.Some? ==> key in redis.data && rows.value == redis.data[key].rows && now <= redis.data[key].expires
      ensures rows.None? ==> redis.errors > old(redis.errors) || key !in redis.data || now > redis.data[key].expires
    {
      var raw := redis.Get(key, now);
      rows := if raw.Success? then raw.value else None;
    }

    method CacheSet(key: string, rows: seq<Project>, now: real, ttl: real)
      modifies redis
      ensures redis.errors >= old(redis.errors)
      ensures redis.data == old(redis.data) || redis.data == old(redis.data)[key := Stored(rows, now + ttl)]
      ensures redis.errors == old(redis.errors) ==> redis.data == old(redis.data)[key := Stored(rows, now + ttl)]
    {
      var _ := redis.Set(key, rows, now + ttl);
    }

    /** The SCAN loop deletes exactly the matching keys, or stops short of some of them on an error. */
    method CacheInvalidatePattern(pattern: string)
      modifies redis
      ensures redis.errors >= old(redis.errors)
      ensures PartlyDeleted(old(redis.data), redis.data, pattern)
      ensures redis.errors == old(redis.errors) ==> redis.data == Unmatched(old(redis.data), pattern)
    {
      var cursor := 0;
      while true
        invariant redis.errors == old(redis.errors)
        invariant PartlyDeleted(old(redis.data), redis.data, pattern)
        invariant forall k :: k in redis.data && Glob(pattern, k) ==> cursor <= redis.slotOf(k)
        decreases redis.slots - cursor
      {
        var page := redis.Scan(cursor, pattern, 100);
        if page.Failure? {
          return;
        }
        if page.value.keys != {} {
          var ok := redis.Delete(page.value.keys);
          if ok.Failure? {
            return;
          }
        }
        if page.value.cursor == 0 {
          break;
        }
        cursor := page.value.cursor;
      }
    }
  }

  datatype ProjectError = EntityNotFound | NoClientRepository | InvalidTransition

  datatype ProjectEvent =
    | ProjectCreated(tenant: Uuid, id: nat)
    | ProjectStatusChanged(tenant: Uuid, id: nat, from: Status, to: Status)

  /** A list that was missing is stored for 60 seconds under its key, unless a call failed; a list that was there stays. */
  predicate Filled(before: Data, after: Data, q: Query, rows: seq<Project>, now: real, noErrors: bool) {
    && (after == before || after == before[KeyOf(q) := Stored(rows, now + 60.0)])
    && (noErrors ==>
          after == if KeyOf(q) in before && now <= before[KeyOf(q)].expires then before else before[KeyOf(q) := Stored(rows, now + 60.0)])
  }

  class ProjectService {
    var db: seq<Project>
    var published: seq<ProjectEvent>
    const cache: RedisCache?

    constructor (db: seq<Project>, cache: RedisCache?)
      ensures this.db == db && this.cache == cache && published == []
    {
      this.db, this.cache, published := db, cache, [];
    }

    /** Every cached list is the list the database would give. */
    ghost predicate Coherent()
      reads this, if cache == null then {} else {cache.redis}
    {
      cache != null ==> forall q {:trigger KeyOf(q)} :: KeyOf(q) in cache.redis.data ==> cache.redis.data[KeyOf(q)].rows == Ask(db, q)
    }

    /** ListProjects: from the cache if it can, else from the database, filling the cache. */
    method List(q: Query, now: real) returns (rows: seq<Project>)
      requires Coherent()
      modifies if cache == null then {} else {cache.redis}
      ensures rows == Ask(db, q)
      ensures Coherent()
      ensures cache != null ==> Filled(old(cache.redis.data), cache.redis.data, q, rows, now, cache.redis.errors == old(cache.redis.errors))
    {
      hide Ask, KeyOf;
      var key := KeyOf(q);
      if cache != null {
        var cached := cache.CacheGet(key, now);
        if cached.Some? {
          return cached.value;
        }
      }
      rows := Ask(db, q);
      if cache != null {
        cache.CacheSet(key, rows, now, Caching.TTL);
        forall r | KeyOf(r) in cache.redis.data ensures cache.redis.data[KeyOf(r)].rows == Ask(db, r) {
          KeyIsInjective(q, r);
        }
      }
    }

    /** What a writer does after its commit. */
    method Invalidate(t: Uuid, ghost before: seq<Project>, ghost c: Change)
      requires Commits(before, t, c) && db == Changed(before, t, c)
      requires cache != null ==> forall q {:trigger KeyOf(q)} :: KeyOf(q) in cache.redis.data ==> cache.redis.data[KeyOf(q)].rows == Ask(before, q)
      modifies if cache == null then {} else {cache.redis}
      ensures cache == null || cache.redis.errors == old(cache.redis.errors) ==> Coherent()
    {
      hide Ask, KeyOf, Changed, Commits, Glob;
      if cache != null {
        cache.CacheInvalidatePattern(PatternOf(t));
        if cache.redis.errors == old(cache.redis.errors) {
          forall q | KeyOf(q) in cache.redis.data ensures cache.redis.data[KeyOf(q)].rows == Ask(db, q) {
            PatternIsTenant(t, q);
            CommitKeepsOtherAnswers(before, t, c, q);
          }
        }
      }
    }

    /** CreateProject.  No unit of work has the client repository that a request with a client needs. */
    method Create(t: Uuid, id: nat, client: Option<Uuid>, content: string) returns (r: Result<nat, ProjectError>)
      requires Coherent()
      modifies this`db, this`published, if cache == null then {} else {cache.redis}
      ensures r == if client.Some? then Failure(NoClientRepository) else Success(id)
      ensures db == if client.Some? then old(db) else [Project(id, t, None, Active, content)] + old(db)
      ensures published == old(published) + if r.Success? then [ProjectCreated(t, id)] else []
      ensures cache == null || r.Failure? || cache.redis.errors == old(cache.redis.errors) ==> Coherent()
    {
      if client.Some? {
        return Failure(NoClientRepository);
      }
      var project := Project(id, t, client, Active, content);
      db := [project] + db;
      assert db == Changed(old(db), t, Created(project, 0));
      Invalidate(t, old(db), Created(project, 0));
      published := published + [ProjectCreated(t, id)];
      r := Success(id);
    }

    /** UpdateProject: a status the project cannot move to raises before anything is committed. */
    method Update(t: Uuid, id: nat, patch: Patch) returns (r: Result<nat, ProjectError>)
      requires Coherent()
      modifies this`db, this`published, if cache == null then {} else {cache.redis}
      ensures r.Success? <==> Commits(old(db), t, Updated(id, patch))
      ensures r == Failure(EntityNotFound) <==> FindRow(old(db), t, id).None?
      ensures db == if r.Success? then UpdateRows(old(db), t, id, patch) else old(db)
      ensures r.Success? ==>
        var p := old(db)[FindRow(old(db), t, id).value];
        published == old(published) +
          if patch.status.Some? && patch.status.value != p.status then [ProjectStatusChanged(t, id, p.status, patch.status.value)] else []
      ensures r.Failure? ==> published == old(published)
      ensures cache == null || r.Failure? || cache.redis.errors == old(cache.redis.errors) ==> Coherent()
    {
      var row := FindRow(db, t, id);
      if row.None? {
        return Failure(EntityNotFound);
      }
      var oldStatus := db[row.value].status;
      if patch.status.Some? && patch.status.value != oldStatus && !CanMove(oldStatus, patch.status.value) {
        return Failure(InvalidTransition);
      }
      db := UpdateRows(db, t, id, patch);
      Invalidate(t, old(db), Updated(id, patch));
      if patch.status.Some? && patch.status.value != oldStatus {
        published := published + [ProjectStatusChanged(t, id, oldStatus, patch.status.value)];
      }
      r := Success(id);
    }

    method Remove(t: Uuid, id: nat) returns (r: Result<(), ProjectError>)
      requires Coherent()
      modifies this`db, if cache == null then {} else {cache.redis}
      ensures r == if FindRow(old(db), t, id).Some? then Success(()) else Failure(EntityNotFound)
      ensures db == if r.Success? then DeleteRows(old(db), t, id) else old(db)
      ensures cache == null || r.Failure? || cache.redis.errors == old(cache.redis.errors) ==> Coherent()
    {
      if FindRow(db, t, id).None? {
        return Failure(EntityNotFound);
      }
      db := DeleteRows(db, t, id);
      Invalidate(t, old(db), Deleted(id));
      r := Success(());
    }
  }
}
