/** Live games in Redis (internal/store/redis.go). */
module GameStore {
  import opened Options
  import opened Game

  type Redis = map<string, GameRec>

  /** The value write marshals: the caller's record one revision on. */
  function Next(g: GameRec): GameRec {
    g.(revision := g.revision + 1)
  }

  const MUST_NOT_EXIST := -1

  /** casScript: None when the script returns 0, else the store after the SET. */
  function Cas(redis: Redis, g: GameRec, expectedPly: int): Option<Redis> {
    if expectedPly == MUST_NOT_EXIST then
      if g.id in redis then None else Some(redis[g.id := Next(g)])
    else if g.id !in redis then None
    else if redis[g.id].ply != expectedPly || redis[g.id].revision != g.revision then None
    else Some(redis[g.id := Next(g)])
  }

  class Games {
    var redis: Redis

    constructor ()
      ensures redis == map[]
    {
      redis := map[];
    }

    /** The Lua script. Redis runs it to completion, so it is one step. */
    method Script(key: string, expected: int, raw: GameRec, revision: nat) returns (ok: bool)
      modifies this
      ensures ok <==> if expected == MUST_NOT_EXIST then key !in old(redis)
                      else key in old(redis) && old(redis)[key].ply == expected
                           && old(redis)[key].revision == revision
      ensures redis == if ok then old(redis)[key := raw] else old(redis)
    {
      var cur := if key in redis then Some(redis[key]) else None;
      if expected == MUST_NOT_EXIST {
        if cur.Some? { return false; }
      } else if cur.None? {
        return false;
      } else {
        var state := cur.value;
        if state.ply != expected || state.revision != revision { return false; }
      }
      redis := redis[key := raw];
      return true;
    }

    /** write: on success the stored value and the caller's object agree, revision included; on
        conflict neither moves. */
    method Write(g: Game, expectedPly: int) returns (ok: bool)
      modifies this, g
      ensures ok <==> Cas(old(redis), old(g.Snapshot()), expectedPly).Some?
      ensures ok ==> && redis == Cas(old(redis), old(g.Snapshot()), expectedPly).value
                     && g.Snapshot() == Next(old(g.Snapshot()))
                     && redis[g.id] == g.Snapshot()
      ensures !ok ==> redis == old(redis) && g.Snapshot() == old(g.Snapshot())
    {
      var next := g.Snapshot();
      next := next.(revision := next.revision + 1);
      ok := Script(g.id, expectedPly, next, g.revision);
      if ok {
        g.revision := next.revision;
      }
    }

    method Create(g: Game) returns (ok: bool)
      modifies this, g
      ensures ok <==> g.id !in old(redis)
      ensures ok ==> redis == old(redis)[g.id := g.Snapshot()]
                     && g.Snapshot() == Next(old(g.Snapshot()))
      ensures !ok ==> redis == old(redis) && g.Snapshot() == old(g.Snapshot())
    {
      ok := Write(g, MUST_NOT_EXIST);
    }

    method Update(g: Game, expectedPly: int) returns (ok: bool)
      requires expectedPly >= 0
      modifies this, g
      ensures ok <==> g.id in old(redis) && old(redis)[g.id].ply == expectedPly
                      && old(redis)[g.id].revision == old(g.revision)
      ensures ok ==> redis == old(redis)[g.id := g.Snapshot()]
                     && g.Snapshot() == Next(old(g.Snapshot()))
      ensures !ok ==> redis == old(redis) && g.Snapshot() == old(g.Snapshot())
    {
      ok := Write(g, expectedPly);
    }

    method Get(id: string) returns (found: Option<Game>)
      ensures found.Some? <==> id in redis
      ensures found.Some? ==> fresh(found.value) && found.value.Snapshot() == redis[id]
    {
      if id !in redis { return None; }
      var g := new Game(redis[id]);
      return Some(g);
    }
  }
}
