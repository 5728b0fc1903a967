/**
 * The part of a Redis server the datastore adapter relies on: string, hash
 * and geo-set values under string keys, the five commands the adapter
 * queues, and a transaction pipeline that queues commands and `execute`s
 * them in order.
 */
module RedisStore {
  import opened Wrappers
  import opened JsonValue

  /** `json.dumps` of a document; the wrapper makes serialisation injective. */
  datatype Payload = Serialized(doc: Json)

  function Serialize(j: Json): (p: Payload)
    ensures p.doc == j
  {
    Serialized(j)
  }

  /** A geo-set member's position, longitude first as GEOADD takes it. */
  datatype Point = Point(lng: Json, lat: Json)

  datatype Value =
    | Str(payload: Payload)
    | Hash(fields: map<string, Payload>)
    | Geo(members: map<string, Point>)

  type Db = map<string, Value>

  datatype Command =
    | Set(key: string, payload: Payload)
    | HSet(key: string, field: string, payload: Payload)
    | GeoAdd(key: string, point: Point, member: string)
    | Delete(keys: seq<string>)
    | Rename(src: string, dst: string)

  /** The keys a command names. */
  function CommandKeys(c: Command): set<string>
  {
    match c
    case Set(k, _) => {k}
    case HSet(k, _, _) => {k}
    case GeoAdd(k, _, _) => {k}
    case Delete(ks) => set k | k in ks
    case Rename(s, d) => {s, d}
  }

  /** `k` is absent from both or holds the same value in both. */
  ghost predicate SameAt(d1: Db, d2: Db, k: string)
  {
    (k in d1 <==> k in d2) && (k in d1 ==> d1[k] == d2[k])
  }

  /** No command of `cmds` names `k`. */
  ghost predicate Untouched(cmds: seq<Command>, k: string)
  {
    forall i :: 0 <= i < |cmds| ==> k !in CommandKeys(cmds[i])
  }

  /**
   * One command against the data set; None is an error reply. HSET and GEOADD
   * on a key of another type reply WRONGTYPE, RENAME of a missing key replies
   * "no such key"; SET and DEL always succeed. GEOADD takes every position
   * as valid: coordinates are opaque here, so Redis's range check on them is
   * not modelled. A command touches only the keys it names.
   */
  function Apply(db: Db, c: Command): (r: Option<Db>)
    ensures r.None? <==> match c
                         case HSet(k, _, _) => k in db && !db[k].Hash?
                         case GeoAdd(k, _, _) => k in db && !db[k].Geo?
                         case Rename(s, _) => s !in db
                         case _ => false
    ensures r.Some? ==> forall k :: k !in CommandKeys(c) ==> SameAt(r.value, db, k)
  {
    match c
    case Set(k, p) => Some(db[k := Str(p)])
    case HSet(k, f, p) =>
      if k !in db then Some(db[k := Hash(map[f := p])])
      else if db[k].Hash? then Some(db[k := Hash(db[k].fields[f := p])])
      else None
    case GeoAdd(k, pt, m) =>
      if k !in db then Some(db[k := Geo(map[m := pt])])
      else if db[k].Geo? then Some(db[k := Geo(db[k].members[m := pt])])
      else None
    case Delete(ks) => Some(db - (set k | k in ks))
    case Rename(s, d) => if s !in db then None else Some((db - {s})[d := db[s]])
  }

  /**
   * A MULTI/EXEC transaction that reached the server: every command runs in
   * order, a failing one has no effect and does not stop the others (there is
   * no rollback), and the outcome is false when any of them failed. Keys no
   * command names are left as they were.
   */
  function RunAll(db: Db, cmds: seq<Command>): (r: (Db, bool))
    ensures forall k :: Untouched(cmds, k) ==> SameAt(r.0, db, k)
    ensures cmds == [] ==> r == (db, true)
  {
    if cmds == [] then (db, true)
    else
      var front := cmds[..|cmds| - 1];
      var (d, ok) := RunAll(db, front);
      assert forall k :: Untouched(cmds, k) ==> Untouched(front, k);
      match Apply(d, cmds[|cmds| - 1])
      case None => (d, false)
      case Some(d2) => (d2, ok)
  }

  /** Running two command lists back to back is running their concatenation. */
  lemma {:induction false} RunAllAppend(db: Db, a: seq<Command>, b: seq<Command>)
    ensures RunAll(db, a + b)
         == (RunAll(RunAll(db, a).0, b).0, RunAll(db, a).1 && RunAll(RunAll(db, a).0, b).1)
    decreases |b|
  {
    if b == [] {
      assert a + b == a;
    } else {
      var front := b[..|b| - 1];
      RunAllAppend(db, a, front);
      assert (a + b)[..|a + b| - 1] == a + front;
      assert (a + b)[|a + b| - 1] == b[|b| - 1];
    }
  }

  /** `RunAllAppend` for transactions whose outcomes are already known. */
  lemma RunAllThen(db: Db, a: seq<Command>, b: seq<Command>, mid: Db, okA: bool, last: Db, okB: bool)
    requires RunAll(db, a) == (mid, okA) && RunAll(mid, b) == (last, okB)
    ensures RunAll(db, a + b) == (last, okA && okB)
  {
    RunAllAppend(db, a, b);
  }

  /** A succeeding command followed by two transactions whose outcomes are known. */
  lemma RunAllThree(db: Db, c: Command, a: seq<Command>, b: seq<Command>,
                    first: Db, mid: Db, okA: bool, last: Db, okB: bool)
    requires Apply(db, c) == Some(first)
    requires RunAll(first, a) == (mid, okA) && RunAll(mid, b) == (last, okB)
    ensures RunAll(db, [c] + a + b) == (last, okA && okB)
  {
    RunOne(db, c);
    RunAllThen(db, [c], a, first, true, mid, okA);
    RunAllThen(db, [c] + a, b, mid, okA, last, okB);
  }

  /** One more command at the end of a transaction. */
  lemma RunAllSnoc(db: Db, cmds: seq<Command>, c: Command)
    ensures RunAll(db, cmds + [c])
         == match Apply(RunAll(db, cmds).0, c)
            case None => (RunAll(db, cmds).0, false)
            case Some(d) => (d, RunAll(db, cmds).1)
  {
    assert (cmds + [c])[..|cmds|] == cmds;
  }

  /** RENAME's effect when `src` exists; with no `src` nothing moves. */
  function Move(db: Db, src: string, dst: string): (r: Db)
    ensures src in db && src != dst ==> src !in r && dst in r && r[dst] == db[src]
    ensures src !in db ==> r == db
    ensures forall k :: k != src && k != dst ==> SameAt(r, db, k)
  {
    if src in db then (db - {src})[dst := db[src]] else db
  }

  /** A RENAME at the end of a transaction fails exactly when its source is missing. */
  lemma RunAllRename(db: Db, cmds: seq<Command>, src: string, dst: string)
    ensures RunAll(db, cmds + [Rename(src, dst)])
         == (Move(RunAll(db, cmds).0, src, dst), RunAll(db, cmds).1 && src in RunAll(db, cmds).0)
  {
    RunAllSnoc(db, cmds, Rename(src, dst));
  }

  /** A DEL followed by three RENAMEs, each applied to what the previous command left. */
  lemma RunDeleteRenames(db: Db, ks: seq<string>, s1: string, d1: string, s2: string, d2: string, s3: string, d3: string)
    ensures var c0 := db - (set k | k in ks);
            var c1 := Move(c0, s1, d1);
            var c2 := Move(c1, s2, d2);
            RunAll(db, [Delete(ks), Rename(s1, d1), Rename(s2, d2), Rename(s3, d3)])
              == (Move(c2, s3, d3), s1 in c0 && s2 in c1 && s3 in c2)
  {
    var del := [Delete(ks)];
    RunOne(db, Delete(ks));
    RunAllRename(db, del, s1, d1);
    RunAllRename(db, del + [Rename(s1, d1)], s2, d2);
    RunAllRename(db, del + [Rename(s1, d1)] + [Rename(s2, d2)], s3, d3);
    assert del + [Rename(s1, d1)] + [Rename(s2, d2)] + [Rename(s3, d3)]
        == [Delete(ks), Rename(s1, d1), Rename(s2, d2), Rename(s3, d3)];
  }

  /** A single command run as a transaction. */
  lemma RunOne(db: Db, c: Command)
    ensures RunAll(db, [c]) == if Apply(db, c).Some? then (Apply(db, c).value, true) else (db, false)
  {
    var none: seq<Command> := [];
    assert [c][..0] == none;
  }

  /** `r.pipeline()`: the commands queued so far, in order. */
  class Pipeline {
    var commands: seq<Command>

    constructor ()
      ensures commands == []
    {
      commands := [];
    }

    /** `pipe.set`, `pipe.hset`, `pipe.geoadd`, `pipe.delete`, `pipe.rename` */
    method Queue(c: Command)
      modifies this
      ensures commands == old(commands) + [c]
    {
      commands := commands + [c];
    }
  }

  /** The connected client and the data set behind it. */
  class Redis {
    var db: Db

    constructor (initial: Db)
      ensures db == initial
    {
      db := initial;
    }

    /**
     * `pipe.execute(raise_on_error=True)`. `reached` says whether the
     * transaction got to the server; one that did not changes nothing. The
     * result is false exactly when `execute` raises.
     */
    method Execute(pipe: Pipeline, reached: bool) returns (ok: bool)
      modifies this
      ensures reached ==> (db, ok) == RunAll(old(db), pipe.commands)
      ensures !reached ==> db == old(db) && !ok
    {
      if !reached {
        return false;
      }
      ok := true;
      ghost var start := db;
      for i := 0 to |pipe.commands|
        invariant (db, ok) == RunAll(start, pipe.commands[..i])
      {
        assert pipe.commands[..i + 1][..i] == pipe.commands[..i];
        var reply := Apply(db, pipe.commands[i]);
        if reply.None? {
          ok := false;
        } else {
          db := reply.value;
        }
      }
      assert pipe.commands[..|pipe.commands|] == pipe.commands;
    }
  }
}
