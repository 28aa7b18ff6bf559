/**
 The DuckDB table cache: one table per remote file, named after the hashes of the
 file's bucket and prefix. The existence check and the creation are separate
 queries, so requests interleave between them. The hash function is a parameter.
 */
module DuckDb {
  import opened Wrappers
  import opened Decimal
  import opened Tokens

  /** A remote file. */
  datatype Source = Source(bucket: string, prefix: string)

  type Hash = string -> nat

  /** A row as JSON. */
  type Json = string

  /** What the database selects from a file under a where clause; None: the clause is refused. */
  type Engine = (Source, string) -> Option<seq<Json>>

  function TableName(hash: Hash, f: Source): string {
    "sravz_" + Print(hash(f.bucket)) + "_" + Print(hash(f.prefix))
  }

  predicate Collide(hash: Hash, f: Source, g: Source) {
    hash(f.bucket) == hash(g.bucket) && hash(f.prefix) == hash(g.prefix)
  }

  lemma SeparatorIsUnique(a: string, b: string, c: string, d: string)
    requires '_' !in a && '_' !in b
    requires a + "_" + c == b + "_" + d
    ensures a == b && c == d
  {
    FindAfterCleanText(a, '_', c);
    FindAfterCleanText(b, '_', d);
    var s := a + "_" + c;
    assert s[..|a|] == a && s[..|b|] == b;
    assert s[|a| + 1..] == c && s[|b| + 1..] == d;
  }

  /** The name is injective in the two hashes. */
  lemma NameTellsTheHashes(hash: Hash, f: Source, g: Source)
    ensures TableName(hash, f) == TableName(hash, g) <==> Collide(hash, f, g)
  {
    var a, b := Print(hash(f.bucket)), Print(hash(g.bucket));
    var c, d := Print(hash(f.prefix)), Print(hash(g.prefix));
    if TableName(hash, f) == TableName(hash, g) {
      assert TableName(hash, f)[6..] == a + "_" + c;
      assert TableName(hash, g)[6..] == b + "_" + d;
      SeparatorIsUnique(a, b, c, d);
      ReadPrint(hash(f.bucket));
      ReadPrint(hash(g.bucket));
      ReadPrint(hash(f.prefix));
      ReadPrint(hash(g.prefix));
    }
  }

  // ---------- one client alone ----------

  /** The connection; `tables` maps a table to the file it was created from. */
  class DuckDBClient {
    var tables: map<string, Source>

    constructor ()
      ensures tables == map[]
    {
      tables := map[];
    }

    method TableExists(name: string) returns (found: bool)
      ensures found <==> name in tables
    {
      found := name in tables;
    }

    /** CREATE TABLE: `reachable` says whether the file could be read; an existing name is an error. */
    method CreateTable(name: string, f: Source, reachable: bool)
      modifies this
      ensures tables == AfterCreate(old(tables), name, f, reachable)
    {
      if reachable && name !in tables {
        tables := tables[name := f];
      }
    }

    method CreateTableIfDoesNotExists(name: string, f: Source, reachable: bool)
      modifies this
      ensures tables == AfterCreate(old(tables), name, f, reachable)
      ensures name in old(tables) || !reachable ==> tables == old(tables)
      ensures name !in old(tables) && reachable ==> tables == old(tables)[name := f]
    {
      var found := TableExists(name);
      if !found {
        CreateTable(name, f, reachable);
        var created := TableExists(name);
      }
    }

    /** The database's answer to the query: the rows of a file that meet the clause. The query on a missing table fails. */
    method Query(name: string, clause: string, engine: Engine) returns (result: Option<seq<Json>>)
      ensures result == match Lookup(tables, name) case None => None case Some(f) => engine(f, clause)
    {
      result := if name in tables then engine(tables[name], clause) else None;
    }

    /** The rows that meet the clause, of the file in the table of this file's name, in the order of the result. */
    method SelectFromS3ParquetFile(hash: Hash, f: Source, clause: string, reachable: bool, engine: Engine)
      returns (rows: Option<seq<Json>>)
      modifies this
      ensures tables == AfterCreate(old(tables), TableName(hash, f), f, reachable)
      ensures rows == match Lookup(tables, TableName(hash, f)) case None => None case Some(g) => engine(g, clause)
    {
      var name := TableName(hash, f);
      CreateTableIfDoesNotExists(name, f, reachable);
      var result := Query(name, clause, engine);
      if result.None? {
        return None;
      }
      var objects: seq<Json> := [];
      for i := 0 to |result.value|
        invariant objects == result.value[..i]
      {
        objects := objects + [result.value[i]];
      }
      assert result.value[..|result.value|] == result.value;
      rows := Some(objects);
    }
  }

  function AfterCreate(tables: map<string, Source>, name: string, f: Source, reachable: bool): map<string, Source> {
    if reachable && name !in tables then tables[name := f] else tables
  }

  function Lookup(tables: map<string, Source>, name: string): Option<Source> {
    if name in tables then Some(tables[name]) else None
  }

  // ---------- requests interleaved ----------

  /** Asked: before the check. Checked: the answer it saw. Created: past CreateTableIfDoesNotExists. */
  datatype Request = Asked(f: Source) | Checked(f: Source, found: bool) | Created(f: Source)

  datatype Reply = Reply(asked: Source, rows: Option<Source>)

  datatype Service = Service(tables: map<string, Source>, requests: map<nat, Request>, replies: seq<Reply>)

  datatype Action = Ask(id: nat, f: Source) | Check(id: nat) | Create(id: nat, reachable: bool) | Select(id: nat)

  function Next(hash: Hash, s: Service, a: Action): Option<Service> {
    match a
    case Ask(id, f) =>
      if id in s.requests then None else Some(s.(requests := s.requests[id := Asked(f)]))
    case Check(id) =>
      if id !in s.requests || !s.requests[id].Asked? then None
      else
        var f := s.requests[id].f;
        Some(s.(requests := s.requests[id := Checked(f, TableName(hash, f) in s.tables)]))
    case Create(id, reachable) =>
      if id !in s.requests || !s.requests[id].Checked? then None
      else
        var f := s.requests[id].f;
        Some(s.(requests := s.requests[id := Created(f)],
                tables := if s.requests[id].found then s.tables
                          else AfterCreate(s.tables, TableName(hash, f), f, reachable)))
    case Select(id) =>
      if id !in s.requests || !s.requests[id].Created? then None
      else
        var f := s.requests[id].f;
        Some(s.(replies := s.replies + [Reply(f, Lookup(s.tables, TableName(hash, f)))]))
  }

  function Exec(hash: Hash, s: Service, actions: seq<Action>): Option<Service> {
    if actions == [] then Some(s)
    else
      match Exec(hash, s, actions[..|actions| - 1])
      case None => None
      case Some(t) => Next(hash, t, actions[|actions| - 1])
  }

  const START: Service := Service(map[], map[], [])

  /** Each table carries its own file's name, and each reply is of a file with the name asked for. */
  ghost predicate Inv(hash: Hash, s: Service) {
    && (forall name :: name in s.tables ==> TableName(hash, s.tables[name]) == name)
    && (forall i :: 0 <= i < |s.replies| && s.replies[i].rows.Some? ==>
         TableName(hash, s.replies[i].rows.value) == TableName(hash, s.replies[i].asked))
  }

  lemma NextKeepsInv(hash: Hash, s: Service, a: Action, t: Service)
    requires Inv(hash, s) && Next(hash, s, a) == Some(t)
    ensures Inv(hash, t)
    ensures forall name :: name in s.tables ==> name in t.tables && t.tables[name] == s.tables[name]
  {
  }

  lemma {:induction false} RunKeepsInv(hash: Hash, s: Service, actions: seq<Action>, t: Service)
    requires Inv(hash, s) && Exec(hash, s, actions) == Some(t)
    ensures Inv(hash, t)
    ensures forall name :: name in s.tables ==> name in t.tables && t.tables[name] == s.tables[name]
  {
    if actions != [] {
      var before := Exec(hash, s, actions[..|actions| - 1]).value;
      RunKeepsInv(hash, s, actions[..|actions| - 1], before);
      NextKeepsInv(hash, before, actions[|actions| - 1], t);
    }
  }

  /**
   Over every interleaving: a table holds a file of its own name and is never
   replaced, and a reply is of the file asked for or of one whose two hashes
   collide with it.
   */
  lemma CacheAgrees(hash: Hash, actions: seq<Action>, s: Service, more: seq<Action>, t: Service)
    requires Exec(hash, START, actions) == Some(s) && Exec(hash, s, more) == Some(t)
    ensures forall name :: name in s.tables ==> TableName(hash, s.tables[name]) == name
    ensures forall name :: name in s.tables ==> name in t.tables && t.tables[name] == s.tables[name]
    ensures forall r :: r in t.replies && r.rows.Some? ==> Collide(hash, r.rows.value, r.asked)
  {
    RunKeepsInv(hash, START, actions, s);
    RunKeepsInv(hash, s, more, t);
    forall r | r in t.replies && r.rows.Some?
      ensures Collide(hash, r.rows.value, r.asked)
    {
      NameTellsTheHashes(hash, r.rows.value, r.asked);
    }
  }

  /** Every request of the run is for one of the files. */
  ghost predicate AsksFor(actions: seq<Action>, files: set<Source>) {
    forall a :: a in actions && a.Ask? ==> a.f in files
  }

  /** Every answer to requests for these files is of the file asked for, or a failed query. */
  ghost predicate Serves(hash: Hash, files: set<Source>) {
    forall actions, s, r ::
      (AsksFor(actions, files) && Exec(hash, START, actions) == Some(s) && r in s.replies && r.rows.Some?)
      ==> r.rows.value == r.asked
  }

  /** Only files that were asked for are in tables, requests and replies. */
  ghost predicate Known(s: Service, files: set<Source>) {
    && (forall name :: name in s.tables ==> s.tables[name] in files)
    && (forall id :: id in s.requests ==> s.requests[id].f in files)
    && (forall r :: r in s.replies ==> r.asked in files && (r.rows.Some? ==> r.rows.value in files))
  }

  lemma {:induction false} OnlyAskedFilesAreKnown(hash: Hash, actions: seq<Action>, s: Service, files: set<Source>)
    requires AsksFor(actions, files) && Exec(hash, START, actions) == Some(s)
    ensures Known(s, files)
  {
    if actions != [] {
      var before := Exec(hash, START, actions[..|actions| - 1]).value;
      OnlyAskedFilesAreKnown(hash, actions[..|actions| - 1], before, files);
      assert actions[|actions| - 1] in actions;
    }
  }

  /** The cache always answers with the file asked for, over requests for a set of files, exactly when no two of them collide. */
  lemma ServesExactlyWithoutCollisions(hash: Hash, files: set<Source>)
    ensures Serves(hash, files) <==> forall f, g :: f in files && g in files && Collide(hash, f, g) ==> f == g
  {
    if forall f, g :: f in files && g in files && Collide(hash, f, g) ==> f == g {
      forall actions, s, r | AsksFor(actions, files) && Exec(hash, START, actions) == Some(s) && r in s.replies && r.rows.Some?
        ensures r.rows.value == r.asked
      {
        OnlyAskedFilesAreKnown(hash, actions, s, files);
        CacheAgrees(hash, actions, s, [], s);
      }
    } else {
      var f, g :| f in files && g in files && Collide(hash, f, g) && f != g;
      var actions, s := CollidingRun(hash, f, g);
      assert Reply(g, Some(f)) in s.replies;
    }
  }

  /** What a request answers when nothing else runs: the table of the name if there is one, else the file if it can be read. */
  lemma RequestAlone(hash: Hash, s: Service, id: nat, f: Source, reachable: bool) returns (t: Service)
    requires id !in s.requests
    ensures Exec(hash, s, [] + [Ask(id, f)] + [Check(id)] + [Create(id, reachable)] + [Select(id)]) == Some(t)
    ensures |t.replies| == |s.replies| + 1
    ensures var name := TableName(hash, f);
      var reply := t.replies[|s.replies|];
      && reply.asked == f
      && (name in s.tables ==> reply.rows == Some(s.tables[name]) && t.tables == s.tables)
      && (name !in s.tables && reachable ==> reply.rows == Some(f) && t.tables == s.tables[name := f])
      && (name !in s.tables && !reachable ==> reply.rows == None && t.tables == s.tables)
  {
    var a := [] + [Ask(id, f)];
    ExecStep(hash, s, [], Ask(id, f));
    ExecStep(hash, s, a, Check(id));
    ExecStep(hash, s, a + [Check(id)], Create(id, reachable));
    ExecStep(hash, s, a + [Check(id)] + [Create(id, reachable)], Select(id));
    t := Exec(hash, s, a + [Check(id)] + [Create(id, reachable)] + [Select(id)]).value;
  }

  lemma ExecStep(hash: Hash, s: Service, actions: seq<Action>, a: Action)
    ensures Exec(hash, s, actions + [a])
         == match Exec(hash, s, actions) case None => None case Some(t) => Next(hash, t, a)
  {
    assert (actions + [a])[..|actions + [a]| - 1] == actions;
  }

  /** A colliding file is answered with the rows of the one that came first. */
  lemma CollidingRun(hash: Hash, f: Source, g: Source) returns (actions: seq<Action>, s: Service)
    requires Collide(hash, f, g)
    ensures Exec(hash, START, actions) == Some(s) && Reply(g, Some(f)) in s.replies && AsksFor(actions, {f, g})
  {
    NameTellsTheHashes(hash, f, g);
    var name := TableName(hash, f);
    ExecStep(hash, START, [], Ask(0, f));
    var a := [] + [Ask(0, f)];
    ExecStep(hash, START, a, Check(0));
    var b := a + [Check(0)];
    ExecStep(hash, START, b, Create(0, true));
    var c := b + [Create(0, true)];
    ExecStep(hash, START, c, Ask(1, g));
    var d := c + [Ask(1, g)];
    ExecStep(hash, START, d, Check(1));
    var e := d + [Check(1)];
    ExecStep(hash, START, e, Create(1, true));
    var h := e + [Create(1, true)];
    ExecStep(hash, START, h, Select(1));
    actions := h + [Select(1)];
    s := Exec(hash, START, actions).value;
    assert s.replies[|s.replies| - 1] == Reply(g, Some(f));
  }
}
