/**
 * The path-keyed lock (internal/feishu/delivery_lock.go): lock objects are made on demand, counted,
 * and dropped from the table when the last client leaves. An object's identity is its index.
 */
module DeliveryLock {

  datatype Path = Path(text: string)

  /** A lock object: how many clients refer to it, and whether its token is in the channel. */
  datatype PathLock = PathLock(refs: int, token: bool)

  datatype Table = Table(locks: seq<PathLock>, byPath: map<Path, nat>)

  /** `Past` is a client that holds no token any more, or never got one, but is still counted. */
  datatype Client =
    Outside | Waiting(path: Path, lock: nat) | Inside(path: Path, lock: nat) | Past(path: Path, lock: nat)

  datatype System = System(table: Table, clients: seq<Client>)

  /** The table as the source keeps it; each method is one step under the table's mutex or on the channel. */
  class LockTable {
    var locks: seq<PathLock>
    var byPath: map<Path, nat>

    function State(): Table
      reads this
    {
      Table(locks, byPath)
    }

    constructor ()
      ensures State() == Table([], map[])
    {
      locks, byPath := [], map[];
    }

    method Enter(path: Path) returns (lock: nat)
      requires path in byPath ==> byPath[path] < |locks|
      modifies this
      ensures State() == Entered(old(State()), path) && lock == LockFor(old(State()), path)
    {
      if path in byPath {
        lock := byPath[path];
      } else {
        lock := |locks|;
        locks := locks + [PathLock(0, true)];
        byPath := byPath[path := lock];
      }
      locks := locks[lock := locks[lock].(refs := locks[lock].refs + 1)];
    }

    method TakeToken(lock: nat) returns (taken: bool)
      requires lock < |locks|
      modifies this`locks
      ensures taken <==> old(locks[lock].token)
      ensures State() == if taken then WithToken(old(State()), lock, false) else old(State())
    {
      taken := locks[lock].token;
      if taken {
        locks := locks[lock := locks[lock].(token := false)];
      }
    }

    method ReturnToken(lock: nat)
      requires lock < |locks| && !locks[lock].token
      modifies this`locks
      ensures State() == WithToken(old(State()), lock, true)
    {
      locks := locks[lock := locks[lock].(token := true)];
    }

    method Release(path: Path, lock: nat)
      requires lock < |locks|
      modifies this
      ensures State() == Released(old(State()), path, lock)
    {
      locks := locks[lock := locks[lock].(refs := locks[lock].refs - 1)];
      if locks[lock].refs == 0 {
        byPath := byPath - {path};
      }
    }
  }

  function LockFor(t: Table, path: Path): nat {
    if path in t.byPath then t.byPath[path] else |t.locks|
  }

  function Entered(t: Table, path: Path): Table
    requires path in t.byPath ==> t.byPath[path] < |t.locks|
  {
    var made := if path in t.byPath then t else Table(t.locks + [PathLock(0, true)], t.byPath[path := |t.locks|]);
    var lock := LockFor(t, path);
    made.(locks := made.locks[lock := made.locks[lock].(refs := made.locks[lock].refs + 1)])
  }

  function WithToken(t: Table, lock: nat, token: bool): Table
    requires lock < |t.locks|
  {
    t.(locks := t.locks[lock := t.locks[lock].(token := token)])
  }

  function Released(t: Table, path: Path, lock: nat): Table
    requires lock < |t.locks|
  {
    var refs := t.locks[lock].refs - 1;
    Table(t.locks[lock := t.locks[lock].(refs := refs)], if refs == 0 then t.byPath - {path} else t.byPath)
  }

  datatype Step = Enter(c: nat, path: Path) | Take(c: nat) | GiveUp(c: nat) | Return(c: nat) | Leave(c: nat)

  predicate Enabled(s: System, step: Step) {
    && step.c < |s.clients|
    && var client := s.clients[step.c];
       match step
       case Enter(_, path) => client.Outside? && (path in s.table.byPath ==> s.table.byPath[path] < |s.table.locks|)
       case Take(_) => client.Waiting? && client.lock < |s.table.locks| && s.table.locks[client.lock].token
       case GiveUp(_) => client.Waiting?
       case Return(_) => client.Inside? && client.lock < |s.table.locks|
       case Leave(_) => client.Past? && client.lock < |s.table.locks|
  }

  function Next(s: System, step: Step): System
    requires Enabled(s, step)
  {
    var client := s.clients[step.c];
    match step
    case Enter(c, path) => System(Entered(s.table, path), s.clients[c := Waiting(path, LockFor(s.table, path))])
    case Take(c) => System(WithToken(s.table, client.lock, false), s.clients[c := Inside(client.path, client.lock)])
    case GiveUp(c) => s.(clients := s.clients[c := Past(client.path, client.lock)])
    case Return(c) => System(WithToken(s.table, client.lock, true), s.clients[c := Past(client.path, client.lock)])
    case Leave(c) => System(Released(s.table, client.path, client.lock), s.clients[c := Outside])
  }

  /** Any number of clients, and any interleaving of their steps; a step that is not enabled is skipped. */
  function Run(clients: nat, steps: seq<Step>): System {
    if steps == [] then System(Table([], map[]), seq(clients, _ => Outside))
    else
      var before := Run(clients, steps[..|steps| - 1]);
      if Enabled(before, steps[|steps| - 1]) then Next(before, steps[|steps| - 1]) else before
  }

  predicate Uses(client: Client, lock: nat) {
    !client.Outside? && client.lock == lock
  }

  function Users(clients: seq<Client>, lock: nat): set<nat> {
    set c | 0 <= c < |clients| && Uses(clients[c], lock)
  }

  /** A client refers to the lock the table has for its path, */
  ghost predicate Current(s: System) {
    forall c :: 0 <= c < |s.clients| && !s.clients[c].Outside? ==>
      s.clients[c].path in s.table.byPath && s.table.byPath[s.clients[c].path] == s.clients[c].lock
  }

  /** the table lists counted locks only, */
  ghost predicate Listed(s: System) {
    forall p <- s.table.byPath :: s.table.byPath[p] < |s.table.locks| && s.table.locks[s.table.byPath[p]].refs > 0
  }

  /** and no lock for two paths. */
  ghost predicate Unshared(s: System) {
    forall p, q {:trigger s.table.byPath[p], s.table.byPath[q]} ::
      p in s.table.byPath && q in s.table.byPath && s.table.byPath[p] == s.table.byPath[q] ==> p == q
  }

  ghost predicate Counted(s: System) {
    forall l :: 0 <= l < |s.table.locks| ==> s.table.locks[l].refs == |Users(s.clients, l)|
  }

  /** A lock's token is in the channel unless a client is inside, */
  ghost predicate Taken(s: System) {
    && (forall c :: 0 <= c < |s.clients| && s.clients[c].Inside? && s.clients[c].lock < |s.table.locks| ==>
          !s.table.locks[s.clients[c].lock].token)
    && (forall l :: 0 <= l < |s.table.locks| && !s.table.locks[l].token ==>
          exists c :: 0 <= c < |s.clients| && s.clients[c].Inside? && s.clients[c].lock == l)
  }

  /** and then only one is. */
  ghost predicate Alone(s: System) {
    forall c, d ::
      (0 <= c < |s.clients| && 0 <= d < |s.clients| && s.clients[c].Inside? && s.clients[d].Inside? &&
       s.clients[c].lock == s.clients[d].lock) ==> c == d
  }

  ghost predicate Inv(s: System) {
    Current(s) && Listed(s) && Unshared(s) && Counted(s) && Taken(s) && Alone(s)
  }

  lemma UsersUpdate(clients: seq<Client>, c: nat, client: Client, lock: nat)
    requires c < |clients|
    ensures |Users(clients[c := client], lock)| ==
            |Users(clients, lock)| + (if Uses(client, lock) then 1 else 0) - (if Uses(clients[c], lock) then 1 else 0)
  {
    var others := Users(clients, lock) - {c};
    assert Users(clients, lock) == if Uses(clients[c], lock) then others + {c} else others;
    assert Users(clients[c := client], lock) == if Uses(client, lock) then others + {c} else others;
  }

  lemma PairSize(a: nat, b: nat, all: set<nat>)
    requires a != b && {a, b} <= all
    ensures |all| >= 2
  {
    assert all == {a, b} + (all - {a, b});
  }

  lemma RefsAt(s: System, step: Step, l: nat)
    requires Inv(s) && Enabled(s, step) && l < |s.table.locks|
    ensures Next(s, step).table.locks[l].refs ==
            s.table.locks[l].refs + (if Uses(Next(s, step).clients[step.c], l) then 1 else 0)
                                  - (if Uses(s.clients[step.c], l) then 1 else 0)
  {
  }

  lemma CountedAt(s: System, step: Step, l: nat)
    requires Inv(s) && Enabled(s, step) && l < |Next(s, step).table.locks|
    ensures Next(s, step).table.locks[l].refs == |Users(Next(s, step).clients, l)|
  {
    var t := Next(s, step);
    UsersUpdate(s.clients, step.c, t.clients[step.c], l);
    assert t.clients == s.clients[step.c := t.clients[step.c]];
    if l == |s.table.locks| {
      assert Users(s.clients, l) == {};
    } else {
      RefsAt(s, step, l);
    }
  }

  /** The last client out takes the entry of its own path with it, which nobody else needs. */
  lemma NobodyElse(s: System, step: Step, c: nat)
    requires Inv(s) && Enabled(s, step) && step.Leave? && c < |s.clients| && c != step.c && !s.clients[c].Outside?
    requires s.table.locks[s.clients[step.c].lock].refs == 1
    ensures s.clients[c].path != s.clients[step.c].path
  {
    var lock := s.clients[step.c].lock;
    if s.clients[c].path == s.clients[step.c].path {
      assert Uses(s.clients[c], lock);
      PairSize(c, step.c, Users(s.clients, lock));
    }
  }

  lemma CurrentAt(s: System, step: Step, c: nat)
    requires Inv(s) && Enabled(s, step) && c < |s.clients| && !Next(s, step).clients[c].Outside?
    ensures Next(s, step).clients[c].path in Next(s, step).table.byPath
    ensures Next(s, step).table.byPath[Next(s, step).clients[c].path] == Next(s, step).clients[c].lock
  {
    if step.Leave? && s.table.locks[s.clients[step.c].lock].refs == 1 {
      NobodyElse(s, step, c);
    }
  }

  lemma ListedAt(s: System, step: Step, p: Path)
    requires Inv(s) && Enabled(s, step) && p in Next(s, step).table.byPath
    ensures Next(s, step).table.byPath[p] < |Next(s, step).table.locks|
    ensures Next(s, step).table.locks[Next(s, step).table.byPath[p]].refs > 0
  {
    var t := Next(s, step);
    if step.Leave? {
      var client := s.clients[step.c];
      assert client.path in s.table.byPath && s.table.byPath[client.path] == client.lock;
      assert s.table.locks[s.table.byPath[p]].refs > 0;
    }
  }

  lemma UnsharedStep(s: System, step: Step)
    requires Inv(s) && Enabled(s, step)
    ensures Unshared(Next(s, step))
  {
  }

  lemma TokenAt(s: System, step: Step, l: nat)
    requires Inv(s) && Enabled(s, step) && l < |Next(s, step).table.locks| && !Next(s, step).table.locks[l].token
    ensures exists c ::
              0 <= c < |Next(s, step).clients| && Next(s, step).clients[c].Inside? && Next(s, step).clients[c].lock == l
  {
    var t := Next(s, step);
    if step.Take? && s.clients[step.c].lock == l {
      assert t.clients[step.c].Inside?;
    } else {
      var c :| 0 <= c < |s.clients| && s.clients[c].Inside? && s.clients[c].lock == l;
      assert t.clients[c] == s.clients[c];
    }
  }

  lemma InsideAt(s: System, step: Step, c: nat)
    requires Inv(s) && Enabled(s, step) && c < |s.clients| && Next(s, step).clients[c].Inside?
    ensures Next(s, step).clients[c].lock < |s.table.locks| &&
            !Next(s, step).table.locks[Next(s, step).clients[c].lock].token
  {
    var t := Next(s, step);
    if step.Return? && c != step.c {
      assert s.clients[c].lock != s.clients[step.c].lock;
    }
  }

  lemma AloneStep(s: System, step: Step)
    requires Inv(s) && Enabled(s, step)
    ensures Alone(Next(s, step))
  {
    var t := Next(s, step);
    if step.Take? {
      forall d | 0 <= d < |s.clients| && s.clients[d].Inside? ensures s.clients[d].lock != s.clients[step.c].lock {
      }
    }
  }

  lemma StepKeepsInv(s: System, step: Step)
    requires Inv(s) && Enabled(s, step)
    ensures Inv(Next(s, step))
  {
    var t := Next(s, step);
    forall l | 0 <= l < |t.table.locks| ensures t.table.locks[l].refs == |Users(t.clients, l)| {
      CountedAt(s, step, l);
    }
    forall c | 0 <= c < |t.clients| && !t.clients[c].Outside?
      ensures t.clients[c].path in t.table.byPath && t.table.byPath[t.clients[c].path] == t.clients[c].lock
    {
      CurrentAt(s, step, c);
    }
    forall p | p in t.table.byPath
      ensures t.table.byPath[p] < |t.table.locks| && t.table.locks[t.table.byPath[p]].refs > 0
    {
      ListedAt(s, step, p);
    }
    TakenStep(s, step);
    UnsharedStep(s, step);
    AloneStep(s, step);
  }

  lemma TakenStep(s: System, step: Step)
    requires Inv(s) && Enabled(s, step)
    ensures Taken(Next(s, step))
  {
    var t := Next(s, step);
    forall l | 0 <= l < |t.table.locks| && !t.table.locks[l].token
      ensures exists c :: 0 <= c < |t.clients| && t.clients[c].Inside? && t.clients[c].lock == l
    {
      TokenAt(s, step, l);
    }
    forall c | 0 <= c < |t.clients| && t.clients[c].Inside?
      ensures t.clients[c].lock < |s.table.locks| && !t.table.locks[t.clients[c].lock].token
    {
      InsideAt(s, step, c);
    }
  }

  lemma {:induction false} InvHolds(clients: nat, steps: seq<Step>)
    ensures Inv(Run(clients, steps))
  {
    if steps != [] {
      InvHolds(clients, steps[..|steps| - 1]);
      var before := Run(clients, steps[..|steps| - 1]);
      if Enabled(before, steps[|steps| - 1]) {
        StepKeepsInv(before, steps[|steps| - 1]);
      }
    }
  }

  /** In every interleaving at most one client is inside per path, though lock objects come and go. */
  lemma MutualExclusion(s: System, clients: nat, steps: seq<Step>, c: nat, d: nat)
    requires s == Run(clients, steps) && c < |s.clients| && d < |s.clients|
    requires s.clients[c].Inside? && s.clients[d].Inside? && s.clients[c].path == s.clients[d].path
    ensures c == d
  {
    InvHolds(clients, steps);
  }

  /** Clients of different paths never share a lock, so they never wait for each other. */
  lemma PathsIndependent(s: System, clients: nat, steps: seq<Step>, c: nat, d: nat)
    requires s == Run(clients, steps) && c < |s.clients| && d < |s.clients|
    requires !s.clients[c].Outside? && !s.clients[d].Outside?
    ensures s.clients[c].lock == s.clients[d].lock <==> s.clients[c].path == s.clients[d].path
  {
    InvHolds(clients, steps);
  }

  /** The table lists a path exactly while some client is concerned with it: no entry leaks. */
  lemma NoLeak(s: System, clients: nat, steps: seq<Step>, path: Path)
    requires s == Run(clients, steps)
    ensures path in s.table.byPath <==>
            exists c :: 0 <= c < |s.clients| && !s.clients[c].Outside? && s.clients[c].path == path
  {
    InvHolds(clients, steps);
    if path in s.table.byPath {
      var lock := s.table.byPath[path];
      assert Users(s.clients, lock) != {};
      var c :| c in Users(s.clients, lock);
      assert s.clients[c].path == path;
    }
  }

  /** A waiting client can go in unless another one is inside on its path; putting the token back never blocks. */
  lemma WaitingIsForSomeone(s: System, clients: nat, steps: seq<Step>, c: nat)
    requires s == Run(clients, steps) && c < |s.clients|
    ensures s.clients[c].Waiting? ==>
              (Enabled(s, Take(c)) <==>
               !exists d :: 0 <= d < |s.clients| && s.clients[d].Inside? && s.clients[d].path == s.clients[c].path)
    ensures s.clients[c].Inside? ==> s.clients[c].lock < |s.table.locks| && !s.table.locks[s.clients[c].lock].token
  {
    InvHolds(clients, steps);
    if s.clients[c].Waiting? && !s.table.locks[s.clients[c].lock].token {
      var d :| 0 <= d < |s.clients| && s.clients[d].Inside? && s.clients[d].lock == s.clients[c].lock;
      assert s.clients[d].path == s.clients[c].path;
    }
  }
}
