/**
 Thread keys replicated over namespaces: SpyLoader::pthreadKeyCreate and pthreadKeyDelete call the
 corresponding function of every namespace's libpthread.
 */
module SpyLoaders {
  import opened Options

  /** What pthread_key_create and pthread_key_delete of one libpthread return, with the table they
      leave. An `error` of 0 is success. */
  datatype Created<T> = Created(error: int, key: nat, table: T)
  datatype Deleted<T> = Deleted(error: int, table: T)

  /** One implementation of thread keys; every namespace loads a copy of the same library. */
  datatype Allocator<!T> = Allocator(create: (T, nat) -> Created<T>, delete: (T, nat) -> Deleted<T>)

  /** A call that fails changes nothing. */
  ghost predicate Atomic<T(!new)>(a: Allocator<T>) {
    && (forall t: T, d: nat :: a.create(t, d).error != 0 ==> a.create(t, d).table == t)
    && (forall t: T, k: nat :: a.delete(t, k).error != 0 ==> a.delete(t, k).table == t)
  }

  const INCOHERENT: int := -1

  /** The result of a call of SpyLoader: its error code, and the key if there is one. */
  datatype Result = Result(error: int, key: Option<nat>)

  datatype Op = Create(destructor: nat) | Delete(key: nat)

  // ---------------------------------------------------------------- one replica after another

  /** The loop of pthreadKeyCreate from namespace `i` on, the base namespace having handed out `key`. */
  function CreateFrom<T>(a: Allocator<T>, tables: seq<T>, destructor: nat, key: nat, i: nat): (r: (seq<T>, int))
    requires i <= |tables|
    ensures |r.0| == |tables|
    decreases |tables| - i
  {
    if i == |tables| then (tables, 0)
    else
      var c := a.create(tables[i], destructor);
      var tables' := tables[i := c.table];
      if c.error != 0 then (tables', c.error)
      else if c.key != key then (tables', INCOHERENT)
      else CreateFrom(a, tables', destructor, key, i + 1)
  }

  function DeleteFrom<T>(a: Allocator<T>, tables: seq<T>, key: nat, i: nat): (r: (seq<T>, int))
    requires i <= |tables|
    ensures |r.0| == |tables|
    decreases |tables| - i
  {
    if i == |tables| then (tables, 0)
    else
      var d := a.delete(tables[i], key);
      var tables' := tables[i := d.table];
      if d.error != 0 then (tables', d.error) else DeleteFrom(a, tables', key, i + 1)
  }

  /** One call on all replicas; the base namespace comes first. */
  function Step<T>(a: Allocator<T>, tables: seq<T>, op: Op): (r: (seq<T>, Result))
    requires |tables| > 0
    ensures |r.0| == |tables|
  {
    match op
    case Create(destructor) =>
      var c := a.create(tables[0], destructor);
      var tables' := tables[0 := c.table];
      if c.error != 0 then (tables', Result(c.error, None))
      else
        var (tables'', error) := CreateFrom(a, tables', destructor, c.key, 1);
        (tables'', Result(error, Some(c.key)))
    case Delete(key) =>
      var (tables', error) := DeleteFrom(a, tables, key, 0);
      (tables', Result(error, None))
  }

  /** The same call on a single table. */
  function StepOne<T>(a: Allocator<T>, table: T, op: Op): (T, Result) {
    match op
    case Create(destructor) =>
      var c := a.create(table, destructor);
      (c.table, Result(c.error, if c.error == 0 then Some(c.key) else None))
    case Delete(key) =>
      var d := a.delete(table, key);
      (d.table, Result(d.error, None))
  }

  /** The results of a sequence of calls, and the tables after it. */
  function Run<T>(a: Allocator<T>, tables: seq<T>, ops: seq<Op>): (r: (seq<T>, seq<Result>))
    requires |tables| > 0
    ensures |r.0| == |tables| && |r.1| == |ops|
    decreases |ops|
  {
    if ops == [] then (tables, [])
    else
      var (t, r) := Step(a, tables, ops[0]);
      var (t', rs) := Run(a, t, ops[1..]);
      (t', [r] + rs)
  }

  function RunOne<T>(a: Allocator<T>, table: T, ops: seq<Op>): (r: (T, seq<Result>))
    ensures |r.1| == |ops|
    decreases |ops|
  {
    if ops == [] then (table, [])
    else
      var (t, r) := StepOne(a, table, ops[0]);
      var (t', rs) := RunOne(a, t, ops[1..]);
      (t', [r] + rs)
  }

  // ---------------------------------------------------------------- replicas stay replicas

  /** `n` copies of `table`. */
  predicate Replicas<T(==)>(tables: seq<T>, table: T) {
    forall i | 0 <= i < |tables| :: tables[i] == table
  }

  /** The replicas before `i` have been called, and the others have not. */
  predicate Halfway<T(==)>(tables: seq<T>, after: T, before: T, i: nat) {
    i <= |tables| && (forall j | 0 <= j < i :: tables[j] == after) && (forall j | i <= j < |tables| :: tables[j] == before)
  }

  lemma {:induction false} CreateFromReplicas<T>(a: Allocator<T>, tables: seq<T>, table: T, destructor: nat, i: nat)
    requires var c := a.create(table, destructor); c.error == 0 && Halfway(tables, c.table, table, i)
    ensures var c := a.create(table, destructor);
            CreateFrom(a, tables, destructor, c.key, i) == (seq(|tables|, _ => c.table), 0)
    decreases |tables| - i
  {
    var c := a.create(table, destructor);
    if i < |tables| {
      CreateFromReplicas(a, tables[i := c.table], table, destructor, i + 1);
    } else {
      assert tables == seq(|tables|, _ => c.table);
    }
  }

  lemma {:induction false} DeleteFromReplicas<T>(a: Allocator<T>, tables: seq<T>, table: T, key: nat, i: nat)
    requires var d := a.delete(table, key); d.error == 0 && Halfway(tables, d.table, table, i)
    ensures var d := a.delete(table, key);
            DeleteFrom(a, tables, key, i) == (seq(|tables|, _ => d.table), 0)
    decreases |tables| - i
  {
    var d := a.delete(table, key);
    if i < |tables| {
      DeleteFromReplicas(a, tables[i := d.table], table, key, i + 1);
    } else {
      assert tables == seq(|tables|, _ => d.table);
    }
  }

  /** On equal replicas a call is the same call on one table, and none of its own error branches is
      reached. */
  lemma StepOnReplicas<T(!new)>(a: Allocator<T>, tables: seq<T>, table: T, op: Op)
    requires Atomic(a) && |tables| > 0 && Replicas(tables, table)
    ensures var (tables', r) := Step(a, tables, op);
            Replicas(tables', StepOne(a, table, op).0) && r == StepOne(a, table, op).1
    ensures Step(a, tables, op).1.error != 0 ==> Step(a, tables, op).0 == tables
  {
    match op
    case Create(destructor) =>
      var c := a.create(table, destructor);
      if c.error == 0 {
        CreateFromReplicas(a, tables[0 := c.table], table, destructor, 1);
      } else {
        assert tables[0 := c.table] == tables;
      }
    case Delete(key) =>
      var d := a.delete(table, key);
      if d.error == 0 {
        DeleteFromReplicas(a, tables, table, key, 0);
      } else {
        assert tables[0 := d.table] == tables;
      }
  }

  /** As long as all changes go through SpyLoader, the replicated tables stay equal and behave as a
      single table does: every call of every sequence returns what it would return there. */
  lemma {:induction false} ReplicasBehaveAsOne<T(!new)>(a: Allocator<T>, tables: seq<T>, table: T, ops: seq<Op>)
    requires Atomic(a) && |tables| > 0 && Replicas(tables, table)
    ensures Replicas(Run(a, tables, ops).0, RunOne(a, table, ops).0)
    ensures Run(a, tables, ops).1 == RunOne(a, table, ops).1
    decreases |ops|
  {
    if ops != [] {
      StepOnReplicas(a, tables, table, ops[0]);
      ReplicasBehaveAsOne(a, Step(a, tables, ops[0]).0, StepOne(a, table, ops[0]).0, ops[1..]);
    }
  }

  // ---------------------------------------------------------------- and if they are not

  predicate HandsOut<T>(a: Allocator<T>, table: T, destructor: nat, key: nat) {
    a.create(table, destructor).error == 0 && a.create(table, destructor).key == key
  }

  lemma {:induction false} CreateFromSucceedsExactlyIf<T>(a: Allocator<T>, tables: seq<T>, destructor: nat, key: nat, i: nat)
    requires i <= |tables|
    ensures var (tables', error) := CreateFrom(a, tables, destructor, key, i);
            && (error == 0 <==> forall j | i <= j < |tables| ::
                  HandsOut(a, tables[j], destructor, key))
            && (error == 0 ==> forall j | 0 <= j < |tables| ::
                  tables'[j] == if i <= j then a.create(tables[j], destructor).table else tables[j])
    decreases |tables| - i
  {
    if i < |tables| {
      var c := a.create(tables[i], destructor);
      var tables' := tables[i := c.table];
      assert forall j | 0 <= j < |tables| && j != i :: tables'[j] == tables[j];
      if HandsOut(a, tables[i], destructor, key) {
        CreateFromSucceedsExactlyIf(a, tables', destructor, key, i + 1);
      }
    }
  }

  /** Whatever the tables are, creating a key succeeds exactly when every namespace hands out the key
      that the base namespace does. */
  lemma CreateSucceedsExactlyIf<T>(a: Allocator<T>, tables: seq<T>, destructor: nat)
    requires |tables| > 0
    ensures var (tables', r) := Step(a, tables, Create(destructor));
            && (r.error == 0 <==> forall j | 0 <= j < |tables| ::
                  HandsOut(a, tables[j], destructor, a.create(tables[0], destructor).key))
            && (r.error == 0 ==> r.key == Some(a.create(tables[0], destructor).key)
                                 && forall j | 0 <= j < |tables| :: tables'[j] == a.create(tables[j], destructor).table)
  {
    var c := a.create(tables[0], destructor);
    var tables' := tables[0 := c.table];
    assert forall j | 0 < j < |tables| :: tables'[j] == tables[j];
    assert HandsOut(a, tables[0], destructor, c.key) <==> c.error == 0;
    if c.error == 0 {
      CreateFromSucceedsExactlyIf(a, tables', destructor, c.key, 1);
    }
  }

  predicate Frees<T>(a: Allocator<T>, table: T, key: nat) {
    a.delete(table, key).error == 0
  }

  /** The first namespace, from `i` on, that does not hand out the key. */
  function FirstRefusal<T>(a: Allocator<T>, tables: seq<T>, destructor: nat, key: nat, i: nat): (n: nat)
    requires i <= |tables|
    ensures i <= n <= |tables| && (n < |tables| ==> !HandsOut(a, tables[n], destructor, key))
    ensures forall j | i <= j < n :: HandsOut(a, tables[j], destructor, key)
    decreases |tables| - i
  {
    if i == |tables| || !HandsOut(a, tables[i], destructor, key) then i
    else FirstRefusal(a, tables, destructor, key, i + 1)
  }

  /** The first namespace, from `i` on, that does not free the key. */
  function FirstUnfreed<T>(a: Allocator<T>, tables: seq<T>, key: nat, i: nat): (n: nat)
    requires i <= |tables|
    ensures i <= n <= |tables| && (n < |tables| ==> !Frees(a, tables[n], key))
    ensures forall j | i <= j < n :: Frees(a, tables[j], key)
    decreases |tables| - i
  {
    if i == |tables| || !Frees(a, tables[i], key) then i else FirstUnfreed(a, tables, key, i + 1)
  }

  lemma {:induction false} CreateFromStops<T>(a: Allocator<T>, tables: seq<T>, destructor: nat, key: nat, i: nat)
    requires i <= |tables|
    ensures var (tables', error) := CreateFrom(a, tables, destructor, key, i);
            var n := FirstRefusal(a, tables, destructor, key, i);
            && error == (if n == |tables| then 0
                         else if a.create(tables[n], destructor).error != 0 then a.create(tables[n], destructor).error
                         else -1)
            && forall j | 0 <= j < |tables| ::
                 tables'[j] == if i <= j <= n then a.create(tables[j], destructor).table else tables[j]
    decreases |tables| - i
  {
    if i < |tables| && HandsOut(a, tables[i], destructor, key) {
      var tables' := tables[i := a.create(tables[i], destructor).table];
      assert forall j | 0 <= j < |tables| && j != i :: tables'[j] == tables[j];
      CreateFromStops(a, tables', destructor, key, i + 1);
      SameRefusal(a, tables, tables', destructor, key, i + 1);
    }
  }

  lemma {:induction false} SameRefusal<T>(a: Allocator<T>, tables: seq<T>, tables': seq<T>, destructor: nat, key: nat, i: nat)
    requires i <= |tables| == |tables'| && forall j | i <= j < |tables| :: tables'[j] == tables[j]
    ensures FirstRefusal(a, tables', destructor, key, i) == FirstRefusal(a, tables, destructor, key, i)
    decreases |tables| - i
  {
    if i < |tables| {
      SameRefusal(a, tables, tables', destructor, key, i + 1);
    }
  }

  lemma {:induction false} DeleteFromStops<T>(a: Allocator<T>, tables: seq<T>, key: nat, i: nat)
    requires i <= |tables|
    ensures var (tables', error) := DeleteFrom(a, tables, key, i);
            var n := FirstUnfreed(a, tables, key, i);
            && error == (if n == |tables| then 0 else a.delete(tables[n], key).error)
            && forall j | 0 <= j < |tables| ::
                 tables'[j] == if i <= j <= n then a.delete(tables[j], key).table else tables[j]
    decreases |tables| - i
  {
    if i < |tables| && Frees(a, tables[i], key) {
      var tables' := tables[i := a.delete(tables[i], key).table];
      assert forall j | 0 <= j < |tables| && j != i :: tables'[j] == tables[j];
      DeleteFromStops(a, tables', key, i + 1);
      SameUnfreed(a, tables, tables', key, i + 1);
    }
  }

  lemma {:induction false} SameUnfreed<T>(a: Allocator<T>, tables: seq<T>, tables': seq<T>, key: nat, i: nat)
    requires i <= |tables| == |tables'| && forall j | i <= j < |tables| :: tables'[j] == tables[j]
    ensures FirstUnfreed(a, tables', key, i) == FirstUnfreed(a, tables, key, i)
    decreases |tables| - i
  {
    if i < |tables| {
      SameUnfreed(a, tables, tables', key, i + 1);
    }
  }

  /** Whatever the tables are, a call goes from one namespace to the next, the base namespace first, up to
      and including the first that fails or disagrees, whose error it returns (-1 for a different key);
      the namespaces behind it are not called. */
  lemma CallStopsAtFirstFailure<T>(a: Allocator<T>, tables: seq<T>, op: Op)
    requires |tables| > 0
    ensures op.Create? ==>
              var (tables', r) := Step(a, tables, op);
              var base := a.create(tables[0], op.destructor);
              if base.error != 0 then
                r == Result(base.error, None) && tables' == tables[0 := base.table]
              else
                var n := FirstRefusal(a, tables, op.destructor, base.key, 1);
                && r.key == Some(base.key)
                && r.error == (if n == |tables| then 0
                               else if a.create(tables[n], op.destructor).error != 0 then a.create(tables[n], op.destructor).error
                               else -1)
                && forall j | 0 <= j < |tables| ::
                     tables'[j] == if j <= n then a.create(tables[j], op.destructor).table else tables[j]
    ensures op.Delete? ==>
              var (tables', r) := Step(a, tables, op);
              var n := FirstUnfreed(a, tables, op.key, 0);
              && r == Result(if n == |tables| then 0 else a.delete(tables[n], op.key).error, None)
              && forall j | 0 <= j < |tables| ::
                   tables'[j] == if j <= n then a.delete(tables[j], op.key).table else tables[j]
  {
    match op
    case Create(destructor) =>
      var base := a.create(tables[0], destructor);
      if base.error == 0 {
        var tables' := tables[0 := base.table];
        assert forall j | 0 < j < |tables| :: tables'[j] == tables[j];
        CreateFromStops(a, tables', destructor, base.key, 1);
        SameRefusal(a, tables, tables', destructor, base.key, 1);
      }
    case Delete(key) => DeleteFromStops(a, tables, key, 0);
  }

  /** A table that counts the keys it has handed out. */
  function Counter(): Allocator<nat> {
    Allocator(CountUp, Forget)
  }

  function CountUp(table: nat, destructor: nat): Created<nat> {
    Created(0, table, table + 1)
  }

  function Forget(table: nat, key: nat): Deleted<nat> {
    Deleted(0, table)
  }

  /** A key created behind SpyLoader's back is enough to make the next call fail, and to leave the key
      behind in the namespaces it got to. */
  lemma KeyBehindTheBackBreaksCreate(table: nat, destructor: nat)
    ensures Step(Counter(), [table, table + 1], Create(destructor))
            == ([table + 1, table + 2], Result(INCOHERENT, Some(table)))
  {
    assert [table, table + 1][0 := table + 1][1 := table + 2] == [table + 1, table + 2];
  }

  // ---------------------------------------------------------------- the object

  class SpyLoader<T> {
    const libpthread: Allocator<T>
    var tables: seq<T>      // one for each namespace, the base namespace first

    constructor (libpthread: Allocator<T>, base: T, spied: seq<T>)
      ensures this.libpthread == libpthread && tables == [base] + spied
    {
      this.libpthread, this.tables := libpthread, [base] + spied;
    }

    /** SpyLoader::pthreadKeyCreate. */
    method PthreadKeyCreate(destructor: nat) returns (res: int, key: Option<nat>)
      requires |tables| > 0
      modifies this
      ensures (tables, Result(res, key)) == Step(libpthread, old(tables), Create(destructor))
    {
      var created := libpthread.create(tables[0], destructor);
      tables := tables[0 := created.table];
      if created.error != 0 {
        return created.error, None;
      }
      key := Some(created.key);
      for idx := 1 to |tables|
        invariant |tables| == |old(tables)|
        invariant CreateFrom(libpthread, old(tables)[0 := created.table], destructor, created.key, 1)
                  == CreateFrom(libpthread, tables, destructor, created.key, idx)
      {
        var tmp := libpthread.create(tables[idx], destructor);
        tables := tables[idx := tmp.table];
        if tmp.error != 0 {
          return tmp.error, key;
        } else if tmp.key != created.key {
          return INCOHERENT, key;
        }
      }
      return 0, key;
    }

    /** SpyLoader::pthreadKeyDelete. */
    method PthreadKeyDelete(key: nat) returns (res: int)
      requires |tables| > 0
      modifies this
      ensures (tables, Result(res, None)) == Step(libpthread, old(tables), Delete(key))
    {
      for idx := 0 to |tables|
        invariant |tables| == |old(tables)|
        invariant DeleteFrom(libpthread, old(tables), key, 0) == DeleteFrom(libpthread, tables, key, idx)
      {
        var deleted := libpthread.delete(tables[idx], key);
        tables := tables[idx := deleted.table];
        if deleted.error != 0 {
          return deleted.error;
        }
      }
      return 0;
    }
  }
}
