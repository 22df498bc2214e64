// The locking discipline of JSONStorage (db.go). Each mutating method takes
// j.mu, defers its release, updates the tables and then calls persist, which
// takes j.mu again. A Go sync.Mutex is not reentrant: Lock on a mutex the
// same goroutine holds waits for an Unlock that never comes. This module runs
// the sequence of mutex operations one call performs, with persist inlined,
// and shows that as written every mutating call blocks inside persist, while
// a persist that relies on the caller's lock completes with every table
// access and file write made under the lock.
module Locking {

  /** What one call does, in order; deferred unlocks appear where they run. */
  datatype Op =
    | Lock         // j.mu.Lock()
    | Unlock       // a deferred j.mu.Unlock()
    | Touch        // a read or write of j.Data
    | WriteFile    // json.MarshalIndent(j.Data) and os.WriteFile
    | CallPersist  // j.persist()

  datatype Outcome =
    | Completed(held: bool)  // returned, holding j.mu or not
    | Blocked                // Lock while this goroutine holds j.mu: waits forever
    | Unguarded              // touched j.Data or wrote the file without holding j.mu
    | UnlockOfUnlocked       // Go's "sync: unlock of unlocked mutex" panic

  /** Runs calls-free operations from one goroutine, starting with the mutex held or not. */
  function Run(ops: seq<Op>, held: bool): Outcome
    requires CallPersist !in ops
    decreases |ops|
  {
    if ops == [] then Completed(held)
    else
      match ops[0]
      case Lock => if held then Blocked else Run(ops[1..], true)
      case Unlock => if held then Run(ops[1..], false) else UnlockOfUnlocked
      case Touch => if held then Run(ops[1..], held) else Unguarded
      case WriteFile => if held then Run(ops[1..], held) else Unguarded
  }

  /** Inlines persist's body at each call. */
  function Expand(ops: seq<Op>, persist: seq<Op>): (r: seq<Op>)
    requires CallPersist !in persist
    ensures CallPersist !in r
    decreases |ops|
  {
    if ops == [] then []
    else (if ops[0] == CallPersist then persist else [ops[0]]) + Expand(ops[1..], persist)
  }

  /** The shape of every mutating JSONStorage method: lock, defer unlock, update, persist. */
  function Mutator(update: seq<Op>): seq<Op> {
    [Lock] + update + [CallPersist, Unlock]
  }

  predicate AllTouch(ops: seq<Op>) {
    forall i :: 0 <= i < |ops| ==> ops[i] == Touch
  }

  /** persist as written: it takes the lock itself. */
  function PersistAsWritten(): seq<Op> {
    [Lock, WriteFile, Unlock]
  }

  /** persist as evidently intended: it runs under the caller's lock. */
  function PersistCorrected(): seq<Op> {
    [WriteFile]
  }

  // ---------------------------------------------------------------- lemmas

  lemma {:induction false} ExpandAppend(a: seq<Op>, b: seq<Op>, persist: seq<Op>)
    requires CallPersist !in persist
    ensures Expand(a + b, persist) == Expand(a, persist) + Expand(b, persist)
    decreases |a|
  {
    if a == [] {
      assert a + b == b;
    } else {
      assert (a + b)[0] == a[0] && (a + b)[1..] == a[1..] + b;
      ExpandAppend(a[1..], b, persist);
    }
  }

  lemma {:induction false} ExpandTouches(update: seq<Op>, persist: seq<Op>)
    requires CallPersist !in persist && AllTouch(update)
    ensures Expand(update, persist) == update
    decreases |update|
  {
    if update != [] {
      ExpandTouches(update[1..], persist);
    }
  }

  /** Table accesses under the lock leave the run where it was. */
  lemma {:induction false} RunAfterTouches(update: seq<Op>, rest: seq<Op>)
    requires AllTouch(update) && CallPersist !in rest
    ensures CallPersist !in update + rest
    ensures Run(update + rest, true) == Run(rest, true)
    decreases |update|
  {
    assert forall i :: 0 <= i < |update + rest| ==> (update + rest)[i] != CallPersist;
    if update == [] {
      assert update + rest == rest;
    } else {
      assert (update + rest)[0] == Touch && (update + rest)[1..] == update[1..] + rest;
      RunAfterTouches(update[1..], rest);
    }
  }

  lemma ExpandMutator(update: seq<Op>, persist: seq<Op>)
    requires CallPersist !in persist && AllTouch(update)
    ensures Expand(Mutator(update), persist) == [Lock] + update + persist + [Unlock]
  {
    ExpandAppend([Lock] + update, [CallPersist, Unlock], persist);
    ExpandAppend([Lock], update, persist);
    ExpandTouches(update, persist);
    assert Expand([CallPersist, Unlock], persist) == persist + Expand([Unlock], persist);
  }

  /** As written: every mutating call blocks at persist's Lock, whatever its table update. */
  lemma MutatorBlocksAsWritten(update: seq<Op>)
    requires AllTouch(update)
    ensures Run(Expand(Mutator(update), PersistAsWritten()), false) == Blocked
  {
    ExpandMutator(update, PersistAsWritten());
    var tail := PersistAsWritten() + [Unlock];
    assert [Lock] + update + PersistAsWritten() + [Unlock] == [Lock] + (update + tail);
    assert ([Lock] + (update + tail))[1..] == update + tail;
    RunAfterTouches(update, tail);
  }

  /** Corrected: every mutating call returns with the lock released, all accesses guarded. */
  lemma MutatorCompletesCorrected(update: seq<Op>)
    requires AllTouch(update)
    ensures Run(Expand(Mutator(update), PersistCorrected()), false) == Completed(false)
  {
    ExpandMutator(update, PersistCorrected());
    var tail := PersistCorrected() + [Unlock];
    assert [Lock] + update + PersistCorrected() + [Unlock] == [Lock] + (update + tail);
    assert ([Lock] + (update + tail))[1..] == update + tail;
    RunAfterTouches(update, tail);
    assert tail[1..] == [Unlock] && [Unlock][1..] == [];
  }
}
