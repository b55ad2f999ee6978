/** The key lock of src/utils/lock.ts over the shared cache: a key is held
    while an entry for it is stored. */
module Lock {

  /** `acquireLock` and `releaseLock` calls, for reasoning about a history. */
  datatype LockOp = Acquire(key: string, timeout: int) | Release(key: string)

  /** The result of one call: whether the lock was acquired (always `false`
      for a release), and the held keys afterwards. */
  datatype Step = Step(acquired: bool, held: set<string>)

  function Apply(held: set<string>, op: LockOp): (s: Step)
    ensures op.Acquire? ==> (s.acquired <==> op.key !in held)
    ensures op.Acquire? ==> s.held == held + {op.key}
    ensures op.Release? ==> s.held == held - {op.key} && !s.acquired
  {
    match op
    case Acquire(k, _) => if k in held then Step(false, held) else Step(true, held + {k})
    case Release(k) => Step(false, held - {k})
  }

  /** The held keys after a history of calls. */
  function Replay(held: set<string>, ops: seq<LockOp>): set<string>
    decreases |ops|
  {
    if ops == [] then held else Replay(Apply(held, ops[0]).held, ops[1..])
  }

  /** What each call of a history returned. */
  function Results(held: set<string>, ops: seq<LockOp>): (r: seq<bool>)
    ensures |r| == |ops|
    decreases |ops|
  {
    if ops == [] then [] else [Apply(held, ops[0]).acquired] + Results(Apply(held, ops[0]).held, ops[1..])
  }

  predicate ReleasesKey(ops: seq<LockOp>, key: string) {
    exists i | 0 <= i < |ops| :: ops[i] == Release(key)
  }

  /** A held key stays held through any history that does not release it,
      and every acquire of it in that history fails. */
  lemma {:induction false} HeldUntilReleased(held: set<string>, ops: seq<LockOp>, key: string)
    requires key in held && !ReleasesKey(ops, key)
    ensures key in Replay(held, ops)
    ensures forall i | 0 <= i < |ops| && ops[i].Acquire? && ops[i].key == key :: !Results(held, ops)[i]
    decreases |ops|
  {
    if ops != [] {
      assert ops[0] != Release(key);
      var next := Apply(held, ops[0]).held;
      assert !ReleasesKey(ops[1..], key) by {
        forall i | 0 <= i < |ops[1..]| ensures ops[1..][i] != Release(key) {
          assert ops[1..][i] == ops[i + 1];
        }
      }
      HeldUntilReleased(next, ops[1..], key);
      forall i | 0 <= i < |ops| && ops[i].Acquire? && ops[i].key == key
        ensures !Results(held, ops)[i]
      {
        if i > 0 {
          assert Results(held, ops)[i] == Results(next, ops[1..])[i - 1];
        }
      }
    }
  }

  /** Two acquires of the same key with no release of it in between: at most
      one of them succeeds. */
  lemma MutualExclusion(held: set<string>, before: seq<LockOp>, between: seq<LockOp>, key: string,
                        t1: int, t2: int)
    requires !ReleasesKey(between, key)
    ensures var ops := before + [Acquire(key, t1)] + between + [Acquire(key, t2)];
      !(Results(held, ops)[|before|] && Results(held, ops)[|ops| - 1])
  {
    var ops := before + [Acquire(key, t1)] + between + [Acquire(key, t2)];
    var rest := [Acquire(key, t1)] + between + [Acquire(key, t2)];
    assert ops == before + rest;
    ResultsAppend(held, before, rest);
    var h := Replay(held, before);
    var after := Apply(h, Acquire(key, t1)).held;
    assert key in after;
    assert rest[1..] == between + [Acquire(key, t2)];
    assert !ReleasesKey(between + [Acquire(key, t2)], key) by {
      forall i | 0 <= i < |between| + 1 ensures (between + [Acquire(key, t2)])[i] != Release(key) {
        if i < |between| { assert (between + [Acquire(key, t2)])[i] == between[i]; }
      }
    }
    HeldUntilReleased(after, between + [Acquire(key, t2)], key);
    assert Results(h, rest) == [Apply(h, Acquire(key, t1)).acquired] + Results(after, between + [Acquire(key, t2)]);
  }

  lemma {:induction false} ResultsAppend(held: set<string>, a: seq<LockOp>, b: seq<LockOp>)
    ensures Results(held, a + b) == Results(held, a) + Results(Replay(held, a), b)
    ensures Replay(held, a + b) == Replay(Replay(held, a), b)
    decreases |a|
  {
    if a == [] {
      assert a + b == b;
    } else {
      assert (a + b)[0] == a[0] && (a + b)[1..] == a[1..] + b;
      ResultsAppend(Apply(held, a[0]).held, a[1..], b);
    }
  }

  /** The timeout never matters: changing the timeouts of a history changes
      neither what the calls return nor what is held. */
  lemma {:induction false} TimeoutIrrelevant(held: set<string>, ops: seq<LockOp>, ops': seq<LockOp>)
    requires |ops| == |ops'|
    requires forall i | 0 <= i < |ops| ::
      ops[i].key == ops'[i].key && ops[i].Acquire? == ops'[i].Acquire?
    ensures Results(held, ops) == Results(held, ops') && Replay(held, ops) == Replay(held, ops')
    decreases |ops|
  {
    if ops != [] {
      assert Apply(held, ops[0]) == Apply(held, ops'[0]);
      TimeoutIrrelevant(Apply(held, ops[0]).held, ops[1..], ops'[1..]);
    }
  }

  /** `caches.default` as far as the lock uses it. */
  class LockStore {
    var held: set<string>

    constructor ()
      ensures held == {}
    {
      held := {};
    }

    /** `acquireLock(key, timeout)`. */
    method AcquireLock(key: string, timeout: int) returns (acquired: bool)
      modifies this
      ensures Step(acquired, held) == Apply(old(held), Acquire(key, timeout))
    {
      if key in held {
        return false;
      }
      held := held + {key};
      return true;
    }

    /** `releaseLock(key)`. */
    method ReleaseLock(key: string)
      modifies this
      ensures held == Apply(old(held), Release(key)).held
    {
      held := held - {key};
    }
  }
}
