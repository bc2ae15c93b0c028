/** Types shared by every part of the model. */
module Common {

  datatype Option<+T> = None | Some(value: T)

  datatype Result<+T, +E> = Ok(value: T) | Err(error: E)

  /** A uuid. Only equality matters to the server. */
  type Id = nat

  const MAX_INT32: int := 0x7fff_ffff

  /** PostgreSQL's `integer` and Go's `int32`. */
  type Int32 = x: int | -0x8000_0000 <= x <= 0x7fff_ffff

  ghost predicate NoDuplicates<T>(s: seq<T>) {
    forall i, j :: 0 <= i < j < |s| ==> s[i] != s[j]
  }

  function Elements<T>(s: seq<T>): set<T> {
    set x | x in s
  }

  /** A list without repetitions has as many entries as its set of elements. */
  lemma {:induction false} DistinctSize<T>(s: seq<T>)
    requires NoDuplicates(s)
    ensures |Elements(s)| == |s|
  {
    if s != [] {
      var rest, last := s[..|s| - 1], s[|s| - 1];
      DistinctSize(rest);
      assert forall i :: 0 <= i < |rest| ==> rest[i] == s[i] && s[i] != last;
      assert s == rest + [last] && last !in Elements(rest);
      assert Elements(s) == Elements(rest) + {last};
    }
  }

  /** A subset of the same size is the whole set. */
  lemma SubsetOfSameSize<T>(a: set<T>, b: set<T>)
    requires a <= b && |a| == |b|
    ensures a == b
  {
    assert b == a + (b - a);
    assert |b| == |a| + |b - a|;
  }

  // -------------------------------------------------------- project locks

  /** Which transaction holds the row lock of each locked project. */
  type Locks = map<Id, nat>

  /**
   `LockProject`, SELECT ... FOR NO KEY UPDATE: None means waiting for the holder; a
   project that is gone matches no row, which is no error and no lock.
   */
  function Acquire(projects: set<Id>, locks: Locks, project: Id, t: nat): Option<Locks> {
    if project !in projects then Some(locks)
    else if project in locks then None
    else Some(locks[project := t])
  }

  /** Commit and rollback drop every lock of the transaction. */
  function Release(locks: Locks, t: nat): Locks {
    map p | p in locks && locks[p] != t :: locks[p]
  }
}
