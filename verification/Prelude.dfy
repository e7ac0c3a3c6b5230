/** Shared vocabulary: optional values and the integer clock. */
module Prelude {
  datatype Option<+T> = None | Some(value: T)

  /** Users and clients are known by their ids. */
  type UserId = string
  type ClientId = string

  /** Instants and durations, in nanoseconds, read from one monotone clock. */
  type Time = int

  const SECOND: Time := 1_000_000_000
  const MINUTE: Time := 60 * SECOND
  const HOUR: Time := 60 * MINUTE
  const DAY: Time := 24 * HOUR

  /** The lengths, in nanoseconds. */
  lemma Units()
    ensures MINUTE == 60_000_000_000 && HOUR == 3_600_000_000_000 && DAY == 86_400_000_000_000
  {
  }

  function Max(a: int, b: int): int {
    if a < b then b else a
  }

  function Min(a: int, b: int): int {
    if a < b then a else b
  }

  /** For counting. */
  function One(b: bool): nat {
    if b then 1 else 0
  }

  /** SQL's COALESCE(stamp, now): a stamp that is already set is kept. */
  function Coalesce(stamp: Option<Time>, now: Time): Option<Time> {
    if stamp.Some? then stamp else Some(now)
  }

  /** There is always a number that is not among finitely many. */
  lemma {:induction false} AboveAll(ids: set<nat>) returns (bound: nat)
    ensures forall i :: i in ids ==> i < bound
    decreases |ids|
  {
    if ids == {} {
      bound := 0;
    } else {
      var i :| i in ids;
      var rest := AboveAll(ids - {i});
      bound := Max(rest, i + 1);
      forall j | j in ids ensures j < bound {
        assert j != i ==> j in ids - {i};
      }
    }
  }
}
