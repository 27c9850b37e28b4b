/** What one filesystem effect can do to the process that asked for it.

    A `Machine` owns the disk and a script of fates, one fate for every effect. An empty script
    means that everything works from there on, so a statement about every script is a statement
    about every pattern of crashes, failures and interruptions. */
module Effects {

  datatype Option<+T> = None | Some(value: T)

  /** `Works`: the effect lands. `Fails`: an operating-system error, nothing changed.
      `Interrupts`: the effect lands, then an exception that is not an `Exception` is raised.
      `Dies`: the process is gone before the effect. */
  datatype Fate = Works | Fails | Interrupts | Dies

  /** Why a method raised: a refused disk state, an operating-system error, or an interruption. */
  datatype Cause = Conflict | System | Interrupt

  datatype Outcome = Done | Raised(cause: Cause) | Dead

  /** What the owner of a transaction does besides: it may be cancelled before applying it, what it applied may not be
    * accepted, and it rolls back after an exception or leaves that to the next recovery. */
  datatype Course = Course(cancelled: bool, accepted: bool, undoes: bool)

  function Lookup<K, V>(m: map<K, V>, k: K): Option<V> {
    if k in m then Some(m[k]) else None
  }

  /** Only what is filed under these keys may have changed. */
  ghost predicate Elsewhere<K(!new), V>(m: map<K, V>, m0: map<K, V>, keys: seq<K>) {
    forall k | k !in keys :: Lookup(m, k) == Lookup(m0, k)
  }

  class Machine<D> {
    var disk: D
    var fates: seq<Fate>

    constructor (disk: D, fates: seq<Fate>)
      ensures this.disk == disk && this.fates == fates
    {
      this.disk := disk;
      this.fates := fates;
    }

    /** Attempts the one atomic effect that turns the disk into `next`. */
    method Perform(next: D) returns (o: Outcome)
      modifies this
      ensures disk == next || disk == old(disk)
      ensures o.Done? ==> disk == next
      ensures o != Raised(Conflict)
      ensures o == Raised(System) || o.Dead? ==> disk == old(disk)
      ensures o == Raised(Interrupt) ==> disk == next
      ensures old(fates) == [] ==> fates == [] && o.Done?
    {
      var fate := if fates == [] then Works else fates[0];
      fates := if fates == [] then [] else fates[1..];
      match fate
      case Works => disk := next; o := Done;
      case Fails => o := Raised(System);
      case Interrupts => disk := next; o := Raised(Interrupt);
      case Dies => o := Dead;
    }
  }
}
