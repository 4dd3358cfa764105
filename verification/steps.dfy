// How one durable step of the Python services can end.
module Steps {
  /** How a step ends: done; an error the source raises; or the process is gone
      (power cut, kill, or an exception nothing catches). */
  datatype Status = Done | Threw | Stopped {
    predicate IsFailure() { !Done? }
  }

  /** A step with one effect: it is cut or fails before or after that effect, unless it is
      steady. */
  method Attempt(steady: bool) returns (s: Status, took: bool)
    ensures s.Done? ==> took
    ensures steady ==> s.Done?
  {
    s, took := *, *;
    if steady { s := Done; }
    if s.Done? { took := true; }
  }
}
