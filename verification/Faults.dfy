/** Where something outside the program may fail. */
module Faults {

  /** Whether something fails here; nothing does where nothing can. */
  method Fault(possible: bool) returns (fails: bool)
    ensures fails ==> possible
  {
    fails := false;
    if possible {
      fails := *;
    }
  }
}
