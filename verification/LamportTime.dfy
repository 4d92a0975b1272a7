/** The scalar Lamport clock of one process. */
module LamportTime {
  import opened Stamps

  class Clock {
    var time: int

    constructor ()
      ensures time == 0
    {
      time := 0;
    }

    /** `advance_lamport_time`. */
    method Advance()
      modifies this
      ensures time == old(time) + 1
    {
      time := time + 1;
    }

    /** `synchronize_time`: past both the local and the received time. */
    method Synchronize(received: int)
      modifies this
      ensures time == Sync(old(time), received)
      ensures time > old(time) && time > received
      ensures time == old(time) + 1 || time == received + 1
    {
      time := if received > time then received else time;
      time := time + 1;
    }
  }
}
