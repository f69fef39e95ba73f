/** The status values shared by the bounded inner loops (base_loop.py). */
module BaseLoop {

  datatype LoopStatus = Running | Paused | Completed | Aborted | AwaitingUser | MaxIterationsHit

  // What `resume()` does to a status: only a paused or waiting loop goes on.
  function Resumed(status: LoopStatus): LoopStatus {
    if status in {Paused, AwaitingUser} then Running else status
  }
}
