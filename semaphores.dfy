// The framework's sys::Semaphore (a POSIX counting semaphore) reduced to
// sequential bookkeeping: the number of pending events and whether
// `destroy` has run.  A blocking `wait` becomes the precondition `Ready`.
// The class itself is not part of this model; the behaviour on a destroyed
// semaphore (posts and waits fail, the count is kept) is the model's choice.
module Semaphores {
  datatype Sem = Sem(count: nat, destroyed: bool)

  /** A freshly constructed semaphore: no events, alive. */
  const Fresh: Sem := Sem(0, false)

  /** `post`: one more pending event; fails on a destroyed semaphore. */
  function Post(s: Sem): (Sem, bool)
  {
    if s.destroyed then (s, false) else (s.(count := s.count + 1), true)
  }

  /** A blocking `wait` returns only once an event is pending or the semaphore is gone. */
  predicate Ready(s: Sem)
  {
    s.count > 0 || s.destroyed
  }

  /** `wait` once it returns: consumes one event, or fails on a destroyed semaphore. */
  function Wait(s: Sem): (Sem, bool)
    requires Ready(s)
  {
    if s.destroyed then (s, false) else (s.(count := s.count - 1), true)
  }

  /** `timedWait`: succeeds and consumes an event exactly when one is pending. */
  function TimedWait(s: Sem): (Sem, bool)
  {
    if !s.destroyed && s.count > 0 then (s.(count := s.count - 1), true) else (s, false)
  }

  /** `destroy`: the pending count is kept but every later post or wait fails. */
  function Destroy(s: Sem): Sem
  {
    s.(destroyed := true)
  }
}
