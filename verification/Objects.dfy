/** The kernel objects of the FreeRTOS backend that the mutex code links
    together, and the result codes its calls return. */
module Objects {

  datatype Code = OK | EBUSY | EDEADLK | ETIMEDOUT | EAGAIN | EPERM | EINVAL

  /** A wait queue: the threads linked through their wait node, head first. */
  class WaitQ {
    var waitq: seq<Thread>

    constructor ()
      ensures waitq == []
    {
      waitq := [];
    }
  }

  class Thread {
    var basePriority: int          // priority requested by the application
    var priority: int              // native priority, as the kernel reports it
    var waitQ: WaitQ?              // queue the thread is linked in, if any
    var waitingMutex: Mutex?       // mutex awaited, for transitive inheritance
    var ownedMutexes: seq<Mutex>   // mutexes linked through their owner node

    constructor (prio: int)
      ensures basePriority == priority == prio
      ensures waitQ == null && waitingMutex == null && ownedMutexes == []
    {
      basePriority, priority := prio, prio;
      waitQ, waitingMutex, ownedMutexes := null, null, [];
    }
  }

  class Mutex {
    const waitQ: WaitQ             // embedded, so it never changes
    var owner: Thread?
    var lockCount: nat             // an unsigned 32-bit field

    constructor ()
      ensures owner == null && lockCount == 0
      ensures fresh(waitQ) && waitQ.waitq == []
    {
      waitQ := new WaitQ();
      owner, lockCount := null, 0;
    }
  }
}
