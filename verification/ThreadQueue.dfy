/** The mutex-protected deque of src/base/thread_queue.h. Each method is one locked region, so it is
one atomic step. */
module ThreadQueues {
  class ThreadQueue<T> {
    var tasksList: seq<T>

    constructor ()
      ensures tasksList == []
    {
      tasksList := [];
    }

    method Push(t: T)
      modifies this
      ensures tasksList == old(tasksList) + [t]
    {
      tasksList := tasksList + [t];
    }

    /** `t0` is what the reference argument held; an empty queue leaves it alone. */
    method Pop(t0: T) returns (ok: bool, t: T)
      modifies this
      ensures ok <==> old(tasksList) != []
      ensures ok ==> [t] + tasksList == old(tasksList)
      ensures !ok ==> t == t0 && tasksList == old(tasksList)
    {
      if |tasksList| != 0 {
        t := tasksList[0];
        tasksList := tasksList[1..];
        return true, t;
      }
      return false, t0;
    }

    method Size() returns (n: nat)
      ensures n == |tasksList|
    {
      n := |tasksList|;
    }
  }
}
