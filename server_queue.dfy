/**
 * The server's task-queue registry: a table from task id to the event queue of that task.
 * The reader/writer lock of the original only serialises calls, so each method here is one
 * atomic step on the table.
 */
module ServerQueue {
  import opened Wrappers

  /** The capacity the registry gives to every queue it creates itself. */
  const DefaultCapacity: int := 10

  /**
   * An event queue handle of the SDK. Its internals are not part of this model; a handle
   * records only the capacity it was created with, and two handles are the same only when
   * they are the same object.
   */
  class Queue {
    const capacity: int

    /** `event.NewQueue(capacity)`: a new, distinct handle. */
    constructor NewQueue(capacity: int)
      ensures this.capacity == capacity
    {
      this.capacity := capacity;
    }
  }

  class QueueManager {
    /** Task id to queue handle. A caller of `Add` may store a nil handle, hence `Queue?`. */
    var queues: map<string, Queue?>

    /** `NewQueueManager`: a registry with an (allocated) empty table. */
    constructor ()
      ensures queues == map[]
    {
      queues := map[];
    }

    /** Stores `queue` under `taskId`, replacing any earlier entry; the other entries stay. */
    method Add(taskId: string, queue: Queue?) returns (err: Option<Error>)
      modifies this
      ensures queues == old(queues)[taskId := queue]
      ensures taskId in queues && queues[taskId] == queue
      ensures forall id :: id != taskId ==> (id in queues <==> id in old(queues))
      ensures forall id :: id != taskId && id in queues ==> queues[id] == old(queues)[id]
      ensures err == None
    {
      queues := queues[taskId := queue];
      err := None;
    }

    /**
     * The handle stored under `taskId`; a missing id is not an error but a nil handle with
     * a nil error. The table is only read.
     */
    method Get(taskId: string) returns (queue: Queue?, err: Option<Error>)
      ensures taskId in queues ==> queue == queues[taskId]
      ensures taskId !in queues ==> queue == null
      ensures err == None
    {
      if taskId !in queues {
        return null, None;
      }
      queue := queues[taskId];
      err := None;
    }

    /** Looks a queue up without removing it: exactly what `Get` returns, with no other effect. */
    method Tap(taskId: string) returns (queue: Queue?, err: Option<Error>)
      ensures taskId in queues ==> queue == queues[taskId]
      ensures taskId !in queues ==> queue == null
      ensures err == None
    {
      queue, err := Get(taskId);
    }

    /** Removes the entry of `taskId` if there is one; an absent id is a no-op. */
    method Close(taskId: string) returns (err: Option<Error>)
      modifies this
      ensures queues == old(queues) - {taskId}
      ensures taskId !in queues
      ensures taskId !in old(queues) ==> queues == old(queues)
      ensures forall id :: id != taskId && id in old(queues) ==> id in queues && queues[id] == old(queues)[id]
      ensures err == None
    {
      if taskId in queues {
        queues := queues - {taskId};
      }
      err := None;
    }

    /**
     * The stored handle when `taskId` has one; otherwise a fresh queue of capacity 10, which
     * is stored under `taskId` and returned.
     */
    method CreateOrTap(taskId: string) returns (queue: Queue?, err: Option<Error>)
      modifies this
      ensures taskId in old(queues) ==> queue == old(queues)[taskId] && queues == old(queues)
      ensures taskId !in old(queues) ==>
        && queue != null && fresh(queue) && queue.capacity == DefaultCapacity
        && queues == old(queues)[taskId := queue]
      ensures taskId in queues && queues[taskId] == queue
      ensures err == None
    {
      if taskId in queues {
        return queues[taskId], None;
      }
      var created := new Queue.NewQueue(DefaultCapacity);
      queues := queues[taskId := created];
      queue, err := created, None;
    }
  }

  /**
   * For a task id not yet registered, creating its queue and then looking it up gives the
   * same, newly created handle of capacity 10, and no other entry changes.
   */
  method CreateThenGet(m: QueueManager, taskId: string) returns (created: Queue?, fetched: Queue?)
    requires taskId !in m.queues
    modifies m
    ensures created != null && fresh(created) && created.capacity == DefaultCapacity
    ensures fetched == created
    ensures m.queues == old(m.queues)[taskId := created]
  {
    var createErr, getErr;
    created, createErr := m.CreateOrTap(taskId);
    fetched, getErr := m.Get(taskId);
  }

  /** Closing twice leaves the table exactly as closing once, and neither call errs. */
  method CloseTwice(m: QueueManager, taskId: string) returns (first: Option<Error>, second: Option<Error>)
    modifies m
    ensures m.queues == old(m.queues) - {taskId}
    ensures first == None && second == None
  {
    first := m.Close(taskId);
    ghost var once := m.queues;
    second := m.Close(taskId);
    assert m.queues == once;
  }
}
