/**
 * Thread.java: the execution unit. A `Thread` takes the next task from the
 * shared `TaskQueue`, executes it, tells every attached observer and drops the
 * task again (the template method `run`). `ConcreteCPU` and `ConcreteProcess`
 * create their one process or thread on first request.
 *
 * The abstract `Thread` and its only subclass `ConcreteThread` form one class
 * here; the only `Observer` there is, `SystemEventLog`, is the observer type.
 */
module Threads {
  import opened Basics
  import opened Tasks
  import opened EventLog

  /** The message `run` sends after a task has been executed. */
  function Notification(threadName: string, t: Task): string
  {
    threadName + " has finished the task: " + Name(t)
  }

  /** What an observer attached `n` times receives from one notification. */
  function Deliveries(message: string, n: nat): (r: string)
    ensures |r| == n * (|message| + 1)
  {
    Repeat(message + "\n", n)
  }

  /** One delivery per attachment: each is the message and a newline. */
  lemma {:induction false} DeliveriesAreJournal(message: string, n: nat)
    ensures Deliveries(message, n) == Journal(seq(n, _ => message))
  {
    if n > 0 {
      DeliveriesAreJournal(message, n - 1);
      assert seq(n, _ => message)[..n - 1] == seq(n - 1, _ => message);
    }
  }

  class Thread {
    var task: Option<Task>
    var observers: seq<SystemEventLog>
    const name: string
    const taskQueue: TaskQueue

    /** `new ConcreteThread(name)`: no observers, no task, and the queue `TaskQueue.getInstance()` gives. */
    constructor (name: string, queues: TaskQueueRegistry)
      modifies queues
      ensures this.name == name && observers == [] && task == None
      ensures taskQueue == queues.instance
      ensures old(queues.instance) != null ==> taskQueue == old(queues.instance)
      ensures old(queues.instance) == null ==> fresh(taskQueue) && taskQueue.queue == []
    {
      var q := queues.GetInstance();
      this.name := name;
      this.taskQueue := q;
      observers := [];
      task := None;
    }

    /** `attach`: appended at the end, duplicates allowed. */
    method Attach(observer: SystemEventLog)
      modifies this`observers
      ensures observers == old(observers) + [observer]
    {
      observers := observers + [observer];
    }

    /** `detach`: `ArrayList.remove`, the first attachment of that observer goes. */
    method Detach(observer: SystemEventLog)
      modifies this`observers
      ensures observers == RemoveFirst(old(observers), observer)
      ensures multiset(observers) == multiset(old(observers)) - multiset{observer}
    {
      RemoveFirstMultiset(observers, observer);
      observers := RemoveFirst(observers, observer);
    }

    /**
     * `notifyObservers`: `update` on every attached observer in attach order, so
     * an observer attached n times receives the message n times.
     */
    method NotifyObservers(message: string)
      modifies set o | o in observers
      ensures forall o :: o in observers ==> o.log == old(o.log) + Deliveries(message, multiset(observers)[o])
    {
      for i := 0 to |observers|
        invariant forall o :: o in observers ==>
          o.log == old(o.log) + Deliveries(message, multiset(observers[..i])[o])
      {
        assert observers[..i + 1] == observers[..i] + [observers[i]];
        observers[i].Update(message);
      }
      assert observers[..|observers|] == observers;
    }

    /** `fetchTask`: the oldest queued task, or none when the queue is empty. */
    method FetchTask()
      modifies this`task, taskQueue
      ensures old(taskQueue.queue) == [] ==> task == None && taskQueue.queue == []
      ensures old(taskQueue.queue) != [] ==>
        task == Some(old(taskQueue.queue)[0]) && taskQueue.queue == old(taskQueue.queue)[1..]
    {
      task := taskQueue.GetNextTask();
    }

    /** `executeTask`: `execute()` on the task, nothing when there is none. */
    method ExecuteTask(ghost d: Domain)
      requires task.Some? ==> Within(task.value, d) && Readable(task.value)
      requires Separate(d)
      modifies Footprint(d)
      ensures task == old(task)
      ensures old(task).None? ==> Snapshot(d) == old(Snapshot(d))
      ensures old(task).Some? ==> Snapshot(d) == Tasks.Run(old(task).value, old(Snapshot(d)))
    {
      var t := task;
      if t.None? {
        return;
      }
      assert this !in Footprint(d);
      Execute(t.value, d);
    }

    /** `discardTask`. */
    method DiscardTask()
      modifies this`task
      ensures task == None
    {
      task := None;
    }

    /** The end of `run()` once a task `t` was executed: every observer is told, then the task is dropped. */
    method Report(t: Task, ghost d: Domain)
      modifies this`task, set o | o in observers
      ensures task == None
      ensures Untouched(d)
      ensures forall o :: o in observers ==>
        o.log == old(o.log) + Deliveries(Notification(name, t), multiset(observers)[o])
    {
      var taskName := GetName(t);
      NotifyObservers(name + " has finished the task: " + taskName);
      DiscardTask();
    }

    /** `executeTask`, `notifyObservers` and `discardTask`: the rest of `run()` once a task was fetched. */
    method Perform(ghost d: Domain)
      requires task.Some? && Within(task.value, d) && Readable(task.value)
      requires Separate(d)
      modifies this`task, Footprint(d), set o | o in observers
      ensures task == None
      ensures Snapshot(d) == Tasks.Run(old(task).value, old(Snapshot(d)))
      ensures forall o :: o in old(observers) ==>
        o.log == old(o.log) + Deliveries(Notification(name, old(task).value), multiset(observers)[o])
    {
      var t := task.value;
      assert this !in Footprint(d);
      assert forall o :: o in observers ==> o !in Footprint(d);
      ExecuteTask(d);
      label executed:
      Report(t, d);
      SnapshotKept@executed(d);
    }

    /**
     * `run()`: fetch; stop if there was nothing to fetch; otherwise execute that
     * one queue entry (a composite's children are not queued separately), tell
     * every observer, and drop the task.
     */
    method Run(ghost d: Domain)
      requires taskQueue.queue != [] ==> Within(taskQueue.queue[0], d) && Readable(taskQueue.queue[0])
      requires Separate(d)
      modifies this`task, taskQueue, Footprint(d), set o | o in observers
      ensures task == None && observers == old(observers)
      ensures old(taskQueue.queue) == [] ==>
        taskQueue.queue == [] && Snapshot(d) == old(Snapshot(d)) && forall o :: o in old(observers) ==> o.log == old(o.log)
      ensures old(taskQueue.queue) != [] ==>
        var t := old(taskQueue.queue)[0];
        taskQueue.queue == old(taskQueue.queue)[1..] &&
        Snapshot(d) == Tasks.Run(t, old(Snapshot(d))) &&
        forall o :: o in old(observers) ==> o.log == old(o.log) + Deliveries(Notification(name, t), multiset(observers)[o])
    {
      assert this !in Footprint(d) && taskQueue !in Footprint(d);
      FetchTask();
      SnapshotKept(d);
      if task == None {
        return;
      }
      Perform(d);
    }
  }

  /** `ConcreteProcess`: holds at most one thread. */
  class ConcreteProcess {
    var thread: Thread?
    const name: string

    constructor (name: string)
      ensures this.name == name && thread == null
    {
      this.name := name;
      thread := null;
    }

    /** `createThread(name)`: a new thread named `name` on the first call, the same thread (name ignored) ever after. */
    method CreateThread(name: string, queues: TaskQueueRegistry) returns (t: Thread)
      modifies this`thread, queues
      ensures old(thread) == null ==> fresh(t) && t.name == name && t.observers == [] && t.task == None
      ensures old(thread) == null ==> t.taskQueue == queues.instance
      ensures old(thread) == null && old(queues.instance) != null ==> queues.instance == old(queues.instance)
      ensures old(thread) != null ==> t == old(thread) && queues.instance == old(queues.instance)
      ensures thread == t
    {
      if thread == null {
        thread := new Thread(name, queues);
      }
      t := thread;
    }

    /** `createThread()`: the same, with the name "Unnamed Thread". */
    method CreateUnnamedThread(queues: TaskQueueRegistry) returns (t: Thread)
      modifies this`thread, queues
      ensures old(thread) == null ==> fresh(t) && t.name == "Unnamed Thread" && t.observers == [] && t.task == None
      ensures old(thread) == null ==> t.taskQueue == queues.instance
      ensures old(thread) == null && old(queues.instance) != null ==> queues.instance == old(queues.instance)
      ensures old(thread) != null ==> t == old(thread) && queues.instance == old(queues.instance)
      ensures thread == t
    {
      t := CreateThread("Unnamed Thread", queues);
    }
  }

  /** `ConcreteCPU`: holds at most one process. */
  class ConcreteCPU {
    var process: ConcreteProcess?

    constructor ()
      ensures process == null
    {
      process := null;
    }

    /** `createProcess(name)`: a new process named `name` on the first call, the same process (name ignored) ever after. */
    method CreateProcess(name: string) returns (p: ConcreteProcess)
      modifies this
      ensures old(process) == null ==> fresh(p) && p.name == name && p.thread == null
      ensures old(process) != null ==> p == old(process)
      ensures process == p
    {
      if process == null {
        process := new ConcreteProcess(name);
      }
      p := process;
    }

    /** `createProcess()`: the same, with the name "Unnamed Process". */
    method CreateUnnamedProcess() returns (p: ConcreteProcess)
      modifies this
      ensures old(process) == null ==> fresh(p) && p.name == "Unnamed Process" && p.thread == null
      ensures old(process) != null ==> p == old(process)
      ensures process == p
    {
      p := CreateProcess("Unnamed Process");
    }
  }
}
