/**
 * Client.java: the scenario that wires the system together. Nine bytes are
 * written to an Ethernet card; a composite reads them into a shared buffer,
 * writes that buffer to RAM address 0 and sends it to a TokenRing card; a
 * second queued task reads the RAM back. Two threads run one queue entry each
 * and report to the same event log.
 *
 * The three devices have the capacity the system factory gives them: 10 bytes,
 * 10 slots and 10 words.
 */
module Client {
  import opened Basics
  import opened Devices
  import opened Codec
  import opened Adapters
  import opened Tasks
  import opened EventLog
  import opened Threads

  /** The bytes the scenario writes to the Ethernet card. */
  const Payload: seq<bv8> := [1, 2, 3, 4, 5, 6, 7, 8, 9]

  /** The TokenRing after the composite: the payload as three words, the last one zero-padded. */
  const RingAfter: seq<bv32> := [0x01020304, 0x05060708, 0x09000000, 0, 0, 0, 0, 0, 0, 0]

  /** The RAM after the composite: the payload at address 0, the tenth byte untouched. */
  const RamAfter: seq<bv8> := [1, 2, 3, 4, 5, 6, 7, 8, 9, 0]

  /** The name of the scenario's composite: its children's names in order, in parentheses. */
  const Title: string := "(" + "ReadEthernetTask" + " " + "WriteMemoryTask" + " " + "WriteTokenRingTask" + ") CompositeTask"

  /** The log after both threads ran: one line per thread, in the order they ran. */
  const FirstLine: string := "Thread 1" + " has finished the task: " + Title + "\n"
  const SecondLine: string := "Thread 2" + " has finished the task: " + "ReadMemoryTask" + "\n"
  const LogAfter: string := FirstLine + SecondLine

  /** `ethernet.write` of the payload on a fresh 10-slot card: it fits, and slot 9 stays `null`. */
  lemma EthernetLoaded()
    ensures GuardedCopy(seq(10, _ => None), Boxed(Payload), 0) == WriteResult(Boxed(Payload) + [None], 0)
  {
    var r := GuardedCopy(seq(10, _ => None), Boxed(Payload), 0).contents;
    assert forall j :: 0 <= j < 10 ==> r[j] == (Boxed(Payload) + [None])[j];
  }

  /** `getCom(9)` on the loaded Ethernet card returns the payload. */
  lemma EthernetReadsPayload()
    ensures EthernetGetCom(Boxed(Payload) + [None], 9) == Payload
  {
    var slots := (Boxed(Payload) + [None])[..9];
    assert forall i :: 0 <= i < 9 ==> slots[i] == Some(Payload[i]);
  }

  /** Writing the payload at RAM address 0 succeeds and leaves the tenth byte zero. */
  lemma RamTakesPayload()
    ensures GuardedCopy(ZeroBytes(10), Payload, 0) == WriteResult(RamAfter, 0)
  {
    var r := GuardedCopy(ZeroBytes(10), Payload, 0).contents;
    assert forall j :: 0 <= j < 10 ==> r[j] == RamAfter[j];
  }

  /** Sending the payload to an empty 10-word TokenRing succeeds with three words, the ragged byte high. */
  lemma RingTakesPayload()
    ensures TokenRingSetCom(seq(10, _ => 0), Payload) == WriteResult(RingAfter, 0)
  {
    TailExample();
    var r := TokenRingSetCom(seq(10, _ => 0), Payload).contents;
    assert forall j :: 0 <= j < 10 ==> r[j] == RingAfter[j];
  }

  /** Reading nine bytes back from RAM address 0 after the composite gives the payload. */
  lemma RamReadsPayload()
    ensures RamGet(RamAfter, 0, 9) == Payload
  {
    assert RamAfter[..9] == Payload;
  }

  /** The scenario's composite is named after its three children, in order. */
  lemma CompositeTitle(rc: ReadCardTask, wm: WriteMemoryTask, wc: WriteCardTask)
    requires rc.communicationCard.EthernetCard? && wc.communicationCard.TokenRingCard?
    ensures Name(Composite([ReadCard(rc), WriteMemory(wm), WriteCard(wc)])) == Title
  {
    var ts := [ReadCard(rc), WriteMemory(wm), WriteCard(wc)];
    CompositeName(ts);
    ReadCardName(rc);
    WriteCardName(wc);
    var names := Names(ts);
    assert names[..2][..1] == [names[0]] && names[..2] == [names[0], names[1]];
    assert Join(names[..2]) == names[0] + " " + names[1];
    assert Join(names) == names[0] + " " + names[1] + " " + names[2];
  }

  /** A composite of three tasks runs them one after the other. */
  lemma RunThree(a: Task, b: Task, c: Task, w: World)
    requires Within(a, Keys(w)) && Readable(a) && Within(b, Keys(w)) && Readable(b)
    requires Within(c, Keys(w)) && Readable(c) && Consistent(w)
    ensures AllRunnable([a, b, c], Keys(w))
    ensures RunAll([a, b, c], w) == Run(c, Run(b, Run(a, w)))
  {
    TripleInit(a, b, c);
    PairInit(a, b);
    assert [a][..0] == [];
    assert RunAll([a], w) == Run(a, w);
    assert RunAll([a, b], w) == Run(b, RunAll([a], w));
  }

  /**
   * The composite on the scenario's devices: the payload read from the
   * Ethernet lands in RAM at address 0 and, encoded as words, on the TokenRing;
   * both writes report 0.
   */
  lemma PipelineRun(rc: ReadCardTask, wm: WriteMemoryTask, wc: WriteCardTask, w: World)
    requires rc.communicationCard.EthernetCard? && wc.communicationCard.TokenRingCard?
    requires rc.size == 9 && wm.address == 0 && wm.taskData == rc.taskData && wc.taskData == rc.taskData
    requires Within(ReadCard(rc), Keys(w)) && Within(WriteMemory(wm), Keys(w)) && Within(WriteCard(wc), Keys(w))
    requires Consistent(w)
    requires w.ethernets[rc.communicationCard.ethernetAdapter.ethernet.data] == Boxed(Payload) + [None]
    requires w.rams[wm.memory.ram.data] == ZeroBytes(10)
    requires w.tokenRings[wc.communicationCard.tokenRingAdapter.tokenRing.data] == seq(10, _ => 0)
    ensures AllRunnable([ReadCard(rc), WriteMemory(wm), WriteCard(wc)], Keys(w))
    ensures
      var r := RunAll([ReadCard(rc), WriteMemory(wm), WriteCard(wc)], w);
      r.cells[rc.taskData] == Payload &&
      r.rams[wm.memory.ram.data] == RamAfter && r.memoryResults[wm] == 0 &&
      r.tokenRings[wc.communicationCard.tokenRingAdapter.tokenRing.data] == RingAfter && r.cardResults[wc] == 0 &&
      r.ethernets == w.ethernets
  {
    assert Readable(ReadCard(rc));
    RunThree(ReadCard(rc), WriteMemory(wm), WriteCard(wc), w);
    EthernetReadsPayload();
    var w1 := ReadCardStep(rc, w);
    assert w1.cells[rc.taskData] == Payload;
    RamTakesPayload();
    var w2 := WriteMemoryStep(wm, w1);
    assert w2.rams[wm.memory.ram.data] == RamAfter && w2.memoryResults[wm] == 0;
    RingTakesPayload();
    var w3 := WriteCardStep(wc, w2);
    assert w3.tokenRings[wc.communicationCard.tokenRingAdapter.tokenRing.data] == RingAfter;
  }

  /** The four tasks of Client.java lines 28-34. */
  datatype Workload = Workload(rc: ReadCardTask, wm: WriteMemoryTask, wc: WriteCardTask, rm: ReadMemoryTask)
  {
    /** The composite of Client.java lines 39-42. */
    function Pipeline(): Task
    {
      Composite([ReadCard(rc), WriteMemory(wm), WriteCard(wc)])
    }

    /** How tasks, buffers and devices are connected; all of it is held in constant fields. */
    ghost predicate Connected()
    {
      rc.communicationCard.EthernetCard? && wc.communicationCard.TokenRingCard? &&
      rc.size == 9 && wm.address == 0 && wm.taskData == rc.taskData && wc.taskData == rc.taskData &&
      rm.memory.ram == wm.memory.ram && rm.address == 0 && rm.size == 9 && Ram().Length == 10 && Ethernet().Length == 10 &&
      (Ram() as object) != (Ethernet() as object) && (TokenRing() as object) != (Ethernet() as object)
    }

    function Ram(): array<bv8>
    {
      wm.memory.ram.data
    }

    function Ethernet(): array<Option<bv8>>
      requires rc.communicationCard.EthernetCard?
    {
      rc.communicationCard.ethernetAdapter.ethernet.data
    }

    function TokenRing(): array<bv32>
      requires wc.communicationCard.TokenRingCard?
    {
      wc.communicationCard.tokenRingAdapter.tokenRing.data
    }

    /** The objects the tasks work on. */
    ghost function Objects(): Domain
      requires rc.communicationCard.EthernetCard? && wc.communicationCard.TokenRingCard?
    {
      Domain({Ram()}, {Ethernet()}, {TokenRing()}, {rc.taskData, rm.taskData}, {wm}, {wc})
    }

    /** The same objects, as one set. */
    ghost function Changed(): set<object>
      requires rc.communicationCard.EthernetCard? && wc.communicationCard.TokenRingCard?
    {
      {Ram(), Ethernet(), TokenRing(), rc.taskData, rm.taskData, wm, wc}
    }

    /** The devices as Client.java line 13 leaves them. */
    ghost predicate Loaded()
      requires Connected()
      reads Ram(), Ethernet(), TokenRing()
    {
      Ram()[..] == ZeroBytes(10) && Ethernet()[..] == Boxed(Payload) + [None] && TokenRing()[..] == seq(10, _ => 0)
    }

    /** The devices after the composite ran. */
    ghost predicate Transferred()
      requires Connected()
      reads Ram(), Ethernet(), TokenRing()
    {
      Ram()[..] == RamAfter && Ethernet()[..] == Boxed(Payload) + [None] && TokenRing()[..] == RingAfter
    }
  }

  /** The objects `Changed` lists are those `Execute` may change. */
  lemma FootprintOf(work: Workload)
    requires work.rc.communicationCard.EthernetCard? && work.wc.communicationCard.TokenRingCard?
    ensures Footprint(work.Objects()) == work.Changed()
  {
  }

  /** The composite and the read-back task stay among the scenario's objects and read inside their devices. */
  lemma Runnable(work: Workload)
    requires work.Connected()
    ensures Within(work.Pipeline(), work.Objects()) && Readable(work.Pipeline())
    ensures Within(ReadMemory(work.rm), work.Objects()) && Readable(ReadMemory(work.rm))
    ensures Separate(work.Objects())
  {
    var ts := work.Pipeline().tasks;
    assert Within(ts[0], work.Objects()) && Readable(ts[0]);
    assert Within(ts[1], work.Objects()) && Within(ts[2], work.Objects());
  }

  /** Client.java lines 9-13 and 22-34: the devices, the payload written to the Ethernet, the adapters and the tasks. */
  method MakeWorkload() returns (work: Workload)
    ensures work.Connected() && work.Loaded() && fresh(work.Changed())
  {
    var ram := new ConcreteRam(10);
    var ethernet := new ConcreteEthernet(10);
    var tokenRing := new ConcreteTokenRing(10);
    EthernetLoaded();
    var _ := ethernet.Write(Boxed(Payload));
    var ethernetAdapter := new EthernetToComAdapter(ethernet);
    var ramAdapter := new RamToMemAdapter(ram);
    var tokenRingAdapter := new TokenRingToComAdapter(tokenRing);
    var rc := new ReadCardTask(EthernetCard(ethernetAdapter), |Payload|);
    var wm := new WriteMemoryTask(ramAdapter, rc.GetTaskData(), 0);
    var wc := new WriteCardTask(TokenRingCard(tokenRingAdapter), rc.GetTaskData());
    var rm := new ReadMemoryTask(ramAdapter, 0, |Payload|);
    work := Workload(rc, wm, wc, rm);
  }

  /** Client.java lines 39-47: the composite and the read-back task, queued in that order. */
  method QueueUp(work: Workload) returns (queues: TaskQueueRegistry)
    ensures fresh(queues) && queues.instance != null && fresh(queues.instance)
    ensures queues.instance.queue == [work.Pipeline(), ReadMemory(work.rm)]
  {
    var composite := Composite([]);
    composite := AddTask(composite, ReadCard(work.rc));
    composite := AddTask(composite, WriteMemory(work.wm));
    composite := AddTask(composite, WriteCard(work.wc));
    assert composite.tasks == [ReadCard(work.rc), WriteMemory(work.wm), WriteCard(work.wc)];
    queues := new TaskQueueRegistry();
    var taskQueue := queues.GetInstance();
    taskQueue.AddTask(composite);
    taskQueue.AddTask(ReadMemory(work.rm));
  }

  /** Client.java lines 49-56: two CPUs, each with one process and one thread on the shared queue. */
  method TwoThreads(queues: TaskQueueRegistry) returns (thread1: Thread, thread2: Thread)
    requires queues.instance != null
    modifies queues
    ensures fresh(thread1) && fresh(thread2) && thread1 != thread2
    ensures thread1.name == "Thread 1" && thread2.name == "Thread 2"
    ensures thread1.observers == [] && thread2.observers == [] && thread1.task == None && thread2.task == None
    ensures thread1.taskQueue == old(queues.instance) && thread2.taskQueue == old(queues.instance)
    ensures queues.instance == old(queues.instance)
  {
    var cpu1 := new ConcreteCPU();
    var cpu2 := new ConcreteCPU();
    var process1 := cpu1.CreateProcess("Process 1");
    var process2 := cpu2.CreateProcess("Process 2");
    thread1 := process1.CreateThread("Thread 1", queues);
    thread2 := process2.CreateThread("Thread 2", queues);
  }

  /** The tasks with the two threads and the log of Client.java lines 59-62. */
  datatype Wiring = Wiring(work: Workload, thread1: Thread, thread2: Thread, log: SystemEventLog)
  {
    ghost predicate Wired()
    {
      work.Connected() && thread1 != thread2 && thread1.taskQueue == thread2.taskQueue &&
      thread1.name == "Thread 1" && thread2.name == "Thread 2"
    }

    /** The state before line 64: both entries queued, the log attached once to each thread and empty. */
    ghost predicate Ready()
      requires Wired()
      reads thread1, thread2, thread1.taskQueue, log, work.Ram(), work.Ethernet(), work.TokenRing()
    {
      thread1.taskQueue.queue == [work.Pipeline(), ReadMemory(work.rm)] &&
      thread1.observers == [log] && thread2.observers == [log] && log.log == "" && work.Loaded()
    }

    /** The state between lines 64 and 65: the composite has run and been logged. */
    ghost predicate Halfway()
      requires Wired()
      reads thread1.taskQueue, log, work.Ram(), work.Ethernet(), work.TokenRing()
    {
      thread1.taskQueue.queue == [ReadMemory(work.rm)] &&
      log.log == FirstLine && work.Transferred()
    }

    /** The state after line 65: the read-back task's buffer holds the payload as well. */
    ghost predicate Done()
      requires Wired()
      reads log, work.rm.taskData, work.Ram(), work.Ethernet(), work.TokenRing()
    {
      log.log == LogAfter && work.Transferred() && work.rm.taskData.data == Payload
    }
  }

  /** Client.java lines 5-62: everything created, queued and attached. */
  method Wire() returns (s: Wiring)
    ensures s.Wired() && s.Ready()
    ensures fresh(s.thread1) && fresh(s.thread2) && fresh(s.thread1.taskQueue) && fresh(s.log)
    ensures fresh(s.work.Changed())
  {
    var work := MakeWorkload();
    var queues := QueueUp(work);
    var thread1, thread2 := TwoThreads(queues);
    var logs := new EventLogRegistry();
    var systemEventLog := logs.GetInstance();
    thread1.Attach(systemEventLog);
    thread2.Attach(systemEventLog);
    s := Wiring(work, thread1, thread2, systemEventLog);
  }

  /** An observer attached once receives the notification as one line. */
  lemma NotifiedOnce(threadName: string, t: Task)
    ensures Deliveries(Notification(threadName, t), 1) == threadName + " has finished the task: " + Name(t) + "\n"
  {
    assert Repeat(Notification(threadName, t) + "\n", 0) == [];
  }

  /** `run()` of a thread whose only observer is `log`: one queue entry runs and is logged as one line. */
  method RunLogged(thread: Thread, log: SystemEventLog, ghost d: Domain)
    requires thread.observers == [log] && thread.taskQueue.queue != []
    requires Within(thread.taskQueue.queue[0], d) && Readable(thread.taskQueue.queue[0]) && Separate(d)
    modifies thread`task, thread.taskQueue, Footprint(d), log
    ensures thread.taskQueue.queue == old(thread.taskQueue.queue)[1..]
    ensures Snapshot(d) == Tasks.Run(old(thread.taskQueue.queue)[0], old(Snapshot(d)))
    ensures log.log == old(log.log) + (thread.name + " has finished the task: " + Name(old(thread.taskQueue.queue)[0]) + "\n")
  {
    NotifiedOnce(thread.name, thread.taskQueue.queue[0]);
    thread.Run(d);
    assert multiset(thread.observers)[log] == 1;
  }

  /** Client.java line 64: thread 1 takes the composite off the queue, runs it and logs it. */
  method RunComposite(s: Wiring)
    requires s.Wired() && s.Ready()
    modifies s.thread1`task, s.thread1.taskQueue, s.work.Changed(), s.log
    ensures s.Halfway()
  {
    var work := s.work;
    ghost var d := work.Objects();
    FootprintOf(work);
    Runnable(work);
    PipelineRun(work.rc, work.wm, work.wc, Snapshot(d));
    CompositeTitle(work.rc, work.wm, work.wc);
    RunLogged(s.thread1, s.log, d);
  }

  /** Client.java line 65: thread 2 takes the read-back task, which changes no device, reads the payload back and logs it. */
  method RunReadBack(s: Wiring)
    requires s.Wired() && s.Halfway() && s.thread2.observers == [s.log]
    modifies s.thread2`task, s.thread2.taskQueue, s.work.Changed(), s.log
    ensures s.Done()
  {
    FootprintOf(s.work);
    Runnable(s.work);
    RamReadsPayload();
    RunLogged(s.thread2, s.log, s.work.Objects());
  }

  /**
   * `Client.main` without its printing: after the two threads ran, the RAM
   * holds the payload, the TokenRing its three words, the Ethernet is as it
   * was loaded, the read-back task holds the payload, and the shared log holds
   * one line per thread.
   */
  method Scenario() returns (ramContents: seq<bv8>, ethernetContents: seq<Option<bv8>>,
                              ringContents: seq<bv32>, readBack: seq<bv8>, log: string)
    ensures ramContents == RamAfter
    ensures ethernetContents == Boxed(Payload) + [None]
    ensures ringContents == RingAfter
    ensures readBack == Payload
    ensures log == LogAfter
  {
    var s := Wire();
    RunComposite(s);
    RunReadBack(s);
    ramContents := s.work.Ram()[..];
    ethernetContents := s.work.Ethernet()[..];
    ringContents := s.work.TokenRing()[..];
    readBack := s.work.rm.GetTaskData().GetData();
    log := s.log.GetLog();
  }
}
