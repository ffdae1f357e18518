/**
 * Task.java: the command / composite / queue layer. Leaf tasks read from or
 * write to a `Memory` or a `CommunicationCard`, passing bytes along through a
 * shared `TaskData`; a composite runs its children in order; the `TaskQueue`
 * hands tasks out first in, first out.
 *
 * The effect of running a task is described by `Run`, a function on a `World`:
 * a snapshot of every device array, every `TaskData` and every write task's
 * `result` that the task can touch. `Execute` is the imperative `execute()` and
 * is proved to change the heap exactly as `Run` says.
 */
module Tasks {
  import opened Basics
  import opened Devices
  import opened Codec
  import opened Adapters

  /** `TaskData`: a byte buffer that several tasks share by reference. */
  class TaskData {
    var data: seq<bv8>

    constructor (data: seq<bv8>)
      ensures this.data == data
    {
      this.data := data;
    }

    function GetData(): (r: seq<bv8>)
      reads this
      ensures r == data
    {
      data
    }

    method SetData(data: seq<bv8>)
      modifies this
      ensures this.data == data
    {
      this.data := data;
    }
  }

  /** `ReadMemoryTask`: copies `size` bytes at `address` of the memory into its own `TaskData`. */
  class ReadMemoryTask {
    const memory: RamToMemAdapter
    const address: int
    const size: nat
    const name: string := "ReadMemoryTask"
    const taskData: TaskData

    /** `size` is a `nat`: the Java constructor allocates `new byte[size]`, which throws for a negative size. */
    constructor (memory: RamToMemAdapter, address: int, size: nat)
      ensures this.memory == memory && this.address == address && this.size == size
      ensures fresh(taskData) && taskData.data == ZeroBytes(size)
    {
      this.memory := memory;
      this.address := address;
      this.size := size;
      this.taskData := new TaskData(ZeroBytes(size));
    }

    function GetTaskData(): (r: TaskData)
      ensures r == taskData
    {
      taskData
    }

    method Execute()
      requires CanGet(memory.ram.data.Length, address, size)
      modifies taskData
      ensures taskData.data == RamGet(memory.ram.data[..], address, size)
    {
      var data := memory.GetMem(address, size);
      taskData.SetData(data);
    }
  }

  /** `WriteMemoryTask`: writes the current contents of a shared `TaskData` to the memory at `address`. */
  class WriteMemoryTask {
    const memory: RamToMemAdapter
    const address: int
    const name: string := "WriteMemoryTask"
    const taskData: TaskData
    var result: int

    constructor (memory: RamToMemAdapter, taskData: TaskData, address: int)
      ensures this.memory == memory && this.taskData == taskData && this.address == address
      ensures result == 0
    {
      this.memory := memory;
      this.taskData := taskData;
      this.address := address;
      this.result := 0;
    }

    function GetResult(): (r: int)
      reads this
      ensures r == result
    {
      result
    }

    /** The bytes are those the `TaskData` holds when the task runs; the write's status goes to `result`. */
    method Execute()
      modifies this`result, memory.ram.data
      ensures WriteResult(memory.ram.data[..], result)
           == GuardedCopy(old(memory.ram.data[..]), old(taskData.data), address)
    {
      result := memory.SetMem(taskData.GetData(), address);
    }
  }

  /** `ReadCardTask`: reads `size` units from a card into its own `TaskData`. */
  class ReadCardTask {
    const communicationCard: CommunicationCard
    const size: nat
    const taskData: TaskData

    /** `size` is a `nat`: the Java constructor allocates `new byte[size]`, which throws for a negative size. */
    constructor (communicationCard: CommunicationCard, size: nat)
      ensures this.communicationCard == communicationCard && this.size == size
      ensures fresh(taskData) && taskData.data == ZeroBytes(size)
    {
      this.communicationCard := communicationCard;
      this.size := size;
      this.taskData := new TaskData(ZeroBytes(size));
    }

    function GetTaskData(): (r: TaskData)
      ensures r == taskData
    {
      taskData
    }

    method Execute()
      requires communicationCard.CanGetCom(size)
      modifies taskData
      ensures match communicationCard
        case EthernetCard(a) => taskData.data == EthernetGetCom(a.ethernet.data[..], size)
        case TokenRingCard(a) => taskData.data == TokenRingGetCom(a.tokenRing.data[..], size)
    {
      var data: seq<bv8>;
      match communicationCard {
        case EthernetCard(a) =>
          data := a.GetCom(size);
        case TokenRingCard(a) =>
          data := a.GetCom(size);
      }
      taskData.SetData(data);
    }

    function GetName(): (r: string)
      ensures r == if communicationCard.EthernetCard? then "ReadEthernetTask" else "ReadTokenRingTask"
    {
      "Read" + communicationCard.GetName() + "Task"
    }
  }

  /** `WriteCardTask`: sends the current contents of a shared `TaskData` to a card. */
  class WriteCardTask {
    const communicationCard: CommunicationCard
    const taskData: TaskData
    var result: int

    constructor (communicationCard: CommunicationCard, taskData: TaskData)
      ensures this.communicationCard == communicationCard && this.taskData == taskData
      ensures result == 0
    {
      this.communicationCard := communicationCard;
      this.taskData := taskData;
      this.result := 0;
    }

    function GetName(): (r: string)
      ensures r == if communicationCard.EthernetCard? then "WriteEthernetTask" else "WriteTokenRingTask"
    {
      "Write" + communicationCard.GetName() + "Task"
    }

    function GetResult(): (r: int)
      reads this
      ensures r == result
    {
      result
    }

    method Execute()
      modifies this`result, communicationCard.Device()
      ensures match communicationCard
        case EthernetCard(a) =>
          WriteResult(a.ethernet.data[..], result) == EthernetSetCom(old(a.ethernet.data[..]), old(taskData.data))
        case TokenRingCard(a) =>
          WriteResult(a.tokenRing.data[..], result) == TokenRingSetCom(old(a.tokenRing.data[..]), old(taskData.data))
    {
      match communicationCard
      case EthernetCard(a) =>
        result := a.SetCom(taskData.GetData());
      case TokenRingCard(a) =>
        result := a.SetCom(taskData.GetData());
    }
  }

  /** A task: one of the four leaf commands, or a `CompositeTask` holding an ordered list of tasks. */
  datatype Task =
    | ReadMemory(readMemory: ReadMemoryTask)
    | WriteMemory(writeMemory: WriteMemoryTask)
    | ReadCard(readCard: ReadCardTask)
    | WriteCard(writeCard: WriteCardTask)
    | Composite(tasks: seq<Task>)

  /** `CompositeTask.addTask`: the task goes to the end of the list. */
  function AddTask(composite: Task, task: Task): (r: Task)
    requires composite.Composite?
    ensures r.Composite? && |r.tasks| == |composite.tasks| + 1
    ensures r.tasks[..|composite.tasks|] == composite.tasks && r.tasks[|composite.tasks|] == task
  {
    Composite(composite.tasks + [task])
  }

  /** `CompositeTask.removeTask`: `ArrayList.remove`, which drops the first equal entry. */
  function RemoveTask(composite: Task, task: Task): (r: Task)
    requires composite.Composite?
    ensures r.Composite?
    ensures multiset(r.tasks) == multiset(composite.tasks) - multiset{task}
  {
    RemoveFirstMultiset(composite.tasks, task);
    Composite(RemoveFirst(composite.tasks, task))
  }

  /** Removing a task that was just added and was not there before restores the composite. */
  lemma RemoveUndoesAdd(composite: Task, task: Task)
    requires composite.Composite? && task !in composite.tasks
    ensures RemoveTask(AddTask(composite, task), task) == composite
  {
    var ts := composite.tasks + [task];
    RemoveFirstSpec(ts, task);
    assert FirstIndex(ts, task) == |composite.tasks|;
  }

  /** removeTask drops exactly the first occurrence and keeps the rest in order. */
  lemma RemoveTaskKeepsOrder(composite: Task, task: Task)
    requires composite.Composite?
    ensures task !in composite.tasks ==> RemoveTask(composite, task) == composite
    ensures task in composite.tasks ==>
      var i := FirstIndex(composite.tasks, task);
      RemoveTask(composite, task).tasks == composite.tasks[..i] + composite.tasks[i + 1..]
  {
    RemoveFirstSpec(composite.tasks, task);
  }

  /** `getName()`. */
  function Name(t: Task): string
    decreases t
  {
    match t
    case ReadMemory(rm) => rm.name
    case WriteMemory(wm) => wm.name
    case ReadCard(rc) => rc.GetName()
    case WriteCard(wc) => wc.GetName()
    case Composite(ts) =>
      // the loop of CompositeTask.getName, then `substring(0, length - 1)` and the suffix
      var s := "(" + Spaced(ts);
      s[..|s| - 1] + ") CompositeTask"
  }

  /** A card read task's name is the card's name between "Read" and "Task". */
  lemma ReadCardName(rc: ReadCardTask)
    ensures Name(ReadCard(rc)) == if rc.communicationCard.EthernetCard? then "ReadEthernetTask" else "ReadTokenRingTask"
  {
    var a := Name(ReadCard(rc));
    if rc.communicationCard.EthernetCard? {
      assert a == "Read" + "Ethernet" + "Task";
      assert forall i :: 0 <= i < 16 ==> a[i] == "ReadEthernetTask"[i];
    } else {
      assert a == "Read" + "TokenRing" + "Task";
      assert forall i :: 0 <= i < 17 ==> a[i] == "ReadTokenRingTask"[i];
    }
  }

  /** A card write task's name is the card's name between "Write" and "Task". */
  lemma WriteCardName(wc: WriteCardTask)
    ensures Name(WriteCard(wc)) == if wc.communicationCard.EthernetCard? then "WriteEthernetTask" else "WriteTokenRingTask"
  {
    var b := Name(WriteCard(wc));
    if wc.communicationCard.EthernetCard? {
      assert b == "Write" + "Ethernet" + "Task";
      assert forall i :: 0 <= i < 17 ==> b[i] == "WriteEthernetTask"[i];
    } else {
      assert b == "Write" + "TokenRing" + "Task";
      assert forall i :: 0 <= i < 18 ==> b[i] == "WriteTokenRingTask"[i];
    }
  }

  /** Each task's name followed by a space, in list order. */
  function Spaced(ts: seq<Task>): string
    decreases ts
  {
    if ts == [] then "" else Spaced(ts[..|ts| - 1]) + Name(ts[|ts| - 1]) + " "
  }

  /** The names of a list of tasks. */
  function Names(ts: seq<Task>): (r: seq<string>)
    ensures |r| == |ts| && forall i :: 0 <= i < |ts| ==> r[i] == Name(ts[i])
  {
    if ts == [] then [] else Names(ts[..|ts| - 1]) + [Name(ts[|ts| - 1])]
  }

  /** Strings joined with single spaces between them. */
  function Join(ss: seq<string>): string
  {
    if ss == [] then ""
    else if |ss| == 1 then ss[0]
    else Join(ss[..|ss| - 1]) + " " + ss[|ss| - 1]
  }

  lemma {:induction false} SpacedIsJoin(ts: seq<Task>)
    requires ts != []
    ensures Spaced(ts) == Join(Names(ts)) + " "
  {
    var init := ts[..|ts| - 1];
    assert Names(ts)[..|ts| - 1] == Names(init);
    if init != [] {
      SpacedIsJoin(init);
    }
  }

  /**
   * A composite's name is its children's names, space-separated, in parentheses,
   * followed by " CompositeTask"; an empty composite is named ") CompositeTask",
   * because the trailing-space removal takes off the "(" instead.
   */
  lemma CompositeName(ts: seq<Task>)
    ensures ts == [] ==> Name(Composite(ts)) == ") CompositeTask"
    ensures ts != [] ==> Name(Composite(ts)) == "(" + Join(Names(ts)) + ") CompositeTask"
  {
    if ts != [] {
      SpacedIsJoin(ts);
      var s := "(" + Spaced(ts);
      assert s == "(" + Join(Names(ts)) + " ";
      assert s[..|s| - 1] == "(" + Join(Names(ts));
    }
  }

  /** `getName()` of every task class, computed as Java does it. */
  method GetName(t: Task) returns (name: string)
    ensures name == Name(t)
    decreases t, 1
  {
    match t
    case ReadMemory(rm) =>
      name := rm.name;
    case WriteMemory(wm) =>
      name := wm.name;
    case ReadCard(rc) =>
      name := rc.GetName();
    case WriteCard(wc) =>
      name := wc.GetName();
    case Composite(ts) =>
      name := GetCompositeName(ts);
  }

  /** One more child's name and its space. */
  lemma SpacedStep(ts: seq<Task>, i: nat, prefix: string)
    requires i < |ts|
    ensures prefix + Spaced(ts[..i]) + Name(ts[i]) + " " == prefix + Spaced(ts[..i + 1])
  {
    TakeTake(ts, i, i + 1);
  }

  /** `CompositeTask.getName()`: each child's name and a space, then the last character dropped. */
  method GetCompositeName(ts: seq<Task>) returns (name: string)
    ensures name == Name(Composite(ts))
    decreases ts, 0
  {
    name := "(";
    for i := 0 to |ts|
      invariant name == "(" + Spaced(ts[..i])
    {
      var child := GetName(ts[i]);
      SpacedStep(ts, i, "(");
      name := name + child + " ";
    }
    TakeAll(ts);
    name := name[..|name| - 1];
    name := name + ") CompositeTask";
  }

  /** The state a task can observe or change: device arrays, shared buffers and write results. */
  datatype World = World(
    rams: map<array<bv8>, seq<bv8>>,
    ethernets: map<array<Option<bv8>>, seq<Option<bv8>>>,
    tokenRings: map<array<bv32>, seq<bv32>>,
    cells: map<TaskData, seq<bv8>>,
    memoryResults: map<WriteMemoryTask, int>,
    cardResults: map<WriteCardTask, int>)

  /** The objects a `World` describes. */
  datatype Domain = Domain(
    rams: set<array<bv8>>,
    ethernets: set<array<Option<bv8>>>,
    tokenRings: set<array<bv32>>,
    cells: set<TaskData>,
    memoryWriters: set<WriteMemoryTask>,
    cardWriters: set<WriteCardTask>)

  function Keys(w: World): Domain
  {
    Domain(w.rams.Keys, w.ethernets.Keys, w.tokenRings.Keys, w.cells.Keys, w.memoryResults.Keys, w.cardResults.Keys)
  }

  /** Every device's contents have the length of its array. */
  ghost predicate Consistent(w: World)
  {
    (forall a :: a in w.rams ==> |w.rams[a]| == a.Length) &&
    (forall a :: a in w.ethernets ==> |w.ethernets[a]| == a.Length) &&
    (forall a :: a in w.tokenRings ==> |w.tokenRings[a]| == a.Length)
  }

  /** The current state of the objects of `d`. */
  ghost function Snapshot(d: Domain): (w: World)
    reads d.rams, d.ethernets, d.tokenRings, d.cells, d.memoryWriters, d.cardWriters
    ensures Keys(w) == d && Consistent(w)
  {
    World(Contents(d.rams), Contents(d.ethernets), Contents(d.tokenRings),
          CellContents(d.cells), MemoryResults(d.memoryWriters), CardResults(d.cardWriters))
  }

  /** The contents of every array in `s`, whatever its element type. */
  ghost function Contents<T>(s: set<array<T>>): (m: map<array<T>, seq<T>>)
    reads s
    ensures m.Keys == s
  {
    map a | a in s :: a[..]
  }

  ghost function CellContents(s: set<TaskData>): (m: map<TaskData, seq<bv8>>)
    reads s
    ensures m.Keys == s
  {
    map c | c in s :: c.data
  }

  // `MemoryResults` and `CardResults` stay apart: the two writer classes share no supertype without traits.
  ghost function MemoryResults(s: set<WriteMemoryTask>): (m: map<WriteMemoryTask, int>)
    reads s
    ensures m.Keys == s
  {
    map t | t in s :: t.result
  }

  ghost function CardResults(s: set<WriteCardTask>): (m: map<WriteCardTask, int>)
    reads s
    ensures m.Keys == s
  {
    map t | t in s :: t.result
  }

  predicate CardWithin(card: CommunicationCard, d: Domain)
  {
    match card
    case EthernetCard(a) => a.ethernet.data in d.ethernets
    case TokenRingCard(a) => a.tokenRing.data in d.tokenRings
  }

  /** Every object the task reads or writes is described by `d`. */
  predicate Within(t: Task, d: Domain)
    decreases t
  {
    match t
    case ReadMemory(rm) => rm.memory.ram.data in d.rams && rm.taskData in d.cells
    case WriteMemory(wm) => wm.memory.ram.data in d.rams && wm.taskData in d.cells && wm in d.memoryWriters
    case ReadCard(rc) => CardWithin(rc.communicationCard, d) && rc.taskData in d.cells
    case WriteCard(wc) => CardWithin(wc.communicationCard, d) && wc.taskData in d.cells && wc in d.cardWriters
    case Composite(ts) => forall i :: 0 <= i < |ts| ==> Within(ts[i], d)
  }

  /**
   * Every read in the task stays inside its device. Reads are not bounds-checked
   * in `get`, `read` and `receive` (an out-of-range read throws), so this is what a caller must
   * ensure. It depends only on capacities, which never change.
   */
  predicate Readable(t: Task)
    decreases t
  {
    match t
    case ReadMemory(rm) => CanGet(rm.memory.ram.data.Length, rm.address, rm.size)
    case WriteMemory(_) => true
    case ReadCard(rc) => rc.communicationCard.CanGetCom(rc.size)
    case WriteCard(_) => true
    case Composite(ts) => forall i :: 0 <= i < |ts| ==> Readable(ts[i])
  }

  /** The bytes `getCom(size)` returns from `card` in world `w`. */
  function Received(card: CommunicationCard, size: int, w: World): seq<bv8>
    requires CardWithin(card, Keys(w)) && card.CanGetCom(size) && Consistent(w)
  {
    match card
    case EthernetCard(a) => EthernetGetCom(w.ethernets[a.ethernet.data], size)
    case TokenRingCard(a) => TokenRingGetCom(w.tokenRings[a.tokenRing.data], size)
  }

  /** `ReadMemoryTask.execute()`: the RAM bytes go into the task's own buffer. */
  function ReadMemoryStep(rm: ReadMemoryTask, w: World): (r: World)
    requires rm.memory.ram.data in w.rams && rm.taskData in w.cells
    requires CanGet(|w.rams[rm.memory.ram.data]|, rm.address, rm.size)
    ensures Keys(r) == Keys(w) && (Consistent(w) ==> Consistent(r))
  {
    w.(cells := w.cells[rm.taskData := RamGet(w.rams[rm.memory.ram.data], rm.address, rm.size)])
  }

  /** `WriteMemoryTask.execute()`: the buffer's bytes go to the RAM and the status to `result`. */
  function WriteMemoryStep(wm: WriteMemoryTask, w: World): (r: World)
    requires wm.memory.ram.data in w.rams && wm.taskData in w.cells && wm in w.memoryResults
    ensures Keys(r) == Keys(w) && (Consistent(w) ==> Consistent(r))
  {
    var a := wm.memory.ram.data;
    var out := GuardedCopy(w.rams[a], w.cells[wm.taskData], wm.address);
    w.(rams := w.rams[a := out.contents], memoryResults := w.memoryResults[wm := out.status])
  }

  /** `ReadCardTask.execute()`: the card's bytes go into the task's own buffer. */
  function ReadCardStep(rc: ReadCardTask, w: World): (r: World)
    requires CardWithin(rc.communicationCard, Keys(w)) && rc.taskData in w.cells
    requires rc.communicationCard.CanGetCom(rc.size) && Consistent(w)
    ensures Keys(r) == Keys(w) && (Consistent(w) ==> Consistent(r))
  {
    w.(cells := w.cells[rc.taskData := Received(rc.communicationCard, rc.size, w)])
  }

  /** `WriteCardTask.execute()`: `setCom` of the buffer's bytes, the status going to `result`. */
  function WriteCardStep(wc: WriteCardTask, w: World): (r: World)
    requires CardWithin(wc.communicationCard, Keys(w)) && wc.taskData in w.cells && wc in w.cardResults
    ensures Keys(r) == Keys(w) && (Consistent(w) ==> Consistent(r))
  {
    var bytes := w.cells[wc.taskData];
    match wc.communicationCard
    case EthernetCard(e) =>
      var a := e.ethernet.data;
      var out := EthernetSetCom(w.ethernets[a], bytes);
      w.(ethernets := w.ethernets[a := out.contents], cardResults := w.cardResults[wc := out.status])
    case TokenRingCard(tr) =>
      var a := tr.tokenRing.data;
      var out := TokenRingSetCom(w.tokenRings[a], bytes);
      w.(tokenRings := w.tokenRings[a := out.contents], cardResults := w.cardResults[wc := out.status])
  }

  /** What `execute()` does to the world. */
  function Run(t: Task, w: World): (r: World)
    requires Within(t, Keys(w)) && Readable(t) && Consistent(w)
    ensures Keys(r) == Keys(w) && Consistent(r)
    decreases t
  {
    match t
    case ReadMemory(rm) => ReadMemoryStep(rm, w)
    case WriteMemory(wm) => WriteMemoryStep(wm, w)
    case ReadCard(rc) => ReadCardStep(rc, w)
    case WriteCard(wc) => WriteCardStep(wc, w)
    case Composite(ts) => RunAll(ts, w)
  }

  /** The children of a composite run one after the other, each exactly once, whatever their results. */
  function RunAll(ts: seq<Task>, w: World): (r: World)
    requires AllRunnable(ts, Keys(w)) && Consistent(w)
    ensures Keys(r) == Keys(w) && Consistent(r)
    decreases ts
  {
    if ts == [] then w else Run(ts[|ts| - 1], RunAll(ts[..|ts| - 1], w))
  }

  /** Every task of the list stays inside `d` and reads only what its devices hold. */
  predicate AllRunnable(ts: seq<Task>, d: Domain)
  {
    forall i :: 0 <= i < |ts| ==> Within(ts[i], d) && Readable(ts[i])
  }

  lemma AllRunnableAppend(a: seq<Task>, b: seq<Task>, d: Domain)
    ensures AllRunnable(a + b, d) <==> AllRunnable(a, d) && AllRunnable(b, d)
  {
    assert forall i :: 0 <= i < |a| ==> a[i] == (a + b)[i];
    assert forall i :: 0 <= i < |b| ==> b[i] == (a + b)[|a| + i];
  }

  /** Running `a + b` is running `a` and then `b`: no child is skipped, repeated or reordered. */
  lemma {:induction false} RunAllSplit(a: seq<Task>, b: seq<Task>, w: World)
    requires AllRunnable(a, Keys(w)) && AllRunnable(b, Keys(w)) && Consistent(w)
    ensures AllRunnable(a + b, Keys(w))
    ensures RunAll(a + b, w) == RunAll(b, RunAll(a, w))
  {
    AllRunnableAppend(a, b, Keys(w));
    if b == [] {
      AppendNothing(a);
    } else {
      var b' := b[..|b| - 1];
      AllRunnableTake(b, |b| - 1, Keys(w));
      InitOfAppend(a, b);
      RunAllSplit(a, b', w);
    }
  }

  /** The composite reaches child `k` in the state its predecessors left, and goes on from there. */
  lemma RunAllAt(ts: seq<Task>, k: nat, w: World)
    requires AllRunnable(ts, Keys(w)) && Consistent(w) && k < |ts|
    ensures AllRunnable(ts[..k], Keys(w)) && Within(ts[k], Keys(w)) && Readable(ts[k])
    ensures AllRunnable(ts[k + 1..], Keys(w))
    ensures RunAll(ts, w) == RunAll(ts[k + 1..], Run(ts[k], RunAll(ts[..k], w)))
  {
    var front, back := ts[..k + 1], ts[k + 1..];
    AllRunnableTake(ts, k + 1, Keys(w));
    AllRunnableTake(ts, k, Keys(w));
    AllRunnableDrop(ts, k + 1, Keys(w));
    TakeTake(ts, k, k + 1);
    assert RunAll(front, w) == Run(ts[k], RunAll(ts[..k], w));
    RunAllSplit(front, back, w);
    TakeDrop(ts, k + 1);
  }

  /** Every prefix of a runnable list is runnable. */
  lemma AllRunnableTake(ts: seq<Task>, n: nat, d: Domain)
    requires AllRunnable(ts, d) && n <= |ts|
    ensures AllRunnable(ts[..n], d)
  {
    assert forall i :: 0 <= i < n ==> ts[..n][i] == ts[i];
  }

  /** Every suffix of a runnable list is runnable. */
  lemma AllRunnableDrop(ts: seq<Task>, n: nat, d: Domain)
    requires AllRunnable(ts, d) && n <= |ts|
    ensures AllRunnable(ts[n..], d)
  {
    assert forall i :: 0 <= i < |ts| - n ==> ts[n..][i] == ts[n + i];
  }

  /**
   * A failing write does not stop the composite: whatever status the write of
   * child `k` returns, -1 included, is recorded in its `result`, and the
   * children after it still run, from the state it left.
   */
  lemma FailureDoesNotStop(ts: seq<Task>, k: nat, wm: WriteMemoryTask, w: World)
    requires AllRunnable(ts, Keys(w)) && Consistent(w)
    requires k < |ts| && ts[k] == WriteMemory(wm)
    ensures AllRunnable(ts[..k], Keys(w)) && AllRunnable(ts[k + 1..], Keys(w))
    ensures
      var before := RunAll(ts[..k], w);
      var after := WriteMemoryStep(wm, before);
      var write := GuardedCopy(before.rams[wm.memory.ram.data], before.cells[wm.taskData], wm.address);
      after.memoryResults[wm] == write.status && RunAll(ts, w) == RunAll(ts[k + 1..], after)
  {
    RunAllAt(ts, k, w);
    var before := RunAll(ts[..k], w);
    assert Run(ts[k], before) == WriteMemoryStep(wm, before);
  }

  /** A composite of two tasks runs the first, then the second. */
  lemma RunPair(a: Task, b: Task, w: World)
    requires Within(a, Keys(w)) && Readable(a) && Within(b, Keys(w)) && Readable(b) && Consistent(w)
    ensures AllRunnable([a, b], Keys(w))
    ensures RunAll([a, b], w) == Run(b, Run(a, w))
  {
    RunOne(a, w);
    RunOne(b, Run(a, w));
    RunAllSplit([a], [b], w);
    PairAppend(a, b);
  }

  /** A composite of one task runs that task. */
  lemma RunOne(t: Task, w: World)
    requires Within(t, Keys(w)) && Readable(t) && Consistent(w)
    ensures AllRunnable([t], Keys(w))
    ensures RunAll([t], w) == Run(t, w)
  {
    assert [t][..0] == [];
  }

  /**
   * Chaining through a shared `TaskData`: a card read followed by a memory write
   * on the same buffer writes exactly the bytes the read returned.
   */
  lemma ReaderFeedsWriter(rc: ReadCardTask, wm: WriteMemoryTask, w: World)
    requires wm.taskData == rc.taskData
    requires Within(ReadCard(rc), Keys(w)) && Readable(ReadCard(rc))
    requires Within(WriteMemory(wm), Keys(w)) && Consistent(w)
    ensures AllRunnable([ReadCard(rc), WriteMemory(wm)], Keys(w))
    ensures
      var r := RunAll([ReadCard(rc), WriteMemory(wm)], w);
      var out := GuardedCopy(w.rams[wm.memory.ram.data], Received(rc.communicationCard, rc.size, w), wm.address);
      r.rams[wm.memory.ram.data] == out.contents && r.memoryResults[wm] == out.status
  {
    RunPair(ReadCard(rc), WriteMemory(wm), w);
  }

  /** The objects whose state `Execute` may change. */
  ghost function Footprint(d: Domain): set<object>
  {
    var rams: set<object> := d.rams;
    var ethernets: set<object> := d.ethernets;
    var tokenRings: set<object> := d.tokenRings;
    var cells: set<object> := d.cells;
    var memoryWriters: set<object> := d.memoryWriters;
    var cardWriters: set<object> := d.cardWriters;
    rams + ethernets + tokenRings + cells + memoryWriters + cardWriters
  }

  /**
   * Device arrays of different kinds are different objects. Java's types
   * guarantee this; Dafny's heap model does not tell an array of a datatype
   * apart from an array of bit-vectors, so it is stated here.
   */
  ghost predicate Separate(d: Domain)
  {
    (forall a, e | a in d.rams && e in d.ethernets :: (a as object) != (e as object)) &&
    (forall r, e | r in d.tokenRings && e in d.ethernets :: (r as object) != (e as object))
  }

  /** `execute()`: the heap changes exactly as `Run` describes. */
  method Execute(t: Task, ghost d: Domain)
    requires Within(t, d) && Readable(t)
    requires Separate(d)
    modifies Footprint(d)
    ensures Snapshot(d) == Run(t, old(Snapshot(d)))
    decreases t, 1
  {
    match t
    case ReadMemory(rm) =>
      ExecuteReadMemory(rm, d);
    case WriteMemory(wm) =>
      ExecuteWriteMemory(wm, d);
    case ReadCard(rc) =>
      ExecuteReadCard(rc, d);
    case WriteCard(wc) =>
      if wc.communicationCard.EthernetCard? {
        ExecuteWriteEthernet(wc, d);
      } else {
        ExecuteWriteTokenRing(wc, d);
      }
    case Composite(ts) =>
      ExecuteAll(ts, d);
  }

  /** `CompositeTask.execute()`: each child's `execute()` in list order. */
  method ExecuteAll(ts: seq<Task>, ghost d: Domain)
    requires AllRunnable(ts, d) && Separate(d)
    modifies Footprint(d)
    ensures Snapshot(d) == RunAll(ts, old(Snapshot(d)))
    decreases ts, 0
  {
    for i := 0 to |ts|
      invariant Snapshot(d) == RunAll(ts[..i], old(Snapshot(d)))
    {
      TakeTake(ts, i, i + 1);
      Execute(ts[i], d);
    }
    TakeAll(ts);
  }

  /** None of the objects of `d` changed. */
  twostate predicate Untouched(d: Domain)
    reads d.rams, d.ethernets, d.tokenRings, d.cells, d.memoryWriters, d.cardWriters
  {
    unchanged(d.rams) && unchanged(d.ethernets) && unchanged(d.tokenRings) &&
    unchanged(d.cells) && unchanged(d.memoryWriters) && unchanged(d.cardWriters)
  }

  /** A step that changed none of the objects of `d` left their snapshot as it was. */
  twostate lemma SnapshotKept(d: Domain)
    requires Untouched(d)
    ensures Snapshot(d) == old(Snapshot(d))
  {
  }

  /** A step that changed only the buffer `c`. */
  twostate lemma BufferFilled(d: Domain, new c: TaskData)
    requires c in d.cells
    requires unchanged(d.rams) && unchanged(d.ethernets) && unchanged(d.tokenRings)
    requires unchanged(d.memoryWriters) && unchanged(d.cardWriters)
    requires forall x :: x in d.cells && x != c ==> unchanged(x)
    ensures Snapshot(d) == old(Snapshot(d)).(cells := old(Snapshot(d)).cells[c := c.data])
  {
    assert CellContents(d.cells) == old(CellContents(d.cells))[c := c.data];
  }

  /** A step that changed only the RAM array `a` and the result of `wm`. */
  twostate lemma MemoryWritten(d: Domain, new a: array<bv8>, new wm: WriteMemoryTask)
    requires a in d.rams && wm in d.memoryWriters
    requires unchanged(d.ethernets) && unchanged(d.tokenRings) && unchanged(d.cells) && unchanged(d.cardWriters)
    requires forall x :: x in d.rams && x != a ==> unchanged(x)
    requires forall x :: x in d.memoryWriters && x != wm ==> unchanged(x)
    ensures Snapshot(d) == old(Snapshot(d)).(rams := old(Snapshot(d)).rams[a := a[..]],
      memoryResults := old(Snapshot(d)).memoryResults[wm := wm.result])
  {
    forall x | x in d.rams && x != a
      ensures x[..] == old(x[..])
    {
      assert forall i :: 0 <= i < x.Length ==> x[i] == old(x[i]);
    }
    assert Contents(d.rams) == old(Contents(d.rams))[a := a[..]];
    assert MemoryResults(d.memoryWriters) == old(MemoryResults(d.memoryWriters))[wm := wm.result];
  }

  /** A step that changed only the Ethernet array `a` and the result of `wc`. */
  twostate lemma EthernetWritten(d: Domain, new a: array<Option<bv8>>, new wc: WriteCardTask)
    requires a in d.ethernets && wc in d.cardWriters
    requires unchanged(d.rams) && unchanged(d.tokenRings) && unchanged(d.cells) && unchanged(d.memoryWriters)
    requires forall x :: x in d.ethernets && x != a ==> unchanged(x)
    requires forall x :: x in d.cardWriters && x != wc ==> unchanged(x)
    ensures Snapshot(d) == old(Snapshot(d)).(ethernets := old(Snapshot(d)).ethernets[a := a[..]],
      cardResults := old(Snapshot(d)).cardResults[wc := wc.result])
  {
    forall x | x in d.ethernets && x != a
      ensures x[..] == old(x[..])
    {
      assert forall i :: 0 <= i < x.Length ==> x[i] == old(x[i]);
    }
    assert Contents(d.ethernets) == old(Contents(d.ethernets))[a := a[..]];
    assert CardResults(d.cardWriters) == old(CardResults(d.cardWriters))[wc := wc.result];
  }

  /** A step that changed only the TokenRing array `a` and the result of `wc`. */
  twostate lemma TokenRingWritten(d: Domain, new a: array<bv32>, new wc: WriteCardTask)
    requires a in d.tokenRings && wc in d.cardWriters
    requires unchanged(d.rams) && unchanged(d.ethernets) && unchanged(d.cells) && unchanged(d.memoryWriters)
    requires forall x :: x in d.tokenRings && x != a ==> unchanged(x)
    requires forall x :: x in d.cardWriters && x != wc ==> unchanged(x)
    ensures Snapshot(d) == old(Snapshot(d)).(tokenRings := old(Snapshot(d)).tokenRings[a := a[..]],
      cardResults := old(Snapshot(d)).cardResults[wc := wc.result])
  {
    forall x | x in d.tokenRings && x != a
      ensures x[..] == old(x[..])
    {
      assert forall i :: 0 <= i < x.Length ==> x[i] == old(x[i]);
    }
    assert Contents(d.tokenRings) == old(Contents(d.tokenRings))[a := a[..]];
    assert CardResults(d.cardWriters) == old(CardResults(d.cardWriters))[wc := wc.result];
  }

  method ExecuteReadMemory(rm: ReadMemoryTask, ghost d: Domain)
    requires Within(ReadMemory(rm), d) && Readable(ReadMemory(rm))
    modifies Footprint(d)
    ensures Snapshot(d) == ReadMemoryStep(rm, old(Snapshot(d)))
  {
    rm.Execute();
    BufferFilled(d, rm.taskData);
  }

  method ExecuteWriteMemory(wm: WriteMemoryTask, ghost d: Domain)
    requires Within(WriteMemory(wm), d)
    requires Separate(d)
    modifies Footprint(d)
    ensures Snapshot(d) == WriteMemoryStep(wm, old(Snapshot(d)))
  {
    wm.Execute();
    MemoryWritten(d, wm.memory.ram.data, wm);
  }

  method ExecuteReadCard(rc: ReadCardTask, ghost d: Domain)
    requires Within(ReadCard(rc), d) && Readable(ReadCard(rc))
    modifies Footprint(d)
    ensures Snapshot(d) == ReadCardStep(rc, old(Snapshot(d)))
  {
    rc.Execute();
    BufferFilled(d, rc.taskData);
  }

  method ExecuteWriteEthernet(wc: WriteCardTask, ghost d: Domain)
    requires Within(WriteCard(wc), d) && wc.communicationCard.EthernetCard?
    requires Separate(d)
    modifies Footprint(d)
    ensures Snapshot(d) == WriteCardStep(wc, old(Snapshot(d)))
  {
    wc.Execute();
    EthernetWritten(d, wc.communicationCard.ethernetAdapter.ethernet.data, wc);
  }

  method ExecuteWriteTokenRing(wc: WriteCardTask, ghost d: Domain)
    requires Within(WriteCard(wc), d) && wc.communicationCard.TokenRingCard?
    requires Separate(d)
    modifies Footprint(d)
    ensures Snapshot(d) == WriteCardStep(wc, old(Snapshot(d)))
  {
    wc.Execute();
    TokenRingWritten(d, wc.communicationCard.tokenRingAdapter.tokenRing.data, wc);
  }

  /** `TaskQueue`: a FIFO of tasks. */
  class TaskQueue {
    var queue: seq<Task>

    constructor ()
      ensures queue == []
    {
      queue := [];
    }

    method AddTask(task: Task)
      modifies this
      ensures queue == old(queue) + [task]
    {
      queue := queue + [task];
    }

    /** `getNextTask`: `LinkedList.poll`, which yields `null` on an empty queue. */
    method GetNextTask() returns (task: Option<Task>)
      modifies this
      ensures old(queue) == [] ==> task == None && queue == []
      ensures old(queue) != [] ==> task == Some(old(queue)[0]) && queue == old(queue)[1..]
    {
      if queue == [] {
        task := None;
      } else {
        task := Some(queue[0]);
        queue := queue[1..];
      }
    }
  }

  /** Tasks come out of an empty queue in the order they went in, and then the queue is empty again. */
  method QueueIsFifo(q: TaskQueue, a: Task, b: Task) returns (first: Option<Task>, second: Option<Task>, third: Option<Task>)
    requires q.queue == []
    modifies q
    ensures first == Some(a) && second == Some(b) && third == None && q.queue == []
  {
    q.AddTask(a);
    q.AddTask(b);
    first := q.GetNextTask();
    second := q.GetNextTask();
    third := q.GetNextTask();
  }

  /** The static `TaskQueue.instance` field, held by an object the caller passes around. */
  class TaskQueueRegistry {
    var instance: TaskQueue?

    constructor ()
      ensures instance == null
    {
      instance := null;
    }

    /** `TaskQueue.getInstance()`: creates the queue on the first call and returns that same queue ever after. */
    method GetInstance() returns (q: TaskQueue)
      modifies this
      ensures old(instance) == null ==> fresh(q) && q.queue == []
      ensures old(instance) != null ==> q == old(instance)
      ensures instance == q
    {
      if instance == null {
        instance := new TaskQueue();
      }
      q := instance;
    }
  }

  /** Two calls of `getInstance` give the same queue. */
  method InstanceIsShared(r: TaskQueueRegistry) returns (q1: TaskQueue, q2: TaskQueue)
    modifies r
    ensures q1 == q2
  {
    q1 := r.GetInstance();
    q2 := r.GetInstance();
  }
}
