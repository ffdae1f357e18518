# Devices, tasks and threads: a verified model

This project models the core of a small Java simulation of a computer system built from design patterns.

- **Devices.** There are three fixed-capacity devices:
  - a RAM of bytes;
  - an Ethernet card of nullable `Byte` slots;
  - a TokenRing card of 32-bit words.
  Each write is bounds-checked and returns `0` or `-1`.
- **Adapters.** Adapters give the devices a `Memory` or `CommunicationCard` interface. The TokenRing adapter converts bytes to and from big-endian words.
- **Tasks.** Tasks are commands that read from or write to those interfaces. They pass bytes along through a shared `TaskData` buffer.
- **Composite.** A composite task runs its children in order.
- **Queue.** A FIFO `TaskQueue` hands tasks to `Thread`s.
- **Threads.** A thread fetches a task, executes it, notifies its observers, and drops the task.
- **Log.** The only observer is the `SystemEventLog`, an append-only text log.

The files are:

- `basics.dfy`: `Option`, zero-filled byte sequences, and `ArrayList.remove` on sequences.
- `devices.dfy`: `ConcreteRam`, `ConcreteEthernet` and `ConcreteTokenRing` as classes over arrays. Their copy loops are proved against pure functions (`GuardedCopy`, `TokenRingSend`). These functions keep the partial copy that an overflowing write leaves behind.
- `codec.dfy`: the byte/word codec as pure functions (`Encode`, `Decode`), with both round-trip laws.
- `adapters.dfy`: the three adapters, including the imperative `intArrayToByteArray` and `byteArrayToIntArray` with their cursor and `temp` buffer.
- `tasks.dfy`:
  - the task classes and the `Task` datatype, with the composite as a list of children;
  - names;
  - the `World`/`Run` description of what `execute()` does, and the imperative `Execute` proved against it;
  - the queue.
- `eventlog.dfy`: the `SystemEventLog` class and the lines it accumulates.
- `threads.dfy`: `Thread` and its template method `Run`, the observer list, and the lazily creating `ConcreteProcess` and `ConcreteCPU`.
- `client.dfy`: the scenario of `Client.main`. This covers:
  - the devices, tasks, queue, threads and log being wired up;
  - both threads running;
  - the final device contents and log being proved.

Java bytes and ints are bit patterns here (`bv8`, `bv32`). A never-written Ethernet slot (`null`) is `None`.

## Model

| member | source | states |
|---|---|---|
| Basics.RemoveFirst | src/Thread.java:139-141 | `ArrayList.remove(Object)` as `detach` and `removeTask` (src/Task.java:148-150) use it: one element fewer exactly when `x` is present. `RemoveFirstSpec` and `RemoveFirstMultiset` state which element goes and that the order of the rest is kept |
| Basics.RemoveFirstSpec | src/Thread.java:139-141 | with no `x`, the list is unchanged; otherwise exactly the element at the first index of `x` is dropped and the rest keep their order |
| Basics.RemoveFirstMultiset | src/Thread.java:139-141 | exactly one copy of `x`, if there is one, is removed and nothing else |
| Devices.Overwrite | src/CommunicationCard.java:27-38 | the array after an element-by-element copy from `offset`: index j holds `src[j - offset]` when the copy reached it, and otherwise keeps its old value |
| Devices.GuardedCopy | src/CommunicationCard.java:27-38 | the copy loop inside `try`/`catch` shared by `set` and `write` (the latter at offset 0, lines 217-229): the array keeps its length and the status is 0 or -1; `CopyInBounds`, `CopyOverflow`, `CopyNegativeOffset`, `CopyPastEnd` and `CopyEmpty` state when each occurs and what is written |
| Devices.CopyInBounds | src/CommunicationCard.java:27-33 | a write that fits returns 0, puts the data at the address, and leaves the bytes before and after it unchanged |
| Devices.CopyOverflow | src/CommunicationCard.java:27-38 | a write that runs past the end returns -1 and is not all-or-nothing: indices before the address are unchanged, and indices from the address to the end hold the matching prefix of the data |
| Devices.CopyNegativeOffset | src/CommunicationCard.java:27-38 | a non-empty write at a negative address fails at once and changes nothing |
| Devices.CopyPastEnd | src/CommunicationCard.java:27-38 | a non-empty write whose address is past the end fails at its first index, returns -1 and changes nothing |
| Devices.CopyEmpty | src/CommunicationCard.java:27-38 | an empty write never enters the loop: it returns 0 and changes nothing, at any address |
| Devices.RamGet | src/CommunicationCard.java:19-25 | `get(address, size)` returns `size` bytes, byte i being `data[address + i]` |
| Devices.TokenRingSend | src/CommunicationCard.java:253-265 | `send(d, size)` copies the words of `d` below both `size` and the capacity, and returns 0 exactly when `size` fits both `d` and the device (otherwise -1) |
| Devices.ConcreteRam.Default | src/CommunicationCard.java:13-15 | a new RAM holds 1024 zero bytes |
| Devices.ConcreteRam.constructor | src/CommunicationCard.java:16-18 | a new RAM of `size` zero bytes |
| Devices.ConcreteRam.Get | src/CommunicationCard.java:19-25 | the loop returns exactly `RamGet` of the contents; reads are unchecked, so the bounds are a precondition |
| Devices.ConcreteRam.Set | src/CommunicationCard.java:27-39 | the new contents and the status are those `GuardedCopy` gives for the old contents, with the exception caught at the first index outside the array |
| Devices.ConcreteEthernet.Default | src/CommunicationCard.java:193-195 | a new Ethernet has 1024 empty slots |
| Devices.ConcreteEthernet.constructor | src/CommunicationCard.java:196-198 | a new Ethernet has `size` empty slots |
| Devices.ConcreteEthernet.Read | src/CommunicationCard.java:201-208 | returns the first `size` slots, from index 0 |
| Devices.ConcreteEthernet.Write | src/CommunicationCard.java:217-229 | the new slots and the status are `GuardedCopy` at offset 0 |
| Devices.ConcreteTokenRing.Default | src/CommunicationCard.java:239-241 | a new TokenRing holds 1024 zero words |
| Devices.ConcreteTokenRing.constructor | src/CommunicationCard.java:242-244 | a new TokenRing of `size` zero words |
| Devices.ConcreteTokenRing.Receive | src/CommunicationCard.java:245-251 | returns the first `size` words, from index 0 |
| Devices.ConcreteTokenRing.Send | src/CommunicationCard.java:253-265 | the new words and the status are `TokenRingSend` of the old words |
| Codec.WordBytesInverse | src/CommunicationCard.java:90-116 | reading back the four big-endian bytes that `putInt` writes gives the word back |
| Codec.WordBytes | src/CommunicationCard.java:91 | `putInt` writes a word as exactly four bytes, most significant first |
| Codec.BigEndianWord | src/CommunicationCard.java:114-116 | the word `getInt` reads from four bytes is the one whose big-endian bytes are exactly those four |
| Codec.Encode | src/CommunicationCard.java:83-95 | the encoding of w words has 4·w bytes |
| Codec.EncodeAt | src/CommunicationCard.java:83-95 | bytes 4i..4i+3 of the encoding are word i, most significant byte first |
| Codec.EncodeAppend | src/CommunicationCard.java:90-92 | encoding word by word: the encoding of a concatenation is the concatenation of the encodings |
| Codec.PadTail | src/CommunicationCard.java:112-113 | a ragged tail copied into the start of a zeroed 4-byte buffer fills exactly four bytes |
| Codec.Decode | src/CommunicationCard.java:97-121 | decoding b bytes gives ceil(b/4) words, so an empty input gives no words |
| Codec.DecodeFullGroup | src/CommunicationCard.java:110-117 | every full group of four bytes becomes one word, read big-endian |
| Codec.DecodeTail | src/CommunicationCard.java:111-114 | a partial last group becomes the last word: its bytes sit in the high-order end and the low-order bytes are zero |
| Codec.DecodeEncode | src/CommunicationCard.java:83-121 | `byteArrayToIntArray(intArrayToByteArray(w)) == w` |
| Codec.EncodeDecode | src/CommunicationCard.java:83-121 | `intArrayToByteArray(byteArrayToIntArray(b))` is `b` followed by zeros up to the next multiple of 4 |
| Codec.TailExample | src/CommunicationCard.java:111-114 | `[9]` becomes `0x09000000`, and the scenario's nine bytes become `0x01020304, 0x05060708, 0x09000000` |
| Adapters.RamToMemAdapter.constructor | src/CommunicationCard.java:171-173 | the adapter wraps the given RAM |
| Adapters.RamToMemAdapter.GetMem | src/CommunicationCard.java:175-177 | `getMem` returns what the RAM's `get` returns |
| Adapters.RamToMemAdapter.SetMem | src/CommunicationCard.java:180-182 | `setMem` has the RAM's `set` effect and status |
| Adapters.Unboxed | src/CommunicationCard.java:132-146 | every slot becomes a byte: a written slot gives its byte and a `null` slot gives 0 |
| Adapters.Boxed | src/CommunicationCard.java:149-154 | every byte is boxed into a non-null slot, in order |
| Adapters.EthernetSetCom | src/CommunicationCard.java:149-155 | `setCom(d)` succeeds exactly when `d` fits the card; the first slots then hold `d`, and the rest keep their contents |
| Adapters.EthernetGetCom | src/CommunicationCard.java:132-146 | `getCom(size)` returns `size` bytes, byte i being slot i's byte, or 0 for a `null` slot |
| Adapters.EthernetSetThenGet | src/CommunicationCard.java:132-155 | after `setCom(d)` on a card that holds `d`, reading back as many bytes as `d` has returns exactly `d` |
| Adapters.TokenRingGetCom | src/CommunicationCard.java:61-67 | `getCom(size)` counts words: it returns 4·size bytes |
| Adapters.TokenRingGetComLayout | src/CommunicationCard.java:61-67 | byte 4i+j of `getCom(size)` is byte j of word i, most significant first |
| Adapters.TokenRingSetCom | src/CommunicationCard.java:69-74 | `setCom(b)` writes the decoded words from word 0; it returns 0 exactly when ceil(|b|/4) words fit the ring, and -1 otherwise |
| Adapters.EthernetToComAdapter.constructor | src/CommunicationCard.java:128-130 | the adapter wraps the given card |
| Adapters.EthernetToComAdapter.GetCom | src/CommunicationCard.java:132-146 | the loop returns the first `size` slots unboxed (`null` becomes 0) |
| Adapters.EthernetToComAdapter.SetCom | src/CommunicationCard.java:149-155 | the boxing loop forwards the bytes unchanged to `write`, giving `EthernetSetCom`'s effect and status |
| Adapters.EthernetToComAdapter.GetName | src/CommunicationCard.java:157-160 | the Ethernet adapter's name is the constant "Ethernet" |
| Adapters.TokenRingToComAdapter.constructor | src/CommunicationCard.java:57-59 | the adapter wraps the given ring |
| Adapters.TokenRingToComAdapter.GetCom | src/CommunicationCard.java:61-67 | receives `size` words and returns their encoding |
| Adapters.TokenRingToComAdapter.SetCom | src/CommunicationCard.java:69-74 | sends all decoded words, so its effect and status are `TokenRingSetCom` |
| Adapters.TokenRingToComAdapter.GetName | src/CommunicationCard.java:76-79 | the TokenRing adapter's name is the constant "TokenRing" |
| Adapters.TokenRingToComAdapter.IntArrayToByteArray | src/CommunicationCard.java:83-95 | the `putInt` loop with its cursor yields exactly `Encode` |
| Adapters.TokenRingToComAdapter.ByteArrayToIntArray | src/CommunicationCard.java:97-121 | the loop with its full-group cursor and its special last group yields exactly `Decode` |
| Adapters.TokenRingToComAdapter.LastWord | src/CommunicationCard.java:111-114 | the word read from the zero-padded `temp` buffer is the last decoded word |
| Adapters.TokenRingToComAdapter.PartialGroup | src/CommunicationCard.java:112-113 | `arraycopy` of n < 4 bytes into a fresh zeroed 4-byte array gives the bytes followed by zeros |
| Adapters.CommunicationCard.GetName | src/CommunicationCard.java:49-53 | `getName()` of the `CommunicationCard` interface: "Ethernet" for the Ethernet adapter and "TokenRing" for the TokenRing adapter |
| Tasks.TaskData.constructor | src/Task.java:23-25 | the buffer holds the given bytes |
| Tasks.TaskData.SetData | src/Task.java:19-21 | the buffer's contents are replaced |
| Tasks.TaskData.GetData | src/Task.java:15-17 | returns the buffer's current contents |
| Tasks.ReadMemoryTask.constructor | src/Task.java:49-55 | a new read task has a fresh buffer of `size` zero bytes |
| Tasks.ReadMemoryTask.Execute | src/Task.java:57-60 | the task's buffer becomes `getMem(address, size)` |
| Tasks.ReadMemoryTask.GetTaskData | src/Task.java:46-48 | returns the task's own buffer, the one `execute` fills |
| Tasks.WriteMemoryTask.constructor | src/Task.java:69-74 | the task shares the given buffer; `result` starts at 0 |
| Tasks.WriteMemoryTask.Execute | src/Task.java:84-87 | writes the buffer's contents as they are when the task runs, and stores the RAM's status in `result` |
| Tasks.WriteMemoryTask.GetResult | src/Task.java:76-78 | returns the status the last `execute` stored (0 before any) |
| Tasks.ReadCardTask.constructor | src/Task.java:99-103 | a new card read task has a fresh buffer of `size` zero bytes |
| Tasks.ReadCardTask.Execute | src/Task.java:105-109 | the buffer becomes `getCom(size)` of the card; for a TokenRing, `size` counts words |
| Tasks.ReadCardTask.GetTaskData | src/Task.java:95-97 | returns the task's own buffer, the one `execute` fills |
| Tasks.ReadCardTask.GetName | src/Task.java:110-113 | "ReadEthernetTask" on an Ethernet adapter and "ReadTokenRingTask" on a TokenRing adapter |
| Tasks.WriteCardTask.constructor | src/Task.java:121-124 | the task shares the given buffer; `result` starts at 0 |
| Tasks.WriteCardTask.Execute | src/Task.java:129-132 | `setCom` of the buffer's contents when the task runs, with the card's status stored in `result` |
| Tasks.WriteCardTask.GetName | src/Task.java:124-127 | "WriteEthernetTask" on an Ethernet adapter and "WriteTokenRingTask" on a TokenRing adapter |
| Tasks.WriteCardTask.GetResult | src/Task.java:134-136 | returns the status the last `execute` stored (0 before any) |
| Tasks.AddTask | src/Task.java:145-147 | the task goes to the end of the children, and the earlier children keep their places |
| Tasks.RemoveTask | src/Task.java:148-150 | `removeTask` takes away exactly one copy of the task, if there is one, and no other child |
| Tasks.RemoveUndoesAdd | src/Task.java:145-150 | removing a task that was just added, and was not there before, restores the composite |
| Tasks.RemoveTaskKeepsOrder | src/Task.java:148-150 | `removeTask` drops only the first occurrence and keeps the others in order; a missing task changes nothing |
| Tasks.ReadCardName | src/Task.java:110-113 | a card read task is named "ReadEthernetTask" or "ReadTokenRingTask", after its card |
| Tasks.WriteCardName | src/Task.java:125-127 | a card write task is named "WriteEthernetTask" or "WriteTokenRingTask", after its card |
| Tasks.Name | src/Task.java:40-43 | every `getName()`: the constants "ReadMemoryTask" and "WriteMemoryTask" (lines 53, 73), the card tasks' names of lines 110-113 and 125-127 (see `ReadCardName`, `WriteCardName`), and the composite's loop of lines 164-172 (see `CompositeName`) |
| Tasks.Names | src/Task.java:166-168 | the children's names, one per child, in order |
| Tasks.SpacedIsJoin | src/Task.java:165-169 | the `getName` loop's text for a non-empty list is the names joined by spaces, plus one trailing space |
| Tasks.CompositeName | src/Task.java:164-172 | a composite is named "(" + n1 + " " + … + " " + nk + ") CompositeTask"; an empty composite is named ") CompositeTask" |
| Tasks.GetName | src/Task.java:40-43 | the imperative `getName()` of any task gives `Name` |
| Tasks.GetCompositeName | src/Task.java:164-172 | the concatenation loop of `CompositeTask.getName()` gives `Name` of the composite |
| Tasks.ReadMemoryStep | src/Task.java:57-60 | `ReadMemoryTask.execute()` on the world: the task's buffer becomes the RAM bytes `getMem` returns; the world keeps its objects and capacities |
| Tasks.WriteMemoryStep | src/Task.java:84-87 | `WriteMemoryTask.execute()` on the world: the buffer's current bytes are written with `set`'s partial-copy behaviour and the status goes to `result`; the world keeps its objects and capacities |
| Tasks.ReadCardStep | src/Task.java:105-109 | `ReadCardTask.execute()` on the world: the task's buffer becomes the card's `getCom(size)`; the world keeps its objects and capacities |
| Tasks.WriteCardStep | src/Task.java:129-132 | `WriteCardTask.execute()` on the world: `setCom` of the buffer's current bytes on the card, with the status in `result`; the world keeps its objects and capacities |
| Tasks.Run | src/Task.java:153-157 | running a task changes only the objects in its world and keeps every device at its capacity |
| Tasks.RunAll | src/Task.java:153-157 | the same holds for running the children in order |
| Tasks.RunAllSplit | src/Task.java:153-157 | running `a + b` is running `a`, then `b`: no child is skipped, repeated or reordered |
| Tasks.RunAllAt | src/Task.java:153-157 | child k runs exactly once, in the state its predecessors left, and the rest run from the state it leaves |
| Tasks.FailureDoesNotStop | src/Task.java:153-157 | a memory write's status, -1 included, is recorded in its `result`, and the later children still run |
| Tasks.RunPair | src/Task.java:153-157 | a composite of two tasks runs the first, then the second |
| Tasks.RunOne | src/Task.java:153-157 | a composite of one task runs that task |
| Tasks.ReaderFeedsWriter | src/Task.java:84-87 | a card read followed by a memory write on the same buffer writes exactly the bytes that were read |
| Tasks.Execute | src/Task.java:153-157 | `execute()` of any task changes the heap exactly as `Run` says |
| Tasks.ExecuteAll | src/Task.java:153-157 | the composite's loop changes the heap exactly as `RunAll` says |
| Tasks.TaskQueue.constructor | src/Task.java:185-187 | a new queue is empty |
| Tasks.TaskQueue.AddTask | src/Task.java:189-191 | the task goes to the back of the queue |
| Tasks.TaskQueue.GetNextTask | src/Task.java:193-195 | returns and removes the oldest task; on an empty queue it returns none and the queue stays empty |
| Tasks.QueueIsFifo | src/Task.java:189-195 | two tasks added to an empty queue come out in the order they went in, then nothing comes out |
| Tasks.TaskQueueRegistry.GetInstance | src/Task.java:178-183 | creates an empty queue on the first call and returns that same queue on every later call |
| Tasks.InstanceIsShared | src/Task.java:178-183 | two calls of `getInstance` return the same queue |
| EventLog.Journal | src/SystemEventLog.java:34-36 | the log after messages m1..mk is m1 + "\n" + … + mk + "\n" |
| EventLog.JournalPrefix | src/SystemEventLog.java:34-36 | the log of a prefix of the messages is a prefix of the log: nothing logged is lost |
| EventLog.JournalAt | src/SystemEventLog.java:29-36 | one unfolding of `Journal` at a prefix, for the delivery loop: the first i+1 messages log as the first i, then message i and a newline |
| EventLog.Render | src/SystemEventLog.java:39-43 | `toString()` puts the log between the fixed header and the closing quote and brace |
| EventLog.RenderUnrender | src/SystemEventLog.java:39-43 | the log can be read back from its rendering |
| EventLog.RenderInjective | src/SystemEventLog.java:39-43 | two different logs never render alike |
| EventLog.SystemEventLog.constructor | src/SystemEventLog.java:25-27 | the log starts empty |
| EventLog.SystemEventLog.GetLog | src/SystemEventLog.java:29-31 | returns the log text accumulated so far |
| EventLog.SystemEventLog.Update | src/SystemEventLog.java:34-36 | appends the message and a newline; the old log stays a prefix |
| EventLog.SystemEventLog.ToString | src/SystemEventLog.java:39-43 | the rendering reads back to the current log |
| EventLog.Deliver | src/SystemEventLog.java:29-36 | after updates m1..mk, in call order, their journal has been appended to the log |
| EventLog.EventLogRegistry.GetInstance | src/SystemEventLog.java:13-21 | creates an empty log on the first call and returns that same log on every later call |
| Threads.Notification | src/Thread.java:130 | the message `run` sends: the thread's name, " has finished the task: ", and the task's name |
| Threads.Deliveries | src/Thread.java:144-148 | an observer attached n times receives the message n times, each time followed by a newline |
| Threads.DeliveriesAreJournal | src/Thread.java:144-148 | those deliveries are the journal of n copies of the message |
| Threads.Thread.constructor | src/Thread.java:174-177 | a new thread has its name, no observers, no task, and the queue `getInstance` gives |
| Threads.Thread.Attach | src/Thread.java:134-136 | the observer goes to the end of the list; duplicates are allowed |
| Threads.Thread.Detach | src/Thread.java:139-141 | only the first attachment of that observer is removed |
| Threads.Thread.NotifyObservers | src/Thread.java:144-148 | every observer's log grows by one delivery per attachment, in attach order |
| Threads.Thread.FetchTask | src/Thread.java:161-163 | the task becomes the oldest queued one, or none when the queue is empty |
| Threads.Thread.ExecuteTask | src/Thread.java:164-171 | runs the current task, or changes nothing when there is none |
| Threads.Thread.DiscardTask | src/Thread.java:172 | the task is dropped |
| Threads.Thread.Report | src/Thread.java:130-131 | the notification, with the task's name taken after execution, goes to every observer; then the task is dropped |
| Threads.Thread.Perform | src/Thread.java:129-131 | execute, notify every observer, discard |
| Threads.Thread.Run | src/Thread.java:124-132 | on an empty queue nothing runs and nobody is notified. Otherwise exactly one queue entry is dequeued and runs once (a composite's children are not dequeued), every observer receives "name has finished the task: …", and the task ends up none |
| Threads.ConcreteProcess.constructor | src/Thread.java:85-87 | a new process has its name and no thread |
| Threads.ConcreteProcess.CreateThread | src/Thread.java:103-113 | the first call creates a thread with the given name; later calls return the same thread and ignore the name |
| Threads.ConcreteProcess.CreateUnnamedThread | src/Thread.java:90-100 | the same, with the name "Unnamed Thread" |
| Threads.ConcreteCPU.constructor | src/Thread.java:53-54 | a new CPU has no process |
| Threads.ConcreteCPU.CreateProcess | src/Thread.java:65-73 | the first call creates a process with the given name; later calls return the same process and ignore the name |
| Threads.ConcreteCPU.CreateUnnamedProcess | src/Thread.java:56-64 | the same, with the name "Unnamed Process" |
| Client.EthernetLoaded | src/Client.java:13 | writing the nine payload bytes to an empty 10-slot Ethernet succeeds and leaves slot 9 `null` |
| Client.EthernetReadsPayload | src/Client.java:28 | `getCom(9)` on that card returns the payload |
| Client.RamTakesPayload | src/Client.java:29 | writing the payload to a 10-byte RAM at address 0 succeeds and leaves the tenth byte 0 |
| Client.RingTakesPayload | src/Client.java:30 | sending the payload to a 10-word TokenRing succeeds and gives the words `0x01020304, 0x05060708, 0x09000000`, followed by zeros |
| Client.RamReadsPayload | src/Client.java:34 | reading nine bytes back from RAM address 0 gives the payload |
| Client.CompositeTitle | src/Client.java:39-42 | the composite is named "(ReadEthernetTask WriteMemoryTask WriteTokenRingTask) CompositeTask" |
| Client.RunThree | src/Client.java:39-42 | a composite of three tasks runs them one after the other |
| Client.PipelineRun | src/Client.java:28-42 | on the loaded devices, the composite leaves the payload in the shared buffer, at RAM address 0, and as three words on the TokenRing. Both writes report 0 and the Ethernet is unchanged |
| Client.MakeWorkload | src/Client.java:9-34 | the devices, the payload written to the Ethernet, the adapters and the four tasks, with one `TaskData` shared by the read, the memory write and the card write |
| Client.QueueUp | src/Client.java:39-47 | the queue holds the composite, then the read-back task |
| Client.TwoThreads | src/Client.java:49-56 | two distinct threads, "Thread 1" and "Thread 2", share the one queue |
| Client.Wire | src/Client.java:5-62 | everything is created, queued and attached; the log is empty |
| Client.RunLogged | src/Thread.java:124-132 | `run()` of a thread whose only observer is the log: one entry runs and is logged as exactly one line |
| Client.RunComposite | src/Client.java:64 | thread 1 runs the composite: the devices are transferred and the log holds "Thread 1 has finished the task: (ReadEthernetTask WriteMemoryTask WriteTokenRingTask) CompositeTask" |
| Client.RunReadBack | src/Client.java:65 | thread 2 then runs the read-back task, which reads the payload and logs a second line |
| Client.Scenario | src/Client.java:5-65 | at the end, the RAM is `[1..9, 0]`, the Ethernet is as it was loaded, the TokenRing starts with the three words and the read-back buffer is the payload. The log is the two lines, in the order the threads ran |

## Left out

- Console output (`System.out.println` of errors, of "already exists" notices and of the system state in `Client.main`) is not modelled. Only return values and state are.
- The `Arrays.toString` renderings of the RAM, Ethernet, TokenRing and `TaskData` are display only and depend on Java's signed printing. `SystemEventLog.toString` is modelled.
- The Abstract Factory `ConcreteSystemFactory` (src/Thread.java:3-47) is construction scaffolding. The scenario builds its devices directly with the factory's capacity of 10.
- Static singletons: `TaskQueue.instance` and `SystemEventLog.instance` are the `instance` field of a registry object that the caller passes around, not global state.
- Reads (`get`, `read`, `receive`) do no bounds check in Java and throw when out of range. The model states their bounds as preconditions (`CanGet`, `Readable`) instead of modelling the exception. Negative sizes for the task constructors (`new byte[size]`) are excluded by a `nat` parameter for the same reason.
- Java `int` arithmetic in `address + i` and `length * 4` is unbounded here. No device or payload comes near 2^31.
- Java's signed `byte` and `int` are bit patterns (`bv8`, `bv32`); `ByteBuffer` is modelled by its big-endian byte layout.
- Tasks.AddTask, Tasks.RemoveTask: a `CompositeTask` is a `Task` value holding its list of children, and `addTask`/`removeTask` return a new composite instead of changing one object in place (src/Task.java:145-150). In Java the queue, a parent composite and the caller (src/Client.java:39-46) all hold the same composite by reference, so a composite changed after it was queued or nested is seen changed by every holder. The model cannot express that sharing. It covers only the Java order, where the composite is complete before it is queued. Two composites sharing one `ArrayList`, and changes made through `getTasks()`, are not modelled either. `removeTask` compares children as values, so a nested composite is matched by its contents, where `ArrayList.remove` compares objects by identity. Leaf tasks are classes, so their identity is kept.
- The abstract `Thread` and its only subclass `ConcreteThread` are one class. `Observer` has one implementation, `SystemEventLog`, which is the observer type.
- Concurrency: nothing in the Java code starts a Java thread, and the model is sequential.
- Tasks.Execute and the `Thread` methods that run tasks require `Separate`: device arrays of different kinds are different objects. Java's types guarantee this, but Dafny's heap model cannot see it, so callers state it. In the scenario it follows from fresh allocation.
- Writes follow the code, not an all-or-nothing reading: an overflowing `set`, `write` or `send` keeps the prefix it already copied (see `Devices.CopyOverflow`).
- The empty composite's name `") CompositeTask"` is modelled as written. `substring` removes the `(` instead of a trailing space.
