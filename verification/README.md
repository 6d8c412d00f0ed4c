# Verification of the NetShare driver and its command line

This project models the parts of NetShare whose correctness is hard to see from
the code, and proves properties of them:

* **the packet pipeline of the driver** (`Fifo.dfy`, `Workqueue.dfy`,
  `Pipeline.dfy`, `PipelineRuns.dfy`, `SenderLoop.dfy`): the ring buffer under its mutex, the WinTun
  reader and writer, any number of UDP sender/receiver pairs, and the shutdown
  that stops them all;
* **the CLI11 library as the repository carries it** (`Wrappers.dfy`, `CliStrings.dfy`,
  `CheckedMultiply.dfy`, `IniValues.dfy`, `ConfigReader.dfy`, `ConfigLines.dfy`,
  `ArgTables.dfy`, `ArgLog.dfy`, `ArgResults.dfy`, `ArgChecks.dfy`, `ArgParser.dfy`):
  the argument parser, the configuration reader with its section events, the
  writer of option values and the overflow-checked product;
* **the smaller protocols and codecs** (`AppConfigCodec.dfy`,
  `ControlMessages.dfy`, `ControlSession.dfy`, `ControlReplies.dfy`, `Adapters.dfy`,
  `Addresses.dfy`):
  the binary configuration file, the control session between the command line
  client and the daemon, the worker configurations made for the network
  adapters, and the IPv4 text parser.

`dafny verify dfyconfig.toml` verifies everything.

## How the model is built

**Ring and threads.** `Ring.Workqueue` is the array ring with the source's own
`start`, `end` and `size`. Each method is one critical section, and each is
proved to compute a function of the sequence of queued packets (`Fifo.Put`,
`Fifo.Pop`). `Pipeline` runs the threads on those functions: a step is
one read of a flag, one section under a mutex, or one call on a socket or on the
WinTun session. A wait is a program counter (`Waiting`) that only a notification,
a release or a spurious wake-up leaves. A run is any sequence of enabled steps,
so the results hold for every interleaving. A consumer that touches a null batch,
a closed socket or an ended session moves to `Crashed`.

**Parsing with a log.** `ArgLog` says, without reference to how the parser is
written, what a log of uses may look like: `Remaining` takes each argument off the
front as a use takes it, `Replay` gathers the results, and `Justified` says which
use may come next in the state reached and with the arguments left: whether the
option in progress wants more, is closed by "--", is due a text of its own or is
complete, which app has its turn (`MayAct`) and what it makes of the token
(`Acts`). At most one use is justified at any point, so there is one reading of
an argument vector (`OneReading`). `ArgParser.Parser` carries such a log as a ghost
field and is proved to produce that reading. What a token splits into, what it is
taken for and what whole short argument vectors come to is said once more in terms
of their characters (`ArgTables.SplitLong` and its neighbours, `ArgResults`).

**Open path.** `ConfigReader.Walk` is what a consumer of the configuration items
does with the section events: it keeps one open path. `Events` are what it sees:
sections opened and inputs read, each with the path open then. The reader in the
source keeps no such path; it looks at the last item only and may take a closing
event back. The proof relates the two.

**Two processes.** `ControlSession` runs the daemon and the client over two
first-in-first-out channels. What the daemon answers to a request is a parameter,
and `DriverServes` shows that the daemon's own handlers meet what is asked of it.

## What was found

* No wake-up is ever lost, and this needs no assumption about sends that fail
  for good: while a consumer waits on a queue, at least as many woken consumers
  are on their way to the queue as it holds packets (`Pipeline.NoLostWakeup`).
* The order of the shutdown matters: if a queue were released while the driver
  is still marked running, a sender at its loop could go on to use a null batch
  (`Pipeline.EarlyReleaseCrashes`). With the order in the source it cannot.
* A worker ends only after the running flag was cleared or on a final answer of its
  own, and while neither has happened no popped packet is dropped
  (`PipelineRuns.ExitHasCause`, `PipelineRuns.NothingDroppedWhileRunning`).
* An argument vector has exactly one reading, and as far as the stages modelled
  here go the parser fails on it for one of four reasons only: an option short of
  its minimum, a call for help, a requirement not met, or left-overs. The
  exceptions that CLI11 marks as never to be seen are indeed never raised by the
  token functions (`ArgLog.OneReading`, `ArgParser.Parser.ParseAll`).
* `from_config` puts out a well-nested walk exactly for the files in which no
  `[default]` header follows a dotted section and is followed in turn by an
  entry, or by the end of the file, before the next section header
  (`ConfigReader.ReadLines`, `ConfigReader.ReadThroughDefault`). What
  the entries say is never lost or moved, whatever the file.
* In the bracketed format (`[a, b]`) a list does not come back when an element
  other than the last is written in quotes: the comma after the closing quote is
  read as one more, empty, element (`IniValues.BracketedRoundTrip` gives the
  exact condition). The default format has no such exception
  (`IniValues.IniRoundTrip`).
* `udpPacketSent` counts attempts: refused and failed sends are counted with the
  delivered ones (`SenderLoop.SendBatch`).
* The seventh adapter in use gets UDP port 0 and the 129th repeats a worker id
  (`Adapters.PortsUsableIff`, `Adapters.UidsDistinctIff`).
* When a running driver is stopped the client sends two close requests and the
  daemon reads one of them (`ControlSession.DriverSessionEnds`).

## Model

| member | source | states |
|---|---|---|
| `Ring.Workqueue.constructor` | Treiber Winttun/Workqueue.h:14-18 | a new ring is unreleased with the source's start values; with at least one slot it is empty and satisfies the index invariant |
| `Ring.Workqueue.AddToEnd` | Treiber Winttun/Workqueue.h:66-72 | the newest index moves by one and wraps at the end of the buffer |
| `Ring.Workqueue.AddToStart` | Treiber Winttun/Workqueue.h:84-89 | the oldest index moves by n and wraps once |
| `Ring.Workqueue.Push` | Treiber Winttun/Workqueue.cpp:10-24 | with room beside one slot the queued sequence gains the packet at its back and a waiter is notified; otherwise nothing changes and nobody is notified |
| `Ring.Workqueue.CopyFront` | Treiber Winttun/Workqueue.cpp:48-66 | the one-part and the two-part copy both give the first n queued packets |
| `Ring.Workqueue.RemoveFront` | Treiber Winttun/Workqueue.cpp:57-69 | the list is the front of the old sequence and the queue keeps the rest |
| `Ring.Workqueue.PopSize` | Treiber Winttun/Workqueue.cpp:38-72 | which of blocking, the two null returns and a batch happens, when; a batch is the front of the queue of the smaller size; in the early null return the size is not written |
| `Ring.Workqueue.PopAll` | Treiber Winttun/Workqueue.cpp:74-110 | as above, with a batch being the whole queue and the late null return writing size 0 |
| `Ring.Workqueue.ReleaseAll` | Treiber Winttun/Workqueue.h:31-37 | the queue is marked released and its packets stay |
| `Ring.LastIndexIsModular` | Treiber Winttun/Workqueue.h:66-97 | the invariant on `end` is (start + size - 1) mod capacity |
| `Ring.FrontOfOccupied` | Treiber Winttun/Workqueue.h:84-97 | cutting the occupied slots at n, across the wrap or not, splits the sequence at n, and moving `start` leaves the second part |
| `Pipeline.ActKeepsWorker` | Treiber Winttun/UPDSocketWorker.cpp:160-168 | one step of a worker leads to a legal counter: past the running test no null batch is held |
| `Pipeline.StepControlOk` | Treiber Winttun/Application.cpp:202-219 | every step of a worker or of the shutdown keeps the relation between flags, stages and counters |
| `Pipeline.RemoveKeepsQueue` | Treiber Winttun/Workqueue.cpp:38-72 | a pop keeps the accepted packets equal to those popped followed by those queued, with batches of one to three |
| `Pipeline.StepQueueOk` | Treiber Winttun/Workqueue.cpp:10-72 | every step keeps the accounting of each queue |
| `Pipeline.MoveSignal` | Treiber Winttun/Workqueue.cpp:43 | a worker's own move keeps the wake-up invariant: it waits on an empty queue only, and a wake-up is spent on a packet |
| `Pipeline.NotifySignal` | Treiber Winttun/Workqueue.cpp:20-23 | an accepted packet and its one notification keep the wake-up invariant |
| `Pipeline.StepSignalOk` | Treiber Winttun/Workqueue.cpp:14-43 | every step, spurious wake-ups included, keeps the wake-up invariant |
| `Pipeline.ActDelivers` | Treiber Winttun/UPDSocketWorker.cpp:160-227 | a step of a consumer tries the head of what it holds, keeps it if a UDP send was refused, holds exactly what it popped, or stops on a failed send or without an attempt |
| `Pipeline.ActHandsOn` | Treiber Winttun/WinTunLogic.h:26-46 | a step of a producer offers exactly the packet it received last |
| `Pipeline.AccountsAfter` | Treiber Winttun/UPDSocketWorker.cpp:160-227 | a consumer's move keeps: what it is done with, then what it holds, is what it popped |
| `Pipeline.InTurnNext` | Treiber Winttun/UPDSocketWorker.cpp:168-206 | an attempt at the head of what a sender holds is an attempt at the first popped packet that is not out yet |
| `Pipeline.StepDeliveryOk` | Treiber Winttun/UPDSocketWorker.cpp:158-360 | every step keeps these accounts for every producer and consumer |
| `Pipeline.InitInv` | Treiber Winttun/Application.cpp:8-51 | the state in which `run` leaves the threads satisfies all invariants, for any number of adapters |
| `Pipeline.RunInv` | Treiber Winttun/Application.cpp:191-235 | all invariants hold after every run |
| `Pipeline.NeverCrashes` | Treiber Winttun/Application.cpp:202-219 | in no run does a worker use a null batch, a closed socket or an ended session |
| `Pipeline.ShareAtPositions` | Treiber Winttun/Workqueue.cpp:38-72 | the packets of a consumer are those at the positions it owns, strictly increasing, each position having one owner |
| `Pipeline.PacketsAreConserved` | Treiber Winttun/Workqueue.cpp:10-72 | in every run accepted packets equal popped ones in lock order followed by queued ones; each went to exactly one consumer, in order of arrival, in batches of one to three on the way out |
| `Pipeline.PacketsPassThrough` | Treiber Winttun/WinTunLogic.h:15-143 | in every run, both ways: what a producer received is what it offered and has in hand, accepted packets are the offered ones that found room, what a consumer popped is what it is done with and still holds; what it put out is what it tried without the refused and failed attempts, each attempt of a UDP sender is at the first popped packet not yet out, and a failed one is its last |
| `Pipeline.NoLostWakeup` | Treiber Winttun/Workqueue.cpp:14-43 | in every run, while someone waits on a queue there are at least as many woken consumers of it as queued packets |
| `Pipeline.StepRank` | Treiber Winttun/Application.cpp:203-210 | once the queues are released each worker step but a refused send lowers that worker's rank, and no other step raises it |
| `Pipeline.WorkersRunOut` | Treiber Winttun/WinTunLogic.h:15-143 | over any run after the release a worker makes at most as many steps as its rank and its refused sends |
| `Pipeline.StepDistance` | Treiber Winttun/Application.cpp:203-222 | after the release every step of any thread but a refused send lowers one common measure |
| `Pipeline.StuckOnlyWhenDone` | Treiber Winttun/Application.cpp:210-222 | after the release nothing can hang: when no step is possible all workers have exited and the resources are closed |
| `Pipeline.ShutdownCompletes` | Treiber Winttun/Application.cpp:203-222 | in every run from the start, after the release at most 12 steps for each pair of socket workers and 15 more are made besides refused sends, and where no step is possible all workers have exited and sockets and session are closed |
| `Pipeline.EarlyReleaseCrashes` | Treiber Winttun/Application.cpp:203-207 | with a queue released before the running flag is cleared a sender can reach the use of a null batch |
| `PipelineRuns.ExitHasCause` | Treiber Winttun/UPDSocketWorker.cpp:160-227 | in every run a worker that has exited did so after the running flag was cleared, or on an answer of its own that failed for good: for the reader neither a packet nor "no more items", for a UDP sender a failed send and not a refused one |
| `PipelineRuns.NothingDroppedWhileRunning` | Treiber Winttun/UPDSocketWorker.cpp:160-227 | in every run without such an answer that is still marked running nobody has exited, and what each consumer popped is what it is done with and what it holds |
| `PipelineRuns.OfferIsKept` | Treiber Winttun/Workqueue.cpp:112-115 | in any step a queue is offered at most one packet, which it takes in at its back exactly when it holds fewer than capacity - 1 |
| `PipelineRuns.SenderRound` | Treiber Winttun/UPDSocketWorker.cpp:160-227 | a sender alone, its sends taken, is back at its loop after putting out the first three queued packets, or all of fewer, in order |
| `PipelineRuns.WriterRound` | Treiber Winttun/WinTunLogic.h:96-130 | the WinTun writer alone is back at its loop after writing out all queued packets in order |
| `PipelineRuns.ReaderRound` | Treiber Winttun/WinTunLogic.h:24-47 | the WinTun reader, given a packet, is back at its loop after offering it to the senders |
| `PipelineRuns.ReceiverRound` | Treiber Winttun/UPDSocketWorker.cpp:229-360 | a receiver whose socket is ready with a packet is back at its loop after offering it to the WinTun writer |
| `SenderLoop.SendBatch` | Treiber Winttun/UPDSocketWorker.cpp:168-226 | with finitely many refusals the batch goes out once and in order, or a proper prefix of it up to a send that fails for good; attempts are deliveries, refusals and the failure, and all are counted, each with the size of the packet it was for |
| `SenderLoop.Statistics.UdpPacketSent` | Treiber Winttun/diagnostics.h:64-69 | the packet counter goes up by one and the size counter by the size given |
| `SenderLoop.Attempt` | Treiber Winttun/UPDSocketWorker.cpp:173-182 | one call is one attempt and is counted with the packet's size, whatever the call answers |
| `CheckedMultiply.CheckedMultiply` | NetShareCLI/CLI11.hpp:2727-2740 | for every integer type, by its own limits, true and the product exactly when the product fits, else false and the operand unchanged |
| `CheckedMultiply.CheckIsExact` | NetShareCLI/CLI11.hpp:2712-2724 | the division test fires exactly when the product does not fit, in both sign cases |
| `CheckedMultiply.ExtremeOverflows` | NetShareCLI/CLI11.hpp:2732-2734 | refusing the smallest value as an operand is never wrong |
| `CheckedMultiply.GetItemsExpectedMax` | NetShareCLI/CLI11.hpp:4048-4051 | the product where it is below 2147483648, and 536870912 where it is not |
| `CliStrings.Find` | NetShareCLI/CLI11.hpp:434-482 | the first position of a character, or the length |
| `CliStrings.TrimSnug` | NetShareCLI/CLI11.hpp:246-275 | a text without surrounding whitespace survives trimming, and a blank in front of it does not |
| `CliStrings.TrimTakesSpaces` | NetShareCLI/CLI11.hpp:246-275 | trimming takes exactly the whitespace around a text that has none at its ends |
| `CliStrings.SplitOfInterlaced` | NetShareCLI/CLI11.hpp:186-201 | splitting at a delimiter gives back the pieces that were put together with it, none of them holding it |
| `IniValues.IniJoin` | NetShareCLI/CLI11.hpp:7793-7813 | the loop builds the written elements with separators and brackets |
| `IniValues.ConvertWrites` | NetShareCLI/CLI11.hpp:7745-7790 | every text without commas, with quotes of one kind at most, none around it and no backslash at its end, is written bare or between quotes that it does not hold |
| `IniValues.BareIff` | NetShareCLI/CLI11.hpp:7745-7790 | an element is written as it is exactly for the four literals, numbers not in hexadecimal and radix literals |
| `IniValues.QuotedIfNot` | NetShareCLI/CLI11.hpp:7745-7790 | every other element is put between single quotes if it is one character or holds a double quote, and between double quotes otherwise |
| `IniValues.TakeQuoted` | NetShareCLI/CLI11.hpp:446-461 | the scan to the unescaped closing quote, with escapes undone |
| `IniValues.EscapedIsTaken` | NetShareCLI/CLI11.hpp:446-461 | a text without backslashes, written in quotes with a backslash before every such quote in it, is taken whole and as it was |
| `IniValues.SplitUp` | NetShareCLI/CLI11.hpp:434-482 | the loop computes the tokens of the trimmed text |
| `IniValues.ParseValues` | NetShareCLI/CLI11.hpp:7937-7964 | which of the four ways of splitting is taken, then every value loses its quotes |
| `IniValues.TokensOfSpaced` | NetShareCLI/CLI11.hpp:434-482 | splitting blank-separated written elements gives the elements |
| `IniValues.IniRoundTrip` | NetShareCLI/CLI11.hpp:7745-7813 | in the default format reading what was written for a non-empty list of plain texts gives the list |
| `IniValues.TokensOfListed` | NetShareCLI/CLI11.hpp:434-482 | splitting comma-separated written elements gives an empty extra element after each quoted one but the last |
| `IniValues.BracketedRoundTrip` | NetShareCLI/CLI11.hpp:7793-7813 | in the bracketed format the list comes back exactly when every element but the last is a text that needs no quotes |
| `IniValues.CommaList` | NetShareCLI/CLI11.hpp:7937-7964 | a list of words with commas between them, in brackets or not, is read as these words in the default format |
| `IniValues.BracketedPair` | NetShareCLI/CLI11.hpp:7793-7813 | the failure at its smallest: of two elements the first of which is quoted, three come back |
| `IniValues.BracketedAbC` | NetShareCLI/CLI11.hpp:7793-7813 | for instance "ab" and "c" |
| `ConfigReader.SectionPath` | NetShareCLI/CLI11.hpp:7815-7838 | a section stands for the root exactly when it is the default section |
| `ConfigReader.CloseDownTo` | NetShareCLI/CLI11.hpp:7847-7850 | repeated closings go down to the given depth, each closing the innermost open section |
| `ConfigReader.CommonPrefix` | NetShareCLI/CLI11.hpp:7853-7860 | the number of leading components two sections share, up to a limit |
| `ConfigReader.KeepShared` | NetShareCLI/CLI11.hpp:7845-7876 | after it exactly the components shared with the new section are open, whether a closing was taken back or not |
| `ConfigReader.OpenFrom` | NetShareCLI/CLI11.hpp:7870-7888 | one opening for each component from the given depth; in order, they are exactly those that lead to the section, one component at a time |
| `ConfigReader.CheckParentSegments` | NetShareCLI/CLI11.hpp:7841-7889 | the new section is the open path afterwards exactly when the walk so far was in order |
| `ConfigReader.AppendEntry` | NetShareCLI/CLI11.hpp:7968-7976 | merging into the last item or appending, the inputs gain the entry's at the back, read with the same sections open |
| `ConfigReader.EndSection` | NetShareCLI/CLI11.hpp:7909-7914 | the closing put out when a section ends |
| `ConfigReader.LeaveSection` | NetShareCLI/CLI11.hpp:7909-7914 | ending a section leads to a default place and tells a consumer nothing |
| `ConfigReader.OpenSection` | NetShareCLI/CLI11.hpp:7924 | from a default place the next section becomes the open path, by openings only |
| `ConfigReader.Enter` | NetShareCLI/CLI11.hpp:7908-7927 | a header keeps the loop invariant, with the place it leads to |
| `ConfigReader.EntryTracks` | NetShareCLI/CLI11.hpp:7968-7976 | an entry keeps it, and puts the walk out of order exactly at a dangling place |
| `ConfigReader.FollowOn` | NetShareCLI/CLI11.hpp:7902-7977 | what a line calls for is covered by the events it causes |
| `ConfigReader.CoversEntering` | NetShareCLI/CLI11.hpp:7870-7888 | the openings put out for a header are covered by what the header calls for: the others lead up to it |
| `ConfigReader.Finish` | NetShareCLI/CLI11.hpp:7978-7988 | the closings at the end of the file leave nothing open exactly when the walk is in order and the place does not dangle |
| `ConfigReader.ReadLines` | NetShareCLI/CLI11.hpp:7892-7990 | every input comes out once, in order, at its place; up to the first dangling entry each header is followed by a state whose open path is its section's, each entry is read with its section open, and every other opening is of the section just around the one opened next; the events are well nested if and only if the file leaves no dotted section through [default] and then goes on |
| `ConfigReader.FromConfig` | NetShareCLI/CLI11.hpp:7892-7990 | the same for the text lines of a file |
| `ConfigReader.DefaultAfterDottedLeavesOpen` | NetShareCLI/CLI11.hpp:7909-7922 | a dotted section, then [default], then an entry or the end of the file meets the condition for failing |
| `ConfigReader.ReadThroughDefault` | NetShareCLI/CLI11.hpp:7892-7990 | and the items read from such a file are not well nested |
| `ConfigReader.NoDefaultHeaderIsSafe` | NetShareCLI/CLI11.hpp:7908-7927 | a file without a [default] header does not meet the condition |
| `ConfigReader.ReadNamedSections` | NetShareCLI/CLI11.hpp:7892-7990 | and the items read from such a file are well nested, with every section open for its entries |
| `ConfigLines.HeaderLine` | NetShareCLI/CLI11.hpp:7906-7918 | a line in brackets, single or double, with whitespace around it or not, is the header of the section named inside |
| `ConfigLines.SkippedLine` | NetShareCLI/CLI11.hpp:7927-7934 | blank lines are skipped, and lines that begin with a semicolon, a number sign or the comment character |
| `ConfigLines.EntryLine` | NetShareCLI/CLI11.hpp:7937-7959 | a name, a delimiter and an item, with whitespace around the delimiter or not, are an entry of that name without quotes with the values of the item |
| `ConfigLines.FlagLine` | NetShareCLI/CLI11.hpp:7953-7960 | a name alone is an entry with the value "true" |
| `ConfigLines.DefaultInAnyCase` | NetShareCLI/CLI11.hpp:7919-7921 | the default section is its name in any mixture of cases, and nothing else |
| `ConfigLines.SectionOfParts` | NetShareCLI/CLI11.hpp:7815-7838 | the path of a dotted section is its parts, each without its quotes |
| `ConfigLines.NameOfParts` | NetShareCLI/CLI11.hpp:7815-7838 | a dotted name adds its parts but the last to the path of the section, and the last is the name |
| `ConfigLines.ReadWrittenSection` | NetShareCLI/CLI11.hpp:7892-7990 | a header line and an entry line with written values, read from text: every value comes out once with its section and name, with just the section opened around it and closed again |
| `ArgTables.FindOption` | NetShareCLI/CLI11.hpp:7259-7267 | the first option that answers to the name, or none that does |
| `ArgTables.FirstMatch` | NetShareCLI/CLI11.hpp:7182-7198 | the first candidate subcommand that answers to the name, or none that does |
| `ArgTables.Taker` | NetShareCLI/CLI11.hpp:7109-7125 | the first positional option that takes one more value |
| `ArgTables.SplitLong` | NetShareCLI/CLI11.hpp:1884-1898 | "--name=value" is exactly name and value, "--name" the name without a value, for every name that begins with a letter, a digit, "_", "?" or "@" and holds no "=", and every value |
| `ArgTables.SplitShort` | NetShareCLI/CLI11.hpp:1873-1882 | a dash, such a character and any rest are the one-letter name and the rest |
| `ArgTables.SplitWindows` | NetShareCLI/CLI11.hpp:1900-1915 | "/name:value" is the name and the value, and "/name" the name alone |
| `ArgTables.SplitsOnlySo` | NetShareCLI/CLI11.hpp:1873-1914 | nothing else splits |
| `ArgTables.RecognizeLong` | NetShareCLI/CLI11.hpp:6568-6590 | "--name=value" that is no app's name is taken for a long option |
| `ArgTables.RecognizeShort` | NetShareCLI/CLI11.hpp:6568-6590 | a dash and no digit is taken for short options |
| `ArgTables.RecognizeNumber` | NetShareCLI/CLI11.hpp:6568-6590 | a dash and a digit is taken for a short option exactly where the app has an option of that name, and for a value elsewhere |
| `ArgTables.RecognizeWord` | NetShareCLI/CLI11.hpp:6568-6590 | what begins with neither dash nor slash and is no app's name is taken for a value |
| `ArgTables.SubcommandFound` | NetShareCLI/CLI11.hpp:7182-7198 | a subcommand is found by any of its names unless it is disabled or, where used ones are not to count, was given before |
| `ArgTables.TakerIsFirst` | NetShareCLI/CLI11.hpp:7109-7125 | the next positional goes to the first positional option that has fewer results than it must have or takes any number |
| `ArgTables.WaitingIff` | NetShareCLI/CLI11.hpp:7068-7076 | an app has remaining positionals exactly while some positional option has fewer results than it must have |
| `ArgTables.WantedIsLacking` | NetShareCLI/CLI11.hpp:7054-7065 | with one required positional below its minimum, the number remaining is what that one lacks |
| `ArgTables.Limits` | NetShareCLI/CLI11.hpp:4048-4051 | the minimum taken at once is a value's items unless none is expected, and the maximum is the product or the cap |
| `ArgLog.AfterIsSmaller` | NetShareCLI/CLI11.hpp:7369-7372 | every use of an argument lowers characters plus arguments, a run of short flags pushed back included |
| `ArgLog.BeforeAfter` | NetShareCLI/CLI11.hpp:7369-7372 | undoing a use is the inverse of making it, and impossible where what it pushed back is not in front |
| `ArgLog.RestoreRemaining` | NetShareCLI/CLI11.hpp:7369-7372 | a log read backwards gives exactly the arguments that it uses up read forwards: none is invented, left out or used twice |
| `ArgLog.ClimbsOn` | NetShareCLI/CLI11.hpp:7141-7158 | when an app leaves a token to its parent it becomes the parent's turn |
| `ArgLog.JustifiedOnce` | NetShareCLI/CLI11.hpp:7010-7374 | in any state and with any arguments left at most one use is justified |
| `ArgLog.OneReading` | NetShareCLI/CLI11.hpp:6888-6932 | two logs of justified uses that read the same arguments and cannot go on are equal |
| `ArgLog.EmptyReading` | NetShareCLI/CLI11.hpp:6888-6932 | nothing is recorded for an empty argument vector |
| `ArgLog.WantedIsTaken` | NetShareCLI/CLI11.hpp:7324-7351 | an argument that the option in progress wants becomes its value and nothing else |
| `ArgLog.FillerOnce` | NetShareCLI/CLI11.hpp:7356-7367 | an option adds a text of its own at most once |
| `ArgLog.OneMoreUse` | NetShareCLI/CLI11.hpp:7230-7374 | a justified use keeps the log in step with arguments and results, and lowers the measure unless it uses no argument |
| `ArgLog.ReplayByOwner` | NetShareCLI/CLI11.hpp:4607-4639 | played forward, a log gives each option exactly its own texts and each app its left-overs and chosen subcommands, in argument order |
| `ArgLog.AddedByOwner` | NetShareCLI/CLI11.hpp:4607-4639 | adding a result touches one option and appends to it |
| `ArgResults.LongAdds` | NetShareCLI/CLI11.hpp:7303-7322 | "--name=value" adds what the value comes to, to that option and to nothing else |
| `ArgResults.WindowsAdds` | NetShareCLI/CLI11.hpp:7303-7322 | so does "/name:value" |
| `ArgResults.ShortAdds` | NetShareCLI/CLI11.hpp:7313-7322 | a short option with text behind it adds that text |
| `ArgResults.FlagAdds` | NetShareCLI/CLI11.hpp:7303-7311 | a flag adds its own text, or the one behind the sign unless that is empty or "{}"; of a run of short flags the rest comes back with a dash |
| `ArgResults.TokenAdds` | NetShareCLI/CLI11.hpp:7324-7331 | an argument taken as a value or a positional adds itself |
| `ArgResults.ListIsAdded` | NetShareCLI/CLI11.hpp:4607-4639 | a bracketed list given to an option with extra arguments adds its elements, one by one |
| `ArgResults.NamesEndValues` | NetShareCLI/CLI11.hpp:7340-7342 | past its minimum an option takes no argument that names an option |
| `ArgResults.WordsAreTaken` | NetShareCLI/CLI11.hpp:7340-7351 | an option with extra arguments, of an app that wants no positional, takes the next word |
| `ArgResults.DashesAreUsedUp` | NetShareCLI/CLI11.hpp:7353-7355 | and a "--" after it is used up without a trace |
| `ArgResults.ReadLongOption` | NetShareCLI/CLI11.hpp:6888-6932 | the one reading of "--name=value": the option of that name has just the value |
| `ArgResults.ReadNextValue` | NetShareCLI/CLI11.hpp:7324-7331 | the one reading of "--name" and one more argument where the option wants one value: it is that argument, whatever it looks like |
| `ArgResults.ReadNameAlone` | NetShareCLI/CLI11.hpp:7356-7361 | the one reading of "--name" alone where the option may do without a value: it has its own text |
| `ArgResults.ReadUnknown` | NetShareCLI/CLI11.hpp:7270-7292 | the one reading of "--name" where no option has that name: it is left over |
| `ArgResults.ReadAfterMark` | NetShareCLI/CLI11.hpp:7014-7023 | the one reading of "--" and one more argument: the first positional that lacks results gets it, whatever it looks like |
| `ArgResults.ReadWantedFirst` | NetShareCLI/CLI11.hpp:7204-7208 | the one reading of a subcommand's name while a required positional lacks results: the positional gets it |
| `ArgResults.ReadSubcommandOption` | NetShareCLI/CLI11.hpp:6888-6932 | the one reading of a subcommand and "--name=value": the subcommand is chosen and its option of that name has the value |
| `ArgResults.ReadTwoSubcommands` | NetShareCLI/CLI11.hpp:7204-7226 | the one reading of two subcommands of the root: both are chosen, in this order |
| `ArgResults.RootRoom` | NetShareCLI/CLI11.hpp:6554-6565 | in no reading does the root choose more subcommands than it allows |
| `ArgResults.PositionalBound` | NetShareCLI/CLI11.hpp:7109-7125 | in no reading does a positional option without names and extra arguments get more than its minimum |
| `ArgParser.Parser.Consume` | NetShareCLI/CLI11.hpp:7010-7051 | a justified use is made: argument, results and log follow |
| `ArgParser.Parser.CountRemainingPositionals` | NetShareCLI/CLI11.hpp:7054-7065 | the values still wanted by required positional options, and positive only when some positional wants one |
| `ArgParser.Parser.HasRemainingPositionals` | NetShareCLI/CLI11.hpp:7068-7076 | whether some positional option is below its minimum |
| `ArgParser.Parser.StartOption` | NetShareCLI/CLI11.hpp:7294-7322 | which of flag, attached text or bare name is recorded first, and how many texts it brings |
| `ArgParser.Parser.TakeValue` | NetShareCLI/CLI11.hpp:7324-7351 | one argument becomes values of the option named last, and the number collected follows |
| `ArgParser.Parser.CollectAtLeast` | NetShareCLI/CLI11.hpp:7324-7331 | values are taken until the minimum is met or the arguments end, and no more |
| `ArgParser.Parser.CollectUpTo` | NetShareCLI/CLI11.hpp:7338-7351 | values are taken until the option wants no more: at its maximum, at the end, at something that is no value, or for waiting positionals |
| `ArgParser.Parser.EatSeparator` | NetShareCLI/CLI11.hpp:7353-7355 | a "--" on top is used up and recorded; otherwise nothing happens |
| `ArgParser.Parser.CollectOptional` | NetShareCLI/CLI11.hpp:7337-7355 | afterwards the option takes no more of what is left |
| `ArgParser.Parser.Fill` | NetShareCLI/CLI11.hpp:7357-7367 | the text of its own that the option is due is recorded |
| `ArgParser.Parser.FinishOption` | NetShareCLI/CLI11.hpp:7337-7367 | afterwards the option is complete: it takes no more of what is left, and is due no text of its own that was not recorded |
| `ArgParser.Parser.Serve` | NetShareCLI/CLI11.hpp:7294-7373 | an option that is named is recorded first and left only when complete, with its minimum of texts and not more than allowed; it fails only when the arguments run out below the minimum |
| `ArgParser.Parser.ParseArg` | NetShareCLI/CLI11.hpp:7230-7374 | an unknown name is a left-over, a known one is recorded and served; the exception for a token that does not split cannot happen |
| `ArgParser.Parser.NextPositional` | NetShareCLI/CLI11.hpp:7109-7125 | the first positional option that takes one more value |
| `ArgParser.Parser.ParsePositional` | NetShareCLI/CLI11.hpp:7081-7178 | that option gets the argument; otherwise it is handed back only below the root and unchanged |
| `ArgParser.Parser.MoveToMissing` | NetShareCLI/CLI11.hpp:7459-7473 | the argument becomes a left-over of the app |
| `ArgParser.Parser.ParseUnclaimed` | NetShareCLI/CLI11.hpp:7141-7177 | a repeated subcommand is entered, else a token for the parent is handed back, else it is a left-over: which of the three when |
| `ArgParser.Parser.Descend` | NetShareCLI/CLI11.hpp:7209-7220 | the named subcommand is recorded and entered, its turn comes next, and what it leaves is its parent's again |
| `ArgParser.Parser.ParseSubcommand` | NetShareCLI/CLI11.hpp:7204-7226 | the subcommand found is entered, or the token is handed back; the exception at the root cannot happen |
| `ArgParser.Parser.ParseMark` | NetShareCLI/CLI11.hpp:7014-7023 | "--" ends a subcommand exactly when it wants no more positionals; otherwise all that follows is positional |
| `ArgParser.Parser.EndSubcommand` | NetShareCLI/CLI11.hpp:7014-7028 | the subcommand ends and it is the parent's turn |
| `ArgParser.Parser.ParseSingle` | NetShareCLI/CLI11.hpp:7010-7051 | one argument is used up, or handed back below the root, and then it is the parent's turn |
| `ArgParser.Parser.Parse` | NetShareCLI/CLI11.hpp:6888-6932 | the loop ends, at the root it uses up all arguments, and it throws only where an option lacks values |
| `ArgParser.Parser.ProcessHelpFlags` | NetShareCLI/CLI11.hpp:6688-6710 | whether a help option was given on some chain of chosen subcommands down to one that chose none |
| `ArgParser.Parser.ProcessOwnRequirements` | NetShareCLI/CLI11.hpp:6760-6808 | whether one app has its required options, what each given option needs and nothing it excludes, enough subcommands, and a number of options within the limits |
| `ArgParser.Parser.ProcessSubcommandRequirements` | NetShareCLI/CLI11.hpp:6811-6835 | whether an enabled subcommand meets its requirements if it was parsed and was used if it is required |
| `ArgParser.Parser.ProcessRequirements` | NetShareCLI/CLI11.hpp:6713-6836 | whether the requirements are met down the tree of the apps that were parsed |
| `ArgParser.Parser.ProcessExtras` | NetShareCLI/CLI11.hpp:6848-6860 | whether an app that was parsed has left-overs that it does not allow |
| `ArgChecks.MetByAll` | NetShareCLI/CLI11.hpp:6766-6768 | requirements met at the root are met by every app that takes part: all its required options have a result |
| `ArgChecks.HelpIff` | NetShareCLI/CLI11.hpp:6688-6710 | help is asked for exactly when a help option was given to the root or to a chosen subcommand, however far down |
| `ArgChecks.MetIff` | NetShareCLI/CLI11.hpp:6713-6836 | the requirements are met exactly when every app that takes part has what it asks for itself |
| `ArgChecks.OwnIff` | NetShareCLI/CLI11.hpp:6760-6808 | what an app asks for itself is met exactly when each option has a result if it must and one that has goes with those it needs and without those it excludes, and the numbers of options that have results and of subcommands chosen are within the limits |
| `ArgChecks.UntouchedIff` | NetShareCLI/CLI11.hpp:5728-5743 | a subcommand counts as used exactly when it or something below it was parsed or has a result |
| `ArgChecks.ExtrasIff` | NetShareCLI/CLI11.hpp:6848-6860 | the left-overs are allowed exactly when no parsed app that does not allow them has any but the "--" |
| `ArgParser.Parser.ParseAll` | NetShareCLI/CLI11.hpp:6888-6932 | parsing ends for every argument vector with all arguments read once and a log of justified uses that cannot go on, of which there is only one; it succeeds if and only if no option was left short of its minimum, no help was asked for, the requirements of the apps that were parsed are met and none of them has left-overs that it does not allow; then no help option was given to any app on the chain of chosen subcommands, which are always an app's own |
| `AppConfigCodec.Int32RoundTrip` | Treiber Winttun/AppConfig.cpp:4-41 | an int survives being written in four bytes |
| `AppConfigCodec.NamesRoundTrip` | Treiber Winttun/AppConfig.cpp:14-61 | the names come back, each cut at its first NUL, and what follows stays in step |
| `AppConfigCodec.RoundTrip` | Treiber Winttun/AppConfig.cpp:4-61 | reading what was written consumes exactly that, whatever follows, and gives the settings with the names so cut |
| `AppConfigCodec.IdentityIffNoNul` | Treiber Winttun/AppConfig.cpp:50-61 | the settings come back unchanged if and only if no name holds a NUL |
| `AppConfigCodec.NamesBytesPrefixFree` | Treiber Winttun/AppConfig.cpp:14-19 | the stored names and what follows them determine the names |
| `AppConfigCodec.PrefixFree` | Treiber Winttun/AppConfig.cpp:4-20 | no stored configuration is the beginning of a different one, NULs or not |
| `AppConfigCodec.EncodedIsLaidOut` | Treiber Winttun/AppConfig.cpp:4-20 | the stored bytes by position: addresses at 0 and 8 part by part, subnet bits, port and log level at 4, 12 and 16 and the number of names at 20 with weights 1, 256, 65536 and so on, then each name behind its 8-byte length |
| `AppConfigCodec.DecodedIsSaid` | Treiber Winttun/AppConfig.cpp:22-61 | what is read is what the bytes say by these positions, names ending at their first NUL |
| `AppConfigCodec.AppConfig.Write` | Treiber Winttun/AppConfig.cpp:4-20 | the stream gains the encoding of the fields, laid out byte by byte: the addresses part by part in order, the numbers least significant byte first, the count of names and each name behind its length |
| `AppConfigCodec.AppConfig.WriteString` | Treiber Winttun/AppConfig.cpp:43-48 | the length, then all bytes of the name |
| `AppConfigCodec.AppConfig.ReadString` | Treiber Winttun/AppConfig.cpp:50-61 | one length-prefixed name, cut at its first NUL, or nothing when the bytes end |
| `AppConfigCodec.AppConfig.ReadIp` | Treiber Winttun/Config.h:61-66 | the next four bytes, the first of them being the first part |
| `AppConfigCodec.AppConfig.ReadNames` | Treiber Winttun/AppConfig.cpp:31-40 | the counted names and the position after them |
| `AppConfigCodec.AppConfig.Read` | Treiber Winttun/AppConfig.cpp:22-41 | all fields are those that the bytes say by position, and the stream stands behind them |
| `ControlMessages.React` | NetShareCLI/stopDriver.cpp:43-81 | exactly which documents make the client leave and which make it ask to close |
| `ControlMessages.DriverSession` | NetShareCLI/startDriver.cpp:37-79 | the client sends its request and one request to put the connection to closed for each response before the line that makes it leave |
| `ControlMessages.ConfigurationWorker.ParseDriverStatePut` | Treiber Winttun/ConfigurationWorker.cpp:270-349 | the replies for each state of the application, and the complaints; the last reply to a start or stop tells the state that the application is in after it, and where there are two the first tells what was found |
| `ControlMessages.ConfigurationWorker.ParseConnectionStatePut` | Treiber Winttun/ConfigurationWorker.cpp:170-214 | a close request stops the worker and is answered; nothing else stops it |
| `ControlMessages.ConfigurationWorker.ParseDaemonStatePut` | Treiber Winttun/ConfigurationWorker.cpp:416-472 | a put of anything but "stopped" is complained about; "stopped" is answered once the application no longer runs and ends the session |
| `ControlMessages.ConfigurationWorker.PollUntilStopped` | Treiber Winttun/ConfigurationWorker.cpp:446-462 | the updates sent while the application is looked at until it no longer runs |
| `ControlMessages.ConfigurationWorker.ParseConfigPut` | Treiber Winttun/ConfigurationWorker.cpp:351-361 | the complaints about a configuration without proper data; a stored one has no reply |
| `ControlMessages.ConfigurationWorker.ParseGet` | Treiber Winttun/ConfigurationWorker.cpp:117-168 | the complaints about a request; the adapter names are never sent |
| `ControlMessages.ConfigurationWorker.ParsePut` | Treiber Winttun/ConfigurationWorker.cpp:85-115 | the dispatch of a put on its resource |
| `ControlMessages.ConfigurationWorker.ParseMessage` | Treiber Winttun/ConfigurationWorker.cpp:52-83 | the dispatch on the type |
| `ControlMessages.ConfigurationWorker.Run` | Treiber Winttun/ConfigurationWorker.cpp:521-529 | lines are handled until one is empty or ends the session |
| `ControlSession.ReplyOnItsWay` | NetShareCLI/stopDriver.cpp:40-47 | the client never finds the connection closed while it listens |
| `ControlSession.StepMakesProgress` | Treiber Winttun/ConfigurationWorker.cpp:521-529 | every step of either side keeps the invariant and lowers the rank |
| `ControlSession.RunInv` | NetShareCLI/stopDriver.cpp:39-81 | so does every run, and it is no longer than the rank |
| `ControlSession.SessionEndsInOrder` | NetShareCLI/stopDriver.cpp:39-81 | for any replies with a response among them and none that makes the client leave, every run that can go no further has both sides stopped, one close handled, everything read and one close request per further response unread |
| `ControlSession.EndsIffClientMoves` | NetShareCLI/startDriver.cpp:37-79 | for any replies at all, a session that can go no further has ended on both sides exactly when some reply is not ignored |
| `ControlSession.DaemonHandlesAsSession` | Treiber Winttun/ConfigurationWorker.cpp:521-529 | in every run of the two processes the daemon replies as its loop does, and has stopped only when a request ended the session or the client had left |
| `ControlSession.DriverServes` | Treiber Winttun/ConfigurationWorker.cpp:295-342 | the daemon's answers to start and stop requests are such replies, with one response or, for stopping a running driver, two |
| `ControlSession.DriverSessionEnds` | Treiber Winttun/ConfigurationWorker.cpp:295-342 | start and stop sessions end in order within ten steps, with a close request left unread exactly when a running driver was stopped |
| `ControlMessages.DriverTells` | Treiber Winttun/ConfigurationWorker.cpp:295-342 | the last reply carries the state of the application after the request: "startup" while it starts up, "running" exactly when it then runs, "stopped" exactly when it does not after a stop, "crashed" with the reason exactly when a start does not come up |
| `ControlReplies.ClientIsTold` | Treiber Winttun/ConfigurationWorker.cpp:295-342 | in every run of the two processes to its end that state is what the client has received last before "closed", and a stop of a running driver was first answered "running" |
| `ControlReplies.EndsOnlySo` | Treiber Winttun/ConfigurationWorker.cpp:52-115 | a line ends the session exactly when it puts the connection to "closed" or the daemon to "stopped" |
| `ControlReplies.OthersAreComplainedAbout` | Treiber Winttun/ConfigurationWorker.cpp:52-168 | every line that is none of the requests known is answered with one complaint and does not end the session |
| `ControlReplies.RunningIsTold` | Treiber Winttun/ConfigurationWorker.cpp:446-462 | while it stops itself the daemon tells "worker.running" once for each look that found the application running, and "worker.stopped" last |
| `Adapters.NetworkAdapterList.DeactivateEverythingBut` | Treiber Winttun/NetworkAdapterList.h:69-90 | an adapter is in use afterwards exactly when its name was given |
| `Adapters.NetworkAdapterList.GenerateUdpConfigs` | Treiber Winttun/NetworkAdapterList.h:92-134 | a sender and a receiver for each adapter in use, in order, on one address, port and socket |
| `Adapters.NetworkAdapterList.HasActivatedNetworkAdapters` | Treiber Winttun/NetworkAdapterList.h:136-149 | true exactly when some adapter is in use |
| `Adapters.ActiveAreSelected` | Treiber Winttun/NetworkAdapterList.h:69-90 | the adapters in use are those named, in list order |
| `Adapters.Configure` | Treiber Winttun/Application.cpp:116-142 | choosing and generating give the pairs for exactly the named adapters |
| `Adapters.PortsDistinctIff` | Treiber Winttun/UDPWorkerConfig.h:10 | 16-bit ports of different pairs differ if and only if at most 65536 adapters are in use |
| `Adapters.PortsUsableIff` | Treiber Winttun/NetworkAdapterList.h:94 | no port is 0 if and only if at most 6 adapters are in use |
| `Adapters.UidsDistinctIff` | Treiber Winttun/UDPWorkerConfig.h:18 | 8-bit ids differ if and only if at most 128 adapters are in use |
| `Adapters.WorkerInOrder` | Treiber Winttun/NetworkAdapterList.h:92-134 | worker i is a receiver exactly when i is odd, has the address and socket of adapter i / 2 in use, port 65530 + i / 2 for the first six adapters and counting from 0 after them, and id i below 256 |
| `Adapters.ActiveOfSum` | Treiber Winttun/NetworkAdapterList.h:92-134 | lists of adapters side by side have their adapters in use side by side |
| `Addresses.ParseIpString` | Treiber Winttun/utils.cpp:3-14 | part i is the number in dot segment min(i, last), modulo 256, for every string |
| `Addresses.NetworkAdapter.constructor` | Treiber Winttun/NetworkAdapter.h:12-31 | the constructor computes the same address |
| `Addresses.IpByCutting` | Treiber Winttun/utils.cpp:6-12 | cutting the text at one dot after the other reaches these segments |
| `Addresses.AtoiOfHead` | Treiber Winttun/utils.cpp:12 | a dot ends a number, so the last part need not be cut |
| `Addresses.ParseDotted` | Treiber Winttun/utils.cpp:3-14 | parsing the dotted form of any address gives the address |
| `Addresses.AtoiOfSigned` | Treiber Winttun/utils.cpp:3-14 | a number is read behind whitespace and a sign, up to what is no digit |
| `Addresses.AtoiOfNoNumber` | Treiber Winttun/utils.cpp:3-14 | a text that begins with no number is 0 |
| `Addresses.IpOfFewer` | Treiber Winttun/utils.cpp:3-14 | with fewer than three dots the last part stands in for the missing ones |
| `Addresses.IpOfNumbers` | Treiber Winttun/utils.cpp:3-14 | four numbers of any size give their low eight bits |
| `Addresses.PackIsNumber` | Treiber Winttun/UPDSocketWorker.cpp:52-58 | shifting and or-ing the parts gives the base-256 number |
| `Addresses.PackInjective` | Treiber Winttun/UPDSocketWorker.cpp:149-155 | the word fits 32 bits and no two addresses share one |

## Left out

- `Ring.Workqueue.Push`: needs a ring of at least one slot; with none the source's index arithmetic wraps below zero, and the driver uses one fixed capacity.
- The one-packet `pop` and the `addToStart` without argument, which the source marks as unused and which break the index invariant.
- `SenderLoop.SendBatch`: the batch is shorter than the range of the machine word, and only finitely many sends are refused.
- `Pipeline.WorkersRunOut`: counts steps; that a refused send is retried only finitely often is not the code's to guarantee, so refusals appear in the bound.
- `Pipeline.NeverCrashes`: flags are read and written in one order seen by all threads, every thread is created, `shutdown` runs once, and closing the quit event, freeing the adapter and shutting Winsock down are one stage with ending the session; the start-up machine of `Application` is left out and runs start where `run` ends.
- `Pipeline.PacketsAreConserved`: who frees a packet is not modelled; the source never frees what it sends.
- The overflow of the `runFor` counter, which takes billions of packets without a pause.
- The width of the counters of `Statistics`, and `calculateStats`, which reads and resets them without the mutex.
- `AppConfigCodec.RoundTrip`: lengths and counts fit the eight bytes they are stored in, as every string in memory does.
- `AppConfigCodec.AppConfig.Read`: for a file that ends too early the source reads uninitialised memory; the model reports failure instead.
- `IniValues.IniRoundTrip`: for texts without commas, with quotes of one kind at most and none around them, other than a single quote alone, and not ending in a backslash; which texts are floating-point numbers is a parameter that may accept, among these texts, words without inner whitespace and a leading bracket only. Lines of the file are given, so newlines inside a value do not arise.
- `ConfigReader.FromConfig`: no entry may itself be named "++" or "--", which the reader cannot tell from its own events.
- `ArgParser.Parser.ParseAll`: the tree is a root and named subcommands. Option groups, fallthrough, prefix commands, positionals at end, callbacks and with them the conversion and validation of option texts, aliases and case folding (an app has a list of names), delimiters inside values, flags with named values and the environment and file stages are left out. Of the requirements those that a whole app needs or excludes are left out. Arguments are kept first to last where the source keeps them reversed, and an option that takes no value takes no extra ones either.
- The wording of help texts and errors of CLI11.
- `ControlMessages.ConfigurationWorker.ParseMessage`: JSON documents are data, with unique member names; complaints carry a label in place of their wording, and what a configuration put stores is left out.
- `ControlMessages.ConfigurationWorker.ParseDaemonStatePut`: what the daemon finds at each look at the application is a parameter of finite length; the exit of the process is the end of the session.
- `ControlSession.SessionEndsInOrder`: the channels lose nothing, also when one side closes with messages unread.
- `Addresses.ParseIpString`: numbers are unbounded; a segment outside the range of int is undefined in the source.
- `Adapters.NetworkAdapterList.GenerateUdpConfigs`: opening a socket is a parameter; its failure and the shared `Config` object are left out, and adapters are held by value.
- Winsock, WinTun, threads and events beyond the answers they give; logging and profiling; the second copy of CLI11 in the driver; the C# user interface.
