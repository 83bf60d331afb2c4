# Epoll-driven packet capture: dispatch logic and bit-vector macros

This project models two pieces of the repository in Dafny and proves properties of them.

**`pcap_epoll.dfy`, module `PcapEpoll`.** This is the decision logic of the epoll-based
packet-capture demo. The program keeps one global configuration record. The class
`Dispatcher` is that record, with fields for verbosity, device, filter, snap length, the
capture descriptor, whether the capture handle is open, the tick counter, and the signal
and epoll descriptors. Its methods update those fields in place, as the C functions do:

- `HandleSignal`, `GetPcapData`, `SetFilter`, `DoStats` and `NewEpoll`;
- `Startup`, which runs in two phases: `OpenSignalChannel`, then `OpenCapture`;
- one pass of the dispatch loop (`Step`) and the loop itself (`RunLoop`);
- `Teardown`;
- `main` (`Execute`), which consists of the option loop (`ParseOptions`) and the rest (`Session`, then `Serve`).

The kernel and the capture library are not modelled. Every call the program makes into
them is appended, in order, to the field `calls`. Every outcome those calls produce is a
parameter:

- `Boot` holds the results of the startup calls;
- `Wake` holds what one `epoll_wait` reports, plus what the handler for that descriptor gets back.

Each method is proved against a pure function of the old record and the outcomes
(`SignalOutcome`, `StepOutcome`, `StartupOutcome`, `LoopOutcome`, `ProgramOutcome`, …).
The lemmas about those functions state the program's guarantees:

- the fixed startup order, and that startup stops at the first failure;
- routing by descriptor identity;
- the tick counter and the statistics query every 10th tick;
- the loop ends at the first failing handler or empty wait;
- the capture handle is closed exactly once, and only if it was opened;
- an early failure closes nothing.

**`ecc_bits.dfy`, module `EccBits`.** These are the bit-vector macros of the
error-correcting-code header and its mode codes.

- `BitTest` is the pure read.
- `BitSet` and `BitClear` write one byte of an `array<bv8>` in place. They are proved against `SetBitOf` and `ClearBitOf`.
- `Bits` is an independent bit-level view of the buffer. The lemmas use it to show that exactly one bit changes.

The model follows the code as written, including where a reader might expect otherwise:

- `set_filter`'s result is ignored by `main`. A filter that fails to compile or attach does not stop startup (`FilterResultIgnored`).
- `main` returns 0 on every path that reaches `done`, including every startup failure and every dispatch failure. Only `usage` exits with -1.
- The loop runs while `epoll_wait` returns a positive count. A return of 0 or -1, including an interrupted wait, ends the loop and leads to teardown. It is not a no-op.
- Any signal other than `SIGALRM` ends the loop, not only the termination-class signals.
- Teardown closes only the capture handle and the capture descriptor. The signal and epoll descriptors are left to process exit.

## Model

| member | source | states |
|---|---|---|
| PcapEpoll.Dispatcher.constructor | network/pcap/epoll/pcap-epoll.c:27-31 | the record starts with snaplen 65535, capture descriptor -1, device "eth0", everything else zero or null, and no calls made |
| PcapEpoll.ApplyOption | network/pcap/epoll/pcap-epoll.c:137-142 | an option leads to usage exactly when it is not `-v`, `-f` or `-i` |
| PcapEpoll.OptionsOutcome | network/pcap/epoll/pcap-epoll.c:136-143 | the option loop changes only verbose, device and filter, and never lowers verbose |
| PcapEpoll.UsageWhenUnknown | network/pcap/epoll/pcap-epoll.c:136-143 | usage is reached if and only if some option is not `-v`, `-f` or `-i` |
| PcapEpoll.VerboseCounts | network/pcap/epoll/pcap-epoll.c:138 | verbose ends as its start value plus the number of `-v` options |
| PcapEpoll.LastFilterWins | network/pcap/epoll/pcap-epoll.c:139 | the filter is the argument of the last `-f`, or unchanged when there is none |
| PcapEpoll.LastInterfaceWins | network/pcap/epoll/pcap-epoll.c:140 | the device is the argument of the last `-i`, or unchanged when there is none |
| PcapEpoll.UsageStops | network/pcap/epoll/pcap-epoll.c:141 | once usage is reached, later options change nothing |
| PcapEpoll.Dispatcher.ParseOptions | network/pcap/epoll/pcap-epoll.c:136-143 | the getopt loop leaves the record as `OptionsOutcome` says, and reports usage when it does |
| PcapEpoll.AcceptedSignalSet | network/pcap/epoll/pcap-epoll.c:151-153 | the set built from the `sigs` table is exactly {SIGHUP, SIGTERM, SIGINT, SIGQUIT, SIGALRM} |
| PcapEpoll.StatsCalls | network/pcap/epoll/pcap-epoll.c:69-75 | do_stats makes no call when verbose is 0, and otherwise exactly one call, which is `pcap_stats` |
| PcapEpoll.Dispatcher.DoStats | network/pcap/epoll/pcap-epoll.c:69-75 | do_stats appends the query when verbose and changes no field |
| PcapEpoll.SignalOutcome | network/pcap/epoll/pcap-epoll.c:91-116 | handle_signal returns 0 or -1; it returns 0 exactly for a full SIGALRM record; only ticks can change |
| PcapEpoll.AlarmHandled | network/pcap/epoll/pcap-epoll.c:100-105 | a full SIGALRM record gives 0 and ticks + 1; the record is read first, `alarm(1)` comes last, and only the statistics query lies between |
| PcapEpoll.AlarmCounts | network/pcap/epoll/pcap-epoll.c:103-104 | the alarm is re-armed once; statistics are queried once exactly when the new tick count is a multiple of 10 and verbose is on |
| PcapEpoll.FatalSignal | network/pcap/epoll/pcap-epoll.c:95-110 | a short read or any signal but SIGALRM gives -1, makes only the read, and leaves the record unchanged |
| PcapEpoll.StatsFailureHarmless | network/pcap/epoll/pcap-epoll.c:72 | a failed `pcap_stats` does not change what handle_signal does |
| PcapEpoll.Dispatcher.HandleSignal | network/pcap/epoll/pcap-epoll.c:91-116 | handle_signal updates ticks and makes its calls as `SignalOutcome` says |
| PcapEpoll.FilterOutcome | network/pcap/epoll/pcap-epoll.c:51-67 | set_filter: no filter means 0 and no call; otherwise 0 exactly when both compile and setfilter return 0, a failure returns the failing code, and compile comes first |
| PcapEpoll.FilterCalls | network/pcap/epoll/pcap-epoll.c:55-62 | setfilter is called exactly when there is a filter and it compiled |
| PcapEpoll.Dispatcher.SetFilter | network/pcap/epoll/pcap-epoll.c:51-67 | set_filter's result and calls are those of `FilterOutcome` |
| PcapEpoll.DispatchOutcome | network/pcap/epoll/pcap-epoll.c:118-129 | get_pcap_data returns -1 if and only if the dispatch count is negative, and asks for at most 10000 packets in one call |
| PcapEpoll.Dispatcher.GetPcapData | network/pcap/epoll/pcap-epoll.c:118-129 | get_pcap_data's result and call are those of `DispatchOutcome` |
| PcapEpoll.Dispatcher.NewEpoll | network/pcap/epoll/pcap-epoll.c:77-89 | new_epoll registers the descriptor and returns epoll_ctl's result |
| PcapEpoll.StepOutcome | network/pcap/epoll/pcap-epoll.c:180-184 | a pass goes on exactly when the wait reported a descriptor and its handler succeeded; only ticks can change |
| PcapEpoll.StepRouting | network/pcap/epoll/pcap-epoll.c:182-183 | the signal descriptor runs only handle_signal, the capture descriptor only get_pcap_data, and any other descriptor nothing |
| PcapEpoll.SignalCalls | network/pcap/epoll/pcap-epoll.c:91-116 | handle_signal makes only loop calls and never waits |
| PcapEpoll.StepCalls | network/pcap/epoll/pcap-epoll.c:180-184 | every pass waits first and exactly once, and makes only loop calls |
| PcapEpoll.Dispatcher.Step | network/pcap/epoll/pcap-epoll.c:180-184 | one pass updates the record and makes its calls as `StepOutcome` says |
| PcapEpoll.LoopOutcome | network/pcap/epoll/pcap-epoll.c:180-184 | the loop consumes at most the whole script and changes only ticks, which never decrease |
| PcapEpoll.LoopStopsAtFirstFailure | network/pcap/epoll/pcap-epoll.c:180-184 | the loop stops at the first wake that does not let it go on, and passes every earlier one |
| PcapEpoll.FatalSignalStops | network/pcap/epoll/pcap-epoll.c:182 | a non-alarm signal after passes that went on stops the loop on that wake |
| PcapEpoll.LoopCallsOnly | network/pcap/epoll/pcap-epoll.c:180-184 | the loop only waits, reads signals, queries statistics, re-arms the alarm and dispatches; it waits once per wake consumed |
| PcapEpoll.AlarmStep | network/pcap/epoll/pcap-epoll.c:101-104 | an alarm wake goes on, adds one tick, re-arms once, and queries statistics on every 10th tick when verbose |
| PcapEpoll.AlarmsTick | network/pcap/epoll/pcap-epoll.c:103-104 | a run of alarm wakes never stops the loop, adds one tick per alarm and re-arms the alarm once per alarm |
| PcapEpoll.QuietStepNeverQueries | network/pcap/epoll/pcap-epoll.c:71 | with verbose off, a pass never queries the statistics |
| PcapEpoll.QuietLoopNeverQueries | network/pcap/epoll/pcap-epoll.c:71 | with verbose off, the loop never queries the statistics, whatever wakes it |
| PcapEpoll.StopIsFinal | network/pcap/epoll/pcap-epoll.c:180-184 | after the loop has stopped, later wakes change nothing |
| PcapEpoll.Dispatcher.RunLoop | network/pcap/epoll/pcap-epoll.c:180-184 | the while loop ends in the state `LoopOutcome` gives and reports whether it stopped |
| PcapEpoll.ChannelSetup | network/pcap/epoll/pcap-epoll.c:145-170 | the signal-channel phase succeeds exactly when signalfd, epoll_create and the registration all succeed; it sets only the two descriptors |
| PcapEpoll.CaptureSetup | network/pcap/epoll/pcap-epoll.c:172-179 | the capture phase succeeds exactly when the open succeeds and the registration returns 0; the handle is open exactly when the open succeeded |
| PcapEpoll.StartupOutcome | network/pcap/epoll/pcap-epoll.c:145-179 | startup returns 0 exactly when signalfd, epoll_create, both registrations and pcap_open_live all succeed (`SessionOutcome` states that only then is the loop entered) |
| PcapEpoll.StartupInOrder | network/pcap/epoll/pcap-epoll.c:145-179 | startup's calls come in the fixed order: the whole order on success, a strict prefix of it on failure |
| PcapEpoll.StartupStopsAtFailure | network/pcap/epoll/pcap-epoll.c:156-177 | a failing step skips every later one; the number of calls made identifies the failing step |
| PcapEpoll.StartupArmsAlarm | network/pcap/epoll/pcap-epoll.c:179 | the first alarm is armed exactly when the loop is entered |
| PcapEpoll.StartupClosesNothing | network/pcap/epoll/pcap-epoll.c:145-179 | startup never closes the handle or any descriptor |
| PcapEpoll.StartupNeverWaits | network/pcap/epoll/pcap-epoll.c:145-179 | no startup step, whichever one fails, waits for events |
| PcapEpoll.StartupCapture | network/pcap/epoll/pcap-epoll.c:173-175 | the handle is open after startup exactly when the open was reached and succeeded; only then is the capture descriptor set |
| PcapEpoll.FilterResultIgnored | network/pcap/epoll/pcap-epoll.c:176 | the outcome of compile and setfilter does not change whether startup succeeds, nor the record it leaves |
| PcapEpoll.Dispatcher.OpenSignalChannel | network/pcap/epoll/pcap-epoll.c:145-170 | the first startup phase sets the descriptors and makes the calls `ChannelSetup` gives |
| PcapEpoll.Dispatcher.OpenCapture | network/pcap/epoll/pcap-epoll.c:172-179 | the second startup phase sets the handle and descriptor and makes the calls `CaptureSetup` gives |
| PcapEpoll.Dispatcher.Startup | network/pcap/epoll/pcap-epoll.c:145-179 | startup leaves the record and the calls that `StartupOutcome` gives |
| PcapEpoll.TeardownCalls | network/pcap/epoll/pcap-epoll.c:186-188 | teardown makes at most two calls |
| PcapEpoll.TeardownCloses | network/pcap/epoll/pcap-epoll.c:186-188 | the handle is closed exactly when it is open, and once; the descriptor is closed exactly when it is positive; a valid record with no open handle closes nothing |
| PcapEpoll.Dispatcher.Teardown | network/pcap/epoll/pcap-epoll.c:186-189 | teardown makes the calls `TeardownCalls` gives and returns 0 |
| PcapEpoll.ServeOutcome | network/pcap/epoll/pcap-epoll.c:180-189 | once the loop is entered, the program is still running exactly when the loop has not stopped, and a stopped loop leads to main returning 0 |
| PcapEpoll.SessionOutcome | network/pcap/epoll/pcap-epoll.c:145-189 | after the options: a failed startup skips the loop (no `epoll_wait`) and main returns 0; after a successful startup the program is still running exactly when the loop has not stopped; it never exits through usage |
| PcapEpoll.ProgramOutcome | network/pcap/epoll/pcap-epoll.c:131-190 | main exits with -1 exactly on usage, making no call; every other exit returns 0; it keeps running only after a successful startup |
| PcapEpoll.ServeClosesOnce | network/pcap/epoll/pcap-epoll.c:180-188 | the loop never closes the handle; the teardown after it closes it once, if it is open |
| PcapEpoll.SessionClosesOnce | network/pcap/epoll/pcap-epoll.c:172-188 | with no handle open beforehand, the handle is closed exactly once when main returns, if it was opened |
| PcapEpoll.CaptureClosedOnce | network/pcap/epoll/pcap-epoll.c:172-188 | from the initial record, a handle that was opened is closed exactly once when main returns and never while the loop runs; one never opened is never closed |
| PcapEpoll.EarlyFailureClosesNothing | network/pcap/epoll/pcap-epoll.c:156-170 | a failure before the open returns 0, closes nothing and never waits |
| PcapEpoll.Dispatcher.Serve | network/pcap/epoll/pcap-epoll.c:180-189 | the loop and the teardown after it leave the record and the calls that `ServeOutcome` gives |
| PcapEpoll.Dispatcher.Session | network/pcap/epoll/pcap-epoll.c:145-189 | startup, loop and teardown leave the record and the calls that `SessionOutcome` gives |
| PcapEpoll.Dispatcher.Execute | network/pcap/epoll/pcap-epoll.c:131-190 | main's status, record and calls are those of `ProgramOutcome` |
| EccBits.Offset | compression/ecc/eccode.h:8 | the in-byte position `i % 8` is below 8 |
| EccBits.Bits | compression/ecc/eccode.h:8 | the bit view has 8 bits per byte |
| EccBits.BitTest | compression/ecc/eccode.h:8 | BIT_TEST is non-zero if and only if bit `i` is 1, and is then the mask `1 << (i % 8)` |
| EccBits.MaskedBit | compression/ecc/eccode.h:8 | masking a byte with `1 << k` is non-zero exactly when bit `k` is 1 |
| EccBits.OrBit | compression/ecc/eccode.h:9 | or-ing in bit `k` sets that bit and keeps the other bits of the byte |
| EccBits.AndNotBit | compression/ecc/eccode.h:10 | and-ing with the complement of bit `k` clears that bit and keeps the others |
| EccBits.SetBitOf | compression/ecc/eccode.h:9 | BIT_SET keeps the buffer's length and every other byte |
| EccBits.ClearBitOf | compression/ecc/eccode.h:10 | BIT_CLEAR keeps the buffer's length and every other byte |
| EccBits.SetBitView | compression/ecc/eccode.h:9 | after BIT_SET, the bit view is the old one with bit `i` set to 1 |
| EccBits.ClearBitView | compression/ecc/eccode.h:10 | after BIT_CLEAR, the bit view is the old one with bit `i` set to 0 |
| EccBits.SetThenTest | compression/ecc/eccode.h:8-9 | after BIT_SET, BIT_TEST of the same bit is non-zero, whatever the bit was |
| EccBits.ClearThenTest | compression/ecc/eccode.h:8-10 | after BIT_CLEAR, BIT_TEST of the same bit is zero, whatever the bit was |
| EccBits.OtherBitsKept | compression/ecc/eccode.h:8-10 | BIT_SET and BIT_CLEAR leave BIT_TEST of every other bit unchanged |
| EccBits.SetClearIdempotent | compression/ecc/eccode.h:9-10 | applying BIT_SET twice gives the same buffer as once, and so does BIT_CLEAR |
| EccBits.LastWriteWins | compression/ecc/eccode.h:9-10 | a BIT_CLEAR after a BIT_SET of the same bit equals the BIT_CLEAR alone, and the other way round |
| EccBits.BitSet | compression/ecc/eccode.h:9 | the in-place BIT_SET leaves the array as `SetBitOf` says, and the bit then tests non-zero |
| EccBits.BitClear | compression/ecc/eccode.h:10 | the in-place BIT_CLEAR leaves the array as `ClearBitOf` says, and the bit then tests zero |
| EccBits.ModeCode | compression/ecc/eccode.h:12-17 | every mode's code lies in 0..5 |
| EccBits.ModeOf | compression/ecc/eccode.h:12-17 | a code names a mode exactly when it is in 0..5, and that mode's code is the given code |
| EccBits.ModeCodesDistinct | compression/ecc/eccode.h:12-17 | every mode reads back from its code, and different modes have different codes |

## Left out

- The kernel and the capture library are outside the model: signal masks, signalfd, epoll, `read`, `alarm`, `close`, and all of libpcap. Each call is a `Call` entry in order, and its result is an input. No timer, readiness or packet semantics are modelled.
- All diagnostics (`fprintf`, `pcap_perror`) are left out, and so are the packet callback `cb` and the empty `periodic_work`. None of them changes the record.
- `usage`'s message and the process exit are not modelled. Reaching usage is the status `Exited(-1)`, and the option loop stops there.
- `getopt`'s own parsing and `strdup` are not modelled. The options come in already parsed, with `-h`, unknown flags and missing arguments all as `Other`.
- Signed overflow of `ticks` is undefined behaviour in C. `ticks` is an unbounded `nat`, so wrap-around is not modelled.
- The loop is infinite in C. The model runs it over a finite script of wakes, and the status `Running` means the script ended while the loop was still waiting.
- One `epoll_wait` reports at most one descriptor. Batches of several ready events are not modelled, which matches `maxevents` being 1 in the source.
- The record's `prog`, `fp` (the compiled program) and `err` (the error buffer) are not modelled. The `pcap_t` handle is reduced to whether it is open.
- The `epoll_fd` argument of `epoll_ctl` and the event mask are not recorded in `EpollAdd`. Both are fixed in the source.
- `ecc_recode` and `ecc_compute_olen` are only declared in the header, so they are not part of this model.
- EccBits.BitTest: returns the masked byte as a `bv8`. The C macro's `int` result after integer promotion is not modelled.
- AlarmsTick: states the tick and re-arm counts over a run of alarms, but not the number of statistics queries over the whole run. That count is stated for each single pass, by `AlarmCounts` and `AlarmStep`.
