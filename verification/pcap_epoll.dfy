/** The event-dispatch core of the epoll-based packet-capture demo.

    The program keeps one global configuration record; `Dispatcher` is that
    record as an object whose methods update its fields in place, as the C
    functions do.  Every call the program makes into the kernel or into the
    capture library is appended to the field `calls`, and its outcome is a
    parameter (`Boot` for the startup calls, `Wake` for one pass of the
    dispatch loop).  Each method is proved against a pure function of the old
    state and its inputs (`SignalOutcome`, `StepOutcome`, `StartupOutcome`, ...);
    the lemmas and the functions' own contracts state what those functions
    promise.
 */
module PcapEpoll {

  datatype Option<T> = None | Some(value: T)

  // Signal numbers, as Linux defines them.
  const SIGHUP: int := 1
  const SIGINT: int := 2
  const SIGQUIT: int := 3
  const SIGALRM: int := 14
  const SIGTERM: int := 15

  /** sizeof(struct signalfd_siginfo): one full record read from the signal fd. */
  const SIGINFO_SIZE: int := 128
  /** The most packets one `pcap_dispatch` call is asked for. */
  const DISPATCH_BATCH: int := 10000
  const DEFAULT_SNAPLEN: int := 65535
  const DEFAULT_DEV: string := "eth0"

  /** The signals accepted through the signal fd, in the order of the `sigs` table. */
  const Sigs: seq<int> := [SIGHUP, SIGTERM, SIGINT, SIGQUIT, SIGALRM]
  const Accepted: set<int> := {SIGHUP, SIGTERM, SIGINT, SIGQUIT, SIGALRM}

  /** A call into the kernel or the capture library. */
  datatype Call =
    | BlockAllSignals                         // sigfillset + sigprocmask(SIG_SETMASK)
    | SignalFdCreate(accepted: set<int>)
    | EpollCreate
    | EpollAdd(fd: int)                       // epoll_ctl(EPOLL_CTL_ADD, fd, EPOLLIN)
    | PcapOpenLive(dev: string, snaplen: int)
    | PcapSelectableFd
    | PcapCompile(expr: string)
    | PcapSetFilter
    | Alarm(seconds: int)
    | EpollWait
    | ReadSignalFd
    | PcapStats
    | PcapDispatch(maxPackets: int)
    | PcapClose
    | Close(fd: int)

  /** The configuration record (the fields the decision logic uses). `pcapOpen`
      stands for a non-null capture handle. */
  datatype Cfg = Cfg(verbose: nat, dev: string, filter: Option<string>, snaplen: int,
                     pcapFd: int, pcapOpen: bool, ticks: nat, signalFd: int, epollFd: int)

  /** The record's static initial value: snaplen, pcap fd and device as given,
      everything else zero or null. */
  const Initial: Cfg := Cfg(0, DEFAULT_DEV, None, DEFAULT_SNAPLEN, -1, false, 0, 0, 0)

  /** Only an open capture handle has a capture descriptor. */
  predicate ValidCfg(c: Cfg) {
    !c.pcapOpen ==> c.pcapFd == -1
  }

  /** What `read(signal_fd, &info, sizeof info)` gave: the byte count and the record's signal number. */
  datatype SigInfo = SigInfo(bytes: int, signo: int)

  /** The outcomes one pass of the dispatch loop meets: what `epoll_wait` returned
      and the descriptor it reported, then what the handler for that descriptor
      would get back (the signal record and `pcap_stats`, or `pcap_dispatch`). */
  datatype Wake = Wake(ready: int, fd: int, info: SigInfo, statsRc: int, dispatched: int)

  /** The outcomes of the startup calls, in the order the calls are made. */
  datatype Boot = Boot(signalFd: int, epollFd: int, addSignalRc: int, pcapOpened: bool,
                       selectableFd: int, compileRc: int, setFilterRc: int, addPcapRc: int)

  /** A command-line option as returned by getopt; `Other` is `-h`, an unknown
      flag or a missing argument. */
  datatype Opt = Verbose | Filter(expr: string) | Interface(dev: string) | Other(flag: char)

  /** A return code, the new record and the calls made. */
  datatype After = After(rc: int, cfg: Cfg, calls: seq<Call>)
  /** A return code and the calls made, for a function that changes no field of the record. */
  datatype Reply = Reply(rc: int, calls: seq<Call>)
  /** One pass of the loop: whether the loop goes on. */
  datatype Turn = Turn(cont: bool, cfg: Cfg, calls: seq<Call>)
  /** A run of the loop over a finite script of wakes: how many were consumed and
      whether the loop stopped (otherwise it is still waiting when the script ends). */
  datatype LoopRun = LoopRun(cfg: Cfg, calls: seq<Call>, consumed: nat, stopped: bool)
  datatype Parsed = Parsed(cfg: Cfg, usage: bool)
  /** How the program ends: `main` returned or `usage` exited with the code, or it is still in its loop. */
  datatype Status = Exited(code: int) | Running
  datatype Finish = Finish(status: Status, cfg: Cfg, calls: seq<Call>)

  // ---------------------------------------------------------------- options

  /** The effect of one option on the record, or None for the usage exit. */
  function ApplyOption(c: Cfg, o: Opt): (r: Option<Cfg>)
    ensures r.None? <==> o.Other?
  {
    match o
    case Verbose => Some(c.(verbose := c.verbose + 1))
    case Filter(e) => Some(c.(filter := Some(e)))
    case Interface(d) => Some(c.(dev := d))
    case Other(_) => None
  }

  /** The getopt loop over already-parsed options; it stops at the first option that calls usage. */
  function OptionsOutcome(c: Cfg, opts: seq<Opt>): (r: Parsed)
    ensures r.cfg == c.(verbose := r.cfg.verbose, dev := r.cfg.dev, filter := r.cfg.filter)
    ensures r.cfg.verbose >= c.verbose
    decreases |opts|
  {
    if opts == [] then Parsed(c, false)
    else
      var p := OptionsOutcome(c, opts[..|opts| - 1]);
      if p.usage then p
      else match ApplyOption(p.cfg, opts[|opts| - 1])
        case None => Parsed(p.cfg, true)
        case Some(c') => Parsed(c', false)
  }

  lemma PrefixLast<T>(s: seq<T>)
    requires s != []
    ensures s == s[..|s| - 1] + [s[|s| - 1]]
  {
  }

  /** Usage is reached exactly when some option is not `-v`, `-f` or `-i`. */
  lemma {:induction false} UsageWhenUnknown(c: Cfg, opts: seq<Opt>)
    ensures OptionsOutcome(c, opts).usage <==> exists k :: 0 <= k < |opts| && opts[k].Other?
    decreases |opts|
  {
    if opts != [] {
      var init := opts[..|opts| - 1];
      UsageWhenUnknown(c, init);
      if exists k :: 0 <= k < |init| && init[k].Other? {
        var k :| 0 <= k < |init| && init[k].Other?;
        assert opts[k] == init[k];
      }
      if exists k :: 0 <= k < |opts| && opts[k].Other? {
        var k :| 0 <= k < |opts| && opts[k].Other?;
        if k < |init| { assert init[k] == opts[k]; }
      }
    }
  }

  /** Each `-v` counts the verbosity up by one. */
  lemma {:induction false} VerboseCounts(c: Cfg, opts: seq<Opt>)
    requires !OptionsOutcome(c, opts).usage
    ensures OptionsOutcome(c, opts).cfg.verbose == c.verbose + multiset(opts)[Verbose]
    decreases |opts|
  {
    if opts != [] {
      var init := opts[..|opts| - 1];
      PrefixLast(opts);
      VerboseCounts(c, init);
    }
  }

  /** The last `-f` wins; without any `-f` the filter keeps its value. */
  lemma {:induction false} LastFilterWins(c: Cfg, opts: seq<Opt>)
    requires !OptionsOutcome(c, opts).usage
    ensures forall k :: 0 <= k < |opts| && opts[k].Filter? && (forall j :: k < j < |opts| ==> !opts[j].Filter?) ==>
              OptionsOutcome(c, opts).cfg.filter == Some(opts[k].expr)
    ensures (forall k :: 0 <= k < |opts| ==> !opts[k].Filter?) ==> OptionsOutcome(c, opts).cfg.filter == c.filter
    decreases |opts|
  {
    if opts != [] {
      var init := opts[..|opts| - 1];
      LastFilterWins(c, init);
      forall k | 0 <= k < |opts| - 1 && opts[k].Filter? && (forall j :: k < j < |opts| ==> !opts[j].Filter?)
        ensures OptionsOutcome(c, opts).cfg.filter == Some(opts[k].expr)
      {
        assert init[k] == opts[k];
        forall j | k < j < |init| ensures !init[j].Filter? { assert init[j] == opts[j]; }
      }
      if forall k :: 0 <= k < |opts| ==> !opts[k].Filter? {
        forall k | 0 <= k < |init| ensures !init[k].Filter? { assert init[k] == opts[k]; }
      }
    }
  }

  /** The last `-i` wins; without any `-i` the device keeps its value. */
  lemma {:induction false} LastInterfaceWins(c: Cfg, opts: seq<Opt>)
    requires !OptionsOutcome(c, opts).usage
    ensures forall k :: 0 <= k < |opts| && opts[k].Interface? && (forall j :: k < j < |opts| ==> !opts[j].Interface?) ==>
              OptionsOutcome(c, opts).cfg.dev == opts[k].dev
    ensures (forall k :: 0 <= k < |opts| ==> !opts[k].Interface?) ==> OptionsOutcome(c, opts).cfg.dev == c.dev
    decreases |opts|
  {
    if opts != [] {
      var init := opts[..|opts| - 1];
      LastInterfaceWins(c, init);
      forall k | 0 <= k < |opts| - 1 && opts[k].Interface? && (forall j :: k < j < |opts| ==> !opts[j].Interface?)
        ensures OptionsOutcome(c, opts).cfg.dev == opts[k].dev
      {
        assert init[k] == opts[k];
        forall j | k < j < |init| ensures !init[j].Interface? { assert init[j] == opts[j]; }
      }
      if forall k :: 0 <= k < |opts| ==> !opts[k].Interface? {
        forall k | 0 <= k < |init| ensures !init[k].Interface? { assert init[k] == opts[k]; }
      }
    }
  }

  /** Once usage is reached, later options change nothing: the loop has exited. */
  lemma {:induction false} UsageStops(c: Cfg, opts: seq<Opt>, i: nat)
    requires i <= |opts| && OptionsOutcome(c, opts[..i]).usage
    ensures OptionsOutcome(c, opts) == OptionsOutcome(c, opts[..i])
    decreases |opts| - i
  {
    if i < |opts| {
      assert opts[..i + 1][..i] == opts[..i];
      UsageStops(c, opts, i + 1);
    } else {
      assert opts[..i] == opts;
    }
  }

  // ---------------------------------------------------------------- signals

  /** The set the signal fd is created with: the entries of the `sigs` table. */
  method AcceptedSignalSet() returns (sw: set<int>)
    ensures sw == Accepted
    ensures forall s :: s in sw <==> s in Sigs
  {
    sw := {};
    for n := 0 to |Sigs|
      invariant sw == set k | 0 <= k < n :: Sigs[k]
    {
      sw := sw + {Sigs[n]};
    }
    assert Sigs[0] in sw && Sigs[1] in sw && Sigs[2] in sw && Sigs[3] in sw && Sigs[4] in sw;
  }

  /** do_stats: the capture counters are queried only when verbose; the query's
      result is only reported, so it changes nothing. */
  function StatsCalls(verbose: nat, statsRc: int): (r: seq<Call>)
    ensures r == [] <==> verbose == 0
    ensures |r| <= 1
    ensures forall x :: x in r ==> x == PcapStats
  {
    if verbose == 0 then [] else [PcapStats]
  }

  /** handle_signal: read one record; SIGALRM ticks, queries statistics on every
      10th tick and re-arms the one-second alarm; anything else is fatal. */
  function SignalOutcome(c: Cfg, info: SigInfo, statsRc: int): (r: After)
    ensures r.rc == 0 || r.rc == -1
    ensures r.rc == 0 <==> info.bytes == SIGINFO_SIZE && info.signo == SIGALRM
    ensures r.cfg == c.(ticks := r.cfg.ticks)
  {
    if info.bytes != SIGINFO_SIZE then After(-1, c, [ReadSignalFd])
    else if info.signo == SIGALRM then
      var t := c.ticks + 1;
      var stats := if t % 10 == 0 then StatsCalls(c.verbose, statsRc) else [];
      After(0, c.(ticks := t), [ReadSignalFd] + stats + [Alarm(1)])
    else After(-1, c, [ReadSignalFd])
  }

  /** A full SIGALRM record: success and one more tick; the record is read
      first, the alarm re-armed last, and only the statistics query may come between. */
  lemma AlarmHandled(c: Cfg, info: SigInfo, statsRc: int)
    requires info.bytes == SIGINFO_SIZE && info.signo == SIGALRM
    ensures var r := SignalOutcome(c, info, statsRc);
      && r.rc == 0
      && r.cfg.ticks == c.ticks + 1
      && |r.calls| >= 2 && r.calls[0] == ReadSignalFd && r.calls[|r.calls| - 1] == Alarm(1)
      && (forall x :: x in r.calls ==> x == ReadSignalFd || x == PcapStats || x == Alarm(1))
  {
    var stats := if (c.ticks + 1) % 10 == 0 then StatsCalls(c.verbose, statsRc) else [];
    assert SignalOutcome(c, info, statsRc).calls == [ReadSignalFd] + stats + [Alarm(1)];
    assert forall x :: x in stats ==> x == PcapStats;
  }

  /** A full SIGALRM record re-arms the alarm once, and queries the statistics once
      exactly when the new tick count is a multiple of 10 and verbose is on. */
  lemma AlarmCounts(c: Cfg, info: SigInfo, statsRc: int)
    requires info.bytes == SIGINFO_SIZE && info.signo == SIGALRM
    ensures var r := SignalOutcome(c, info, statsRc);
      && multiset(r.calls)[Alarm(1)] == 1
      && multiset(r.calls)[PcapStats] == (if (c.ticks + 1) % 10 == 0 && c.verbose != 0 then 1 else 0)
  {
    var stats := if (c.ticks + 1) % 10 == 0 then StatsCalls(c.verbose, statsRc) else [];
    assert SignalOutcome(c, info, statsRc).calls == [ReadSignalFd] + stats + [Alarm(1)];
    assert multiset(stats)[Alarm(1)] == 0 && multiset(stats)[PcapStats] == |stats|;
  }

  /** A short read, or any signal but SIGALRM: -1, only the read is made, ticks unchanged. */
  lemma FatalSignal(c: Cfg, info: SigInfo, statsRc: int)
    requires info.bytes != SIGINFO_SIZE || info.signo != SIGALRM
    ensures var r := SignalOutcome(c, info, statsRc); r.rc == -1 && r.cfg == c && r.calls == [ReadSignalFd]
  {
  }

  /** A failed statistics query never makes handle_signal fail. */
  lemma StatsFailureHarmless(c: Cfg, info: SigInfo, statsRc: int, statsRc': int)
    ensures SignalOutcome(c, info, statsRc) == SignalOutcome(c, info, statsRc')
  {
  }

  // ---------------------------------------------------------------- capture

  /** set_filter: no filter is success without compiling; otherwise success needs
      both compile and setfilter to return 0, and setfilter is never reached after
      a failed compile.  A failure returns the failing call's code. */
  function FilterOutcome(filter: Option<string>, compileRc: int, setFilterRc: int): (r: Reply)
    ensures filter.None? ==> r.rc == 0 && r.calls == []
    ensures filter.Some? ==> (r.rc == 0 <==> compileRc == 0 && setFilterRc == 0)
    ensures filter.Some? ==> |r.calls| >= 1 && r.calls[0] == PcapCompile(filter.value)
    ensures r.rc != 0 ==> r.rc == (if compileRc != 0 then compileRc else setFilterRc)
    ensures |r.calls| <= 2
  {
    match filter
    case None => Reply(0, [])
    case Some(e) =>
      if compileRc != 0 then Reply(compileRc, [PcapCompile(e)])
      else if setFilterRc != 0 then Reply(setFilterRc, [PcapCompile(e), PcapSetFilter])
      else Reply(0, [PcapCompile(e), PcapSetFilter])
  }

  /** set_filter only compiles and attaches, and attaches only after a successful compile. */
  lemma FilterCalls(filter: Option<string>, compileRc: int, setFilterRc: int)
    ensures var r := FilterOutcome(filter, compileRc, setFilterRc);
      && (PcapSetFilter in r.calls <==> filter.Some? && compileRc == 0)
      && (forall x :: x in r.calls ==> x.PcapCompile? || x == PcapSetFilter)
  {
  }

  /** get_pcap_data: one bounded dispatch; -1 exactly when it reports an error. */
  function DispatchOutcome(dispatched: int): (r: Reply)
    ensures r.rc == -1 <==> dispatched < 0
    ensures r.rc == 0 <==> dispatched >= 0
    ensures |r.calls| == 1 && r.calls[0].PcapDispatch?
    ensures 0 < r.calls[0].maxPackets <= 10000
  {
    Reply(if dispatched < 0 then -1 else 0, [PcapDispatch(DISPATCH_BATCH)])
  }

  // ---------------------------------------------------------------- the loop

  /** Whether one pass of the loop on wake `w` lets the loop go on: the wait
      reported a descriptor, and the handler it routes to (if any) succeeded. */
  predicate Continues(c: Cfg, w: Wake) {
    && w.ready > 0
    && (w.fd == c.signalFd ==> w.info.bytes == SIGINFO_SIZE && w.info.signo == SIGALRM)
    && (w.fd != c.signalFd && w.fd == c.pcapFd ==> w.dispatched >= 0)
  }

  /** The calls a pass of the loop can make. */
  predicate LoopCall(x: Call) {
    x == EpollWait || x == ReadSignalFd || x == PcapStats || x == Alarm(1) || x == PcapDispatch(DISPATCH_BATCH)
  }

  /** One pass of the loop: wait, then route the reported descriptor by identity. */
  function StepOutcome(c: Cfg, w: Wake): (r: Turn)
    ensures r.cont <==> Continues(c, w)
    ensures r.cfg == c.(ticks := r.cfg.ticks)
  {
    if w.ready <= 0 then Turn(false, c, [EpollWait])
    else if w.fd == c.signalFd then
      var h := SignalOutcome(c, w.info, w.statsRc);
      Turn(h.rc >= 0, h.cfg, [EpollWait] + h.calls)
    else if w.fd == c.pcapFd then
      var d := DispatchOutcome(w.dispatched);
      Turn(d.rc >= 0, c, [EpollWait] + d.calls)
    else Turn(true, c, [EpollWait])
  }

  /** Routing by identity: the signal fd runs only handle_signal, the capture fd
      only get_pcap_data, any other fd nothing. */
  lemma StepRouting(c: Cfg, w: Wake)
    ensures var r := StepOutcome(c, w);
      && (ReadSignalFd in r.calls <==> w.ready > 0 && w.fd == c.signalFd)
      && (PcapDispatch(DISPATCH_BATCH) in r.calls <==> w.ready > 0 && w.fd != c.signalFd && w.fd == c.pcapFd)
      && (w.ready > 0 && w.fd == c.signalFd ==> r.cfg == SignalOutcome(c, w.info, w.statsRc).cfg)
      && (w.ready <= 0 || w.fd != c.signalFd ==> r.cfg == c)
      && (w.ready <= 0 || (w.fd != c.signalFd && w.fd != c.pcapFd) ==> r.calls == [EpollWait])
  {
    if w.ready > 0 && w.fd == c.signalFd {
      var h := SignalOutcome(c, w.info, w.statsRc);
      assert StepOutcome(c, w).calls == [EpollWait] + h.calls;
      assert h.calls[0] == ReadSignalFd;
    }
  }

  /** handle_signal makes only loop calls, and never waits. */
  lemma SignalCalls(c: Cfg, info: SigInfo, statsRc: int)
    ensures forall x :: x in SignalOutcome(c, info, statsRc).calls ==> LoopCall(x) && x != EpollWait
  {
    if info.bytes == SIGINFO_SIZE && info.signo == SIGALRM {
      var t := c.ticks + 1;
      var stats := if t % 10 == 0 then StatsCalls(c.verbose, statsRc) else [];
      assert SignalOutcome(c, info, statsRc).calls == [ReadSignalFd] + stats + [Alarm(1)];
      assert forall x :: x in stats ==> x == PcapStats;
    }
  }

  /** Every pass waits first and exactly once, and makes only loop calls. */
  lemma StepCalls(c: Cfg, w: Wake)
    ensures var r := StepOutcome(c, w);
      && |r.calls| >= 1 && r.calls[0] == EpollWait
      && multiset(r.calls)[EpollWait] == 1
      && (forall x :: x in r.calls ==> LoopCall(x))
  {
    var rest: seq<Call> := [];
    if w.ready > 0 && w.fd == c.signalFd {
      rest := SignalOutcome(c, w.info, w.statsRc).calls;
      SignalCalls(c, w.info, w.statsRc);
    } else if w.ready > 0 && w.fd == c.pcapFd {
      rest := DispatchOutcome(w.dispatched).calls;
    }
    assert StepOutcome(c, w).calls == [EpollWait] + rest;
    assert EpollWait !in rest;
  }

  /** The loop over a finite script of wakes, one pass per wake.  Once a pass
      ends the loop, later wakes are not looked at. */
  function LoopOutcome(c: Cfg, script: seq<Wake>): (r: LoopRun)
    ensures r.consumed <= |script|
    ensures r.cfg == c.(ticks := r.cfg.ticks) && r.cfg.ticks >= c.ticks
    decreases |script|
  {
    if script == [] then LoopRun(c, [], 0, false)
    else
      var p := LoopOutcome(c, script[..|script| - 1]);
      if p.stopped then p
      else
        var t := StepOutcome(p.cfg, script[|script| - 1]);
        LoopRun(t.cfg, p.calls + t.calls, p.consumed + 1, !t.cont)
  }

  /** The loop stops at the first wake that does not let it go on (epoll_wait
      reporting nothing, or a handler failing), and goes on through every other. */
  lemma {:induction false} LoopStopsAtFirstFailure(c: Cfg, script: seq<Wake>)
    ensures var r := LoopOutcome(c, script);
      && (r.stopped ==> r.consumed >= 1 && !Continues(c, script[r.consumed - 1]))
      && (forall k :: 0 <= k < r.consumed - 1 ==> Continues(c, script[k]))
      && (!r.stopped ==> r.consumed == |script| && forall k :: 0 <= k < |script| ==> Continues(c, script[k]))
    decreases |script|
  {
    if script != [] {
      var init := script[..|script| - 1];
      LoopStopsAtFirstFailure(c, init);
      var p := LoopOutcome(c, init);
      assert forall k :: 0 <= k < |init| ==> init[k] == script[k];
    }
  }

  /** A non-alarm signal on the signal fd stops the loop at once: no later wake is handled. */
  lemma FatalSignalStops(c: Cfg, script: seq<Wake>, k: nat)
    requires k < |script|
    requires forall j :: 0 <= j < k ==> Continues(c, script[j])
    requires script[k].ready > 0 && script[k].fd == c.signalFd && script[k].info.signo != SIGALRM
    ensures LoopOutcome(c, script).stopped && LoopOutcome(c, script).consumed == k + 1
  {
    LoopStopsAtFirstFailure(c, script);
    assert !Continues(c, script[k]);
  }

  /** The loop only waits, reads signals, queries statistics, re-arms the alarm and
      dispatches at most DISPATCH_BATCH packets at a time: it never opens or closes
      anything.  It waits once per wake consumed. */
  lemma {:induction false} LoopCallsOnly(c: Cfg, script: seq<Wake>)
    ensures var r := LoopOutcome(c, script);
      (forall x :: x in r.calls ==> LoopCall(x)) && multiset(r.calls)[EpollWait] == r.consumed
    decreases |script|
  {
    if script != [] {
      var init := script[..|script| - 1];
      LoopCallsOnly(c, init);
      var p := LoopOutcome(c, init);
      if !p.stopped {
        StepCalls(p.cfg, script[|script| - 1]);
      }
    }
  }

  /** A wake that delivers a full SIGALRM record on the signal fd. */
  predicate AlarmWake(c: Cfg, w: Wake) {
    w.ready > 0 && w.fd == c.signalFd && w.info == SigInfo(SIGINFO_SIZE, SIGALRM)
  }

  /** One pass of the loop on an alarm wake: it goes on, ticks once, re-arms the
      alarm once and queries the statistics when the new count is a multiple of 10. */
  lemma AlarmStep(c: Cfg, w: Wake)
    requires AlarmWake(c, w)
    ensures var t := StepOutcome(c, w);
      && t.cont
      && t.cfg == c.(ticks := c.ticks + 1)
      && multiset(t.calls)[Alarm(1)] == 1
      && multiset(t.calls)[PcapStats] == (if (c.ticks + 1) % 10 == 0 && c.verbose != 0 then 1 else 0)
  {
    AlarmHandled(c, w.info, w.statsRc);
    AlarmCounts(c, w.info, w.statsRc);
    var h := SignalOutcome(c, w.info, w.statsRc);
    assert StepOutcome(c, w).calls == [EpollWait] + h.calls;
  }

  /** A run of alarms: each adds one tick and re-arms the alarm once, and the loop goes on. */
  lemma {:induction false} AlarmsTick(c: Cfg, script: seq<Wake>)
    requires forall k :: 0 <= k < |script| ==> AlarmWake(c, script[k])
    ensures var r := LoopOutcome(c, script);
      && !r.stopped
      && r.cfg == c.(ticks := c.ticks + |script|)
      && multiset(r.calls)[Alarm(1)] == |script|
    decreases |script|
  {
    if script != [] {
      var n := |script| - 1;
      var init := script[..n];
      forall k | 0 <= k < |init| ensures AlarmWake(c, init[k]) {
        assert init[k] == script[k];
      }
      AlarmsTick(c, init);
      var p := LoopOutcome(c, init);
      AlarmStep(p.cfg, script[n]);
      assert LoopOutcome(c, script).calls == p.calls + StepOutcome(p.cfg, script[n]).calls;
    }
  }

  /** With verbose off the loop never queries the statistics, whatever it is woken by. */
  lemma {:induction false} QuietLoopNeverQueries(c: Cfg, script: seq<Wake>)
    requires c.verbose == 0
    ensures PcapStats !in LoopOutcome(c, script).calls
    decreases |script|
  {
    if script != [] {
      var init := script[..|script| - 1];
      QuietLoopNeverQueries(c, init);
      var p := LoopOutcome(c, init);
      if !p.stopped {
        QuietStepNeverQueries(p.cfg, script[|script| - 1]);
      }
    }
  }

  /** With verbose off one pass never queries the statistics. */
  lemma QuietStepNeverQueries(c: Cfg, w: Wake)
    requires c.verbose == 0
    ensures PcapStats !in StepOutcome(c, w).calls
  {
    if w.ready > 0 && w.fd == c.signalFd && w.info.bytes == SIGINFO_SIZE && w.info.signo == SIGALRM {
      AlarmCounts(c, w.info, w.statsRc);
    }
  }

  /** Once the loop has stopped, later wakes change nothing. */
  lemma {:induction false} StopIsFinal(c: Cfg, script: seq<Wake>, i: nat)
    requires i <= |script| && LoopOutcome(c, script[..i]).stopped
    ensures LoopOutcome(c, script) == LoopOutcome(c, script[..i])
    decreases |script| - i
  {
    if i < |script| {
      assert script[..i + 1][..i] == script[..i];
      StopIsFinal(c, script, i + 1);
    } else {
      assert script[..i] == script;
    }
  }

  // ---------------------------------------------------------------- lifecycle

  /** The order of the startup calls when nothing fails. */
  function StartupOrder(c: Cfg, b: Boot): seq<Call> {
    [BlockAllSignals, SignalFdCreate(Accepted), EpollCreate, EpollAdd(b.signalFd),
     PcapOpenLive(c.dev, c.snaplen), PcapSelectableFd]
    + FilterOutcome(c.filter, b.compileRc, b.setFilterRc).calls
    + [EpollAdd(b.selectableFd), Alarm(1)]
  }

  /** Startup gets as far as opening the capture device. */
  predicate ReachesOpen(b: Boot) {
    b.signalFd != -1 && b.epollFd != -1 && b.addSignalRc == 0
  }

  /** The first phase of startup: block every signal, create the signal fd for
      the accepted set, create the epoll instance and register the signal fd;
      it stops at the first failure.  rc 0 means it all succeeded. */
  function ChannelSetup(c: Cfg, b: Boot): (r: After)
    ensures r.rc == 0 <==> ReachesOpen(b)
    ensures r.cfg == c.(signalFd := b.signalFd, epollFd := r.cfg.epollFd)
  {
    var pre := [BlockAllSignals, SignalFdCreate(Accepted)];
    var c1 := c.(signalFd := b.signalFd);
    if b.signalFd == -1 then After(-1, c1, pre)
    else
      var c2 := c1.(epollFd := b.epollFd);
      if b.epollFd == -1 then After(-1, c2, pre + [EpollCreate])
      else After(b.addSignalRc, c2, pre + [EpollCreate, EpollAdd(b.signalFd)])
  }

  /** The second phase: open the capture device, take its descriptor, attach the
      filter (ignoring the result), register the descriptor and arm the first
      alarm; it stops at the first failure. */
  function CaptureSetup(c: Cfg, b: Boot): (r: After)
    ensures r.rc == 0 <==> b.pcapOpened && b.addPcapRc == 0
    ensures r.cfg == c.(pcapOpen := b.pcapOpened, pcapFd := if b.pcapOpened then b.selectableFd else c.pcapFd)
  {
    var open := [PcapOpenLive(c.dev, c.snaplen)];
    if !b.pcapOpened then After(-1, c.(pcapOpen := false), open)
    else
      var c3 := c.(pcapOpen := true, pcapFd := b.selectableFd);
      var registered := open + [PcapSelectableFd] + FilterOutcome(c.filter, b.compileRc, b.setFilterRc).calls
                        + [EpollAdd(b.selectableFd)];
      if b.addPcapRc != 0 then After(b.addPcapRc, c3, registered)
      else After(0, c3, registered + [Alarm(1)])
  }

  /** The startup sequence of main: the two phases, stopping at the first failure.
      rc 0 means the loop is entered. */
  function StartupOutcome(c: Cfg, b: Boot): (r: After)
    ensures r.rc == 0 <==> ReachesOpen(b) && b.pcapOpened && b.addPcapRc == 0
  {
    var s := ChannelSetup(c, b);
    if s.rc != 0 then s
    else
      var p := CaptureSetup(s.cfg, b);
      After(p.rc, p.cfg, s.calls + p.calls)
  }

  /** Startup makes its calls in the fixed order, the whole of it exactly on success. */
  lemma StartupInOrder(c: Cfg, b: Boot)
    ensures var r := StartupOutcome(c, b);
      && (r.rc == 0 ==> r.calls == StartupOrder(c, b))
      && (r.rc != 0 ==> r.calls < StartupOrder(c, b))
  {
  }

  /** A failing step skips every later one: the number of calls made tells which step failed. */
  lemma StartupStopsAtFailure(c: Cfg, b: Boot)
    ensures var r := StartupOutcome(c, b);
      && (b.signalFd == -1 ==> |r.calls| == 2)
      && (b.signalFd != -1 && b.epollFd == -1 ==> |r.calls| == 3)
      && (b.signalFd != -1 && b.epollFd != -1 && b.addSignalRc != 0 ==> |r.calls| == 4)
      && (ReachesOpen(b) && !b.pcapOpened ==> |r.calls| == 5)
      && (ReachesOpen(b) && b.pcapOpened && b.addPcapRc != 0 ==> |r.calls| == |StartupOrder(c, b)| - 1)
  {
  }

  /** The alarm is armed exactly when the loop is entered. */
  lemma StartupArmsAlarm(c: Cfg, b: Boot)
    ensures Alarm(1) in StartupOutcome(c, b).calls <==> StartupOutcome(c, b).rc == 0
  {
    FilterCalls(c.filter, b.compileRc, b.setFilterRc);
  }

  /** Startup closes nothing. */
  lemma StartupClosesNothing(c: Cfg, b: Boot)
    ensures var r := StartupOutcome(c, b);
      PcapClose !in r.calls && (forall fd :: Close(fd) !in r.calls)
  {
    FilterCalls(c.filter, b.compileRc, b.setFilterRc);
  }

  /** Startup never waits for events: whatever fails, `epoll_wait` is not among its calls. */
  lemma StartupNeverWaits(c: Cfg, b: Boot)
    ensures EpollWait !in StartupOutcome(c, b).calls
  {
    StartupInOrder(c, b);
    FilterCalls(c.filter, b.compileRc, b.setFilterRc);
    PrefixMembers(StartupOutcome(c, b).calls, StartupOrder(c, b));
  }

  /** Every element of a prefix is an element of the whole. */
  lemma PrefixMembers<T>(a: seq<T>, b: seq<T>)
    requires a <= b
    ensures forall x :: x in a ==> x in b
  {
    forall x | x in a ensures x in b {
      var k :| 0 <= k < |a| && a[k] == x;
      assert b[k] == x;
    }
  }

  /** The capture handle is open after startup exactly when pcap_open_live was
      reached and succeeded; only then is the capture descriptor set. */
  lemma StartupCapture(c: Cfg, b: Boot)
    ensures var r := StartupOutcome(c, b);
      && r.cfg.pcapOpen == (if ReachesOpen(b) then b.pcapOpened else c.pcapOpen)
      && r.cfg.pcapFd == (if ReachesOpen(b) && b.pcapOpened then b.selectableFd else c.pcapFd)
      && (c.pcapFd == -1 ==> ValidCfg(r.cfg))
  {
  }

  /** Whatever set_filter returns, startup goes the same way. */
  lemma FilterResultIgnored(c: Cfg, b: Boot, compileRc: int, setFilterRc: int)
    ensures var b' := b.(compileRc := compileRc, setFilterRc := setFilterRc);
      StartupOutcome(c, b').rc == StartupOutcome(c, b).rc && StartupOutcome(c, b').cfg == StartupOutcome(c, b).cfg
  {
  }

  /** The teardown at `done`: close the capture handle if open, and its descriptor if positive. */
  function TeardownCalls(c: Cfg): (r: seq<Call>)
    ensures |r| <= 2
  {
    (if c.pcapOpen then [PcapClose] else []) + (if c.pcapFd > 0 then [Close(c.pcapFd)] else [])
  }

  /** The teardown closes the handle exactly when it is open, once, and the
      descriptor exactly when it is positive; a valid record with no open handle
      closes nothing. */
  lemma TeardownCloses(c: Cfg)
    ensures var r := TeardownCalls(c);
      && (PcapClose in r <==> c.pcapOpen)
      && (forall fd :: Close(fd) in r <==> c.pcapFd > 0 && fd == c.pcapFd)
      && multiset(r)[PcapClose] == (if c.pcapOpen then 1 else 0)
      && (ValidCfg(c) && !c.pcapOpen ==> r == [])
  {
  }

  /** Once startup has succeeded: the loop, then the teardown and return 0 if it ends. */
  function ServeOutcome(c: Cfg, script: seq<Wake>): (r: Finish)
    ensures r.status == Running <==> !LoopOutcome(c, script).stopped
    ensures r.status.Exited? ==> r.status == Exited(0)
  {
    var l := LoopOutcome(c, script);
    if !l.stopped then Finish(Running, l.cfg, l.calls)
    else Finish(Exited(0), l.cfg, l.calls + TeardownCalls(l.cfg))
  }

  /** Everything main does after the options: startup, then the loop if startup
      succeeded, and the teardown and return 0 once it is over. */
  function SessionOutcome(c: Cfg, b: Boot, script: seq<Wake>): (r: Finish)
    ensures r.status != Exited(-1)
    ensures r.status == Running ==> StartupOutcome(c, b).rc == 0
    ensures StartupOutcome(c, b).rc != 0 ==> r.status == Exited(0) && EpollWait !in r.calls
    ensures StartupOutcome(c, b).rc == 0 ==>
      (r.status == Running <==> !LoopOutcome(StartupOutcome(c, b).cfg, script).stopped)
  {
    var s := StartupOutcome(c, b);
    if s.rc != 0 then
      StartupNeverWaits(c, b);
      Finish(Exited(0), s.cfg, s.calls + TeardownCalls(s.cfg))
    else
      var f := ServeOutcome(s.cfg, script);
      Finish(f.status, f.cfg, s.calls + f.calls)
  }

  /** main: usage on an unknown option, otherwise the session. */
  function ProgramOutcome(c: Cfg, opts: seq<Opt>, b: Boot, script: seq<Wake>): (r: Finish)
    ensures r.status == Exited(-1) <==> OptionsOutcome(c, opts).usage
    ensures r.status.Exited? && r.status.code != -1 ==> r.status.code == 0
    ensures OptionsOutcome(c, opts).usage ==> r.calls == []
    ensures r.status == Running ==> StartupOutcome(OptionsOutcome(c, opts).cfg, b).rc == 0
  {
    var p := OptionsOutcome(c, opts);
    if p.usage then Finish(Exited(-1), p.cfg, [])
    else SessionOutcome(p.cfg, b, script)
  }

  /** From the initial record: a capture handle that was opened is closed exactly
      once when main returns, and never while the loop runs; one that was not
      opened is never closed. */
  lemma CaptureClosedOnce(opts: seq<Opt>, b: Boot, script: seq<Wake>)
    requires !OptionsOutcome(Initial, opts).usage
    ensures var r := ProgramOutcome(Initial, opts, b, script);
      multiset(r.calls)[PcapClose] == (if r.status == Exited(0) && ReachesOpen(b) && b.pcapOpened then 1 else 0)
  {
    SessionClosesOnce(OptionsOutcome(Initial, opts).cfg, b, script);
  }

  /** After the options, with no handle open yet: the handle is closed once if it was opened and main returns. */
  lemma SessionClosesOnce(c: Cfg, b: Boot, script: seq<Wake>)
    requires !c.pcapOpen
    ensures var r := SessionOutcome(c, b, script);
      multiset(r.calls)[PcapClose] == (if r.status == Exited(0) && ReachesOpen(b) && b.pcapOpened then 1 else 0)
  {
    var s := StartupOutcome(c, b);
    StartupClosesNothing(c, b);
    StartupCapture(c, b);
    if s.rc == 0 {
      ServeClosesOnce(s.cfg, script);
      assert SessionOutcome(c, b, script).calls == s.calls + ServeOutcome(s.cfg, script).calls;
    } else {
      TeardownCloses(s.cfg);
      assert SessionOutcome(c, b, script).calls == s.calls + TeardownCalls(s.cfg);
    }
  }

  /** The loop never closes the handle; the teardown after it closes it once if it is open. */
  lemma ServeClosesOnce(c: Cfg, script: seq<Wake>)
    ensures var r := ServeOutcome(c, script);
      multiset(r.calls)[PcapClose] == (if r.status == Exited(0) && c.pcapOpen then 1 else 0)
  {
    var l := LoopOutcome(c, script);
    LoopCallsOnly(c, script);
    assert !LoopCall(PcapClose);
    assert multiset(l.calls)[PcapClose] == 0;
    TeardownCloses(l.cfg);
  }

  /** From the initial record: a failure before the capture device is opened
      closes nothing, skips the loop and main returns 0. */
  lemma EarlyFailureClosesNothing(opts: seq<Opt>, b: Boot, script: seq<Wake>)
    requires !OptionsOutcome(Initial, opts).usage && !ReachesOpen(b)
    ensures var r := ProgramOutcome(Initial, opts, b, script);
      && r.status == Exited(0)
      && PcapClose !in r.calls
      && (forall fd :: Close(fd) !in r.calls)
      && EpollWait !in r.calls
  {
    var c := OptionsOutcome(Initial, opts).cfg;
    var s := StartupOutcome(c, b);
    StartupInOrder(c, b);
    StartupStopsAtFailure(c, b);
    StartupCapture(c, b);
    TeardownCloses(s.cfg);
    assert SessionOutcome(c, b, script).calls == s.calls;
    var order := StartupOrder(c, b);
    assert |s.calls| <= 4 && s.calls <= order[..4];
    PrefixMembers(s.calls, order[..4]);
  }

  // ---------------------------------------------------------------- the record as an object

  /** The global configuration record, updated in place. */
  class Dispatcher {
    var verbose: nat
    var dev: string
    var filter: Option<string>
    var snaplen: int
    var pcapFd: int
    var pcapOpen: bool
    var ticks: nat
    var signalFd: int
    var epollFd: int
    /** Every kernel and capture-library call made so far, in order. */
    var calls: seq<Call>

    function State(): Cfg
      reads this
    {
      Cfg(verbose, dev, filter, snaplen, pcapFd, pcapOpen, ticks, signalFd, epollFd)
    }

    /** The static initialiser of the record. */
    constructor ()
      ensures State() == Initial && calls == []
    {
      verbose, dev, filter, snaplen := 0, DEFAULT_DEV, None, DEFAULT_SNAPLEN;
      pcapFd, pcapOpen, ticks, signalFd, epollFd := -1, false, 0, 0, 0;
      calls := [];
    }

    /** The getopt loop; true when it reaches usage (which exits the process). */
    method ParseOptions(opts: seq<Opt>) returns (usage: bool)
      modifies this`verbose, this`dev, this`filter
      ensures var p := OptionsOutcome(old(State()), opts); usage == p.usage && State() == p.cfg
    {
      usage := false;
      var i := 0;
      while i < |opts| && !usage
        invariant 0 <= i <= |opts|
        invariant Parsed(State(), usage) == OptionsOutcome(old(State()), opts[..i])
      {
        assert opts[..i + 1][..i] == opts[..i];
        match opts[i] {
          case Verbose => verbose := verbose + 1;
          case Filter(e) => filter := Some(e);
          case Interface(d) => dev := d;
          case Other(_) => usage := true;
        }
        i := i + 1;
      }
      if usage {
        UsageStops(old(State()), opts, i);
      } else {
        assert opts[..i] == opts;
      }
    }

    /** do_stats. */
    method DoStats(statsRc: int)
      modifies this`calls
      ensures calls == old(calls) + StatsCalls(verbose, statsRc)
    {
      if verbose == 0 { return; }
      calls := calls + [PcapStats];
    }

    /** handle_signal. */
    method HandleSignal(info: SigInfo, statsRc: int) returns (rc: int)
      modifies this`ticks, this`calls
      ensures var h := SignalOutcome(old(State()), info, statsRc);
        rc == h.rc && State() == h.cfg && calls == old(calls) + h.calls
    {
      rc := -1;
      calls := calls + [ReadSignalFd];
      if info.bytes != SIGINFO_SIZE {
        return;
      }
      if info.signo == SIGALRM {
        ticks := ticks + 1;
        if ticks % 10 == 0 {
          DoStats(statsRc);
        }
        calls := calls + [Alarm(1)];
      } else {
        return;
      }
      rc := 0;
    }

    /** get_pcap_data. */
    method GetPcapData(dispatched: int) returns (rc: int)
      modifies this`calls
      ensures var d := DispatchOutcome(dispatched); rc == d.rc && calls == old(calls) + d.calls
    {
      rc := -1;
      calls := calls + [PcapDispatch(DISPATCH_BATCH)];
      if dispatched < 0 {
        return;
      }
      rc := 0;
    }

    /** set_filter. */
    method SetFilter(compileRc: int, setFilterRc: int) returns (rc: int)
      modifies this`calls
      ensures var f := FilterOutcome(filter, compileRc, setFilterRc); rc == f.rc && calls == old(calls) + f.calls
    {
      if filter == None {
        return 0;
      }
      calls := calls + [PcapCompile(filter.value)];
      rc := compileRc;
      if rc != 0 {
        return;
      }
      calls := calls + [PcapSetFilter];
      rc := setFilterRc;
      if rc != 0 {
        return;
      }
      rc := 0;
    }

    /** new_epoll: register `fd` for readability; the result is epoll_ctl's. */
    method NewEpoll(fd: int, ctlRc: int) returns (rc: int)
      modifies this`calls
      ensures rc == ctlRc && calls == old(calls) + [EpollAdd(fd)]
    {
      calls := calls + [EpollAdd(fd)];
      rc := ctlRc;
    }

    /** The first phase of main's startup: the signal fd and the epoll instance. */
    method OpenSignalChannel(b: Boot) returns (ok: bool)
      modifies this`signalFd, this`epollFd, this`calls
      ensures var s := ChannelSetup(old(State()), b);
        && ok == (s.rc == 0) && signalFd == s.cfg.signalFd && epollFd == s.cfg.epollFd
        && calls == old(calls) + s.calls
    {
      ok := false;
      calls := calls + [BlockAllSignals];
      var sw := AcceptedSignalSet();
      signalFd := b.signalFd;
      calls := calls + [SignalFdCreate(sw)];
      if signalFd == -1 {
        return;
      }
      epollFd := b.epollFd;
      calls := calls + [EpollCreate];
      if epollFd == -1 {
        return;
      }
      var rc := NewEpoll(signalFd, b.addSignalRc);
      ok := rc == 0;
    }

    /** The second phase: the capture handle, its filter and descriptor, and the first alarm. */
    method OpenCapture(b: Boot) returns (ok: bool)
      modifies this`pcapOpen, this`pcapFd, this`calls
      ensures var s := CaptureSetup(old(State()), b);
        && ok == (s.rc == 0) && pcapOpen == s.cfg.pcapOpen && pcapFd == s.cfg.pcapFd
        && calls == old(calls) + s.calls
    {
      ok := false;
      calls := calls + [PcapOpenLive(dev, snaplen)];
      pcapOpen := b.pcapOpened;
      if !pcapOpen {
        return;
      }
      calls := calls + [PcapSelectableFd];
      pcapFd := b.selectableFd;
      var _ := SetFilter(b.compileRc, b.setFilterRc);
      var rc := NewEpoll(pcapFd, b.addPcapRc);
      if rc != 0 {
        return;
      }
      calls := calls + [Alarm(1)];
      ok := true;
    }

    /** The startup part of main, up to arming the first alarm; true when the loop is entered. */
    method Startup(b: Boot) returns (ok: bool)
      modifies this`signalFd, this`epollFd, this`pcapOpen, this`pcapFd, this`calls
      ensures var s := StartupOutcome(old(State()), b);
        ok == (s.rc == 0) && State() == s.cfg && calls == old(calls) + s.calls
    {
      ok := OpenSignalChannel(b);
      if !ok {
        return;
      }
      ghost var channel := ChannelSetup(old(State()), b);
      ok := OpenCapture(b);
      assert calls == old(calls) + (channel.calls + CaptureSetup(channel.cfg, b).calls);
    }

    /** One pass of the dispatch loop; false when the loop ends. */
    method Step(w: Wake) returns (cont: bool)
      modifies this`ticks, this`calls
      ensures var t := StepOutcome(old(State()), w);
        cont == t.cont && State() == t.cfg && calls == old(calls) + t.calls
    {
      calls := calls + [EpollWait];
      if w.ready <= 0 {
        return false;
      }
      if w.fd == signalFd {
        var rc := HandleSignal(w.info, w.statsRc);
        cont := rc >= 0;
      } else if w.fd == pcapFd {
        var rc := GetPcapData(w.dispatched);
        cont := rc >= 0;
      } else {
        cont := true;
      }
    }

    /** The dispatch loop over a finite script of wakes. */
    method RunLoop(script: seq<Wake>) returns (consumed: nat, stopped: bool)
      modifies this`ticks, this`calls
      ensures var l := LoopOutcome(old(State()), script);
        consumed == l.consumed && stopped == l.stopped && State() == l.cfg && calls == old(calls) + l.calls
    {
      consumed, stopped := 0, false;
      ghost var log: seq<Call> := [];
      while consumed < |script| && !stopped
        invariant consumed <= |script|
        invariant calls == old(calls) + log
        invariant LoopOutcome(old(State()), script[..consumed]) == LoopRun(State(), log, consumed, stopped)
      {
        assert script[..consumed + 1][..consumed] == script[..consumed];
        ghost var before := State();
        var cont := Step(script[consumed]);
        log := log + StepOutcome(before, script[consumed]).calls;
        stopped := !cont;
        consumed := consumed + 1;
      }
      if stopped {
        StopIsFinal(old(State()), script, consumed);
      } else {
        assert script[..consumed] == script;
      }
    }

    /** The teardown at `done`; main then returns 0. */
    method Teardown() returns (code: int)
      modifies this`calls
      ensures calls == old(calls) + TeardownCalls(State()) && code == 0
    {
      if pcapOpen {
        calls := calls + [PcapClose];
      }
      if pcapFd > 0 {
        calls := calls + [Close(pcapFd)];
      }
      code := 0;
    }

    /** The loop and, once it ends, the teardown. */
    method Serve(script: seq<Wake>) returns (status: Status)
      modifies this`ticks, this`calls
      ensures var f := ServeOutcome(old(State()), script);
        status == f.status && State() == f.cfg && calls == old(calls) + f.calls
    {
      var consumed, stopped := RunLoop(script);
      if !stopped {
        return Running;
      }
      var code := Teardown();
      status := Exited(code);
    }

    /** The part of main after the options. */
    method Session(b: Boot, script: seq<Wake>) returns (status: Status)
      modifies this`signalFd, this`epollFd, this`pcapOpen, this`pcapFd, this`ticks, this`calls
      ensures var f := SessionOutcome(old(State()), b, script);
        status == f.status && State() == f.cfg && calls == old(calls) + f.calls
    {
      var ok := Startup(b);
      if ok {
        status := Serve(script);
      } else {
        var code := Teardown();
        status := Exited(code);
      }
    }

    /** main. */
    method Execute(opts: seq<Opt>, b: Boot, script: seq<Wake>) returns (status: Status)
      modifies this
      ensures var f := ProgramOutcome(old(State()), opts, b, script);
        status == f.status && State() == f.cfg && calls == old(calls) + f.calls
    {
      var usage := ParseOptions(opts);
      if usage {
        return Exited(-1);
      }
      status := Session(b, script);
    }
  }
}
