/**
 * The scan/decode control loop of `scan_frequencies` (app/decoder.py, lines 52-128).
 *
 * Every outer iteration resets the tuner, records the date, and scans the band until a
 * pass finds a peak above -200 dB.  A failing scan tool ends the loop; a missing power log
 * costs one more reset and another scan.  Once a peak is found the controller decodes at
 * that frequency again and again while the decoder reports "TROUVE", notifying on each hit
 * when both notification credentials are set, and returns to the outer loop on the first
 * miss.
 *
 * The outcomes of the external tools and the clock are inputs: one stream of dates (one
 * per outer iteration), one of scan outcomes (one per scan), one of decoder status texts
 * (one per decode).  The source loops forever; the model stops when it needs an input
 * that its streams no longer hold.
 */
module Controller {
  import opened Wrappers
  import opened Text
  import opened PeakSelector

  /** What one run of the power-scan tool and the read of its log file produce. */
  datatype ScanOutcome =
    | ToolFailed            // the tool exited non-zero (`CalledProcessError`)
    | FileMissing           // the power log could not be opened (`FileNotFoundError`)
    | Lines(rows: seq<Row>) // the rows of the power log

  /** The decoder status file: its text, or None when it is missing. */
  type Status = Option<string>

  /** The externally visible actions of the controller, in order. */
  datatype Action =
    | Reset               // `reset_dvbt()`
    | Scan                // one run of the power-scan tool
    | Decode(frq: real)   // one run of the demodulate/filter/decode pipeline at `frq`
    | Notify(date: string) // one alert sent with `date`

  /** Where the controller is in its loops. */
  datatype Phase =
    | Restart              // head of the outer loop: reset, then record the date
    | Scanning             // inner scan loop, no peak yet
    | Decoding(frq: real)  // locked on `frq`
    | Aborted              // the scan tool failed; `scan_frequencies` has returned

  /** The optional notification credentials. */
  datatype Credentials = Credentials(token: Option<string>, chatId: Option<string>)

  /** How a run of the model ends. */
  datatype Ending = ScanToolFailed | InputExhausted

  const Sentinel: string := "TROUVE"

  /** Python truthiness of an optional string: present and non-empty. */
  predicate Truthy(s: Option<string>)
  {
    s.Some? && s.value != ""
  }

  predicate NotifyEnabled(c: Credentials)
  {
    Truthy(c.token) && Truthy(c.chatId)
  }

  /** The decoder's command-line flags: three fixed ones, then `--osm` when enabled. */
  function DecoderFlags(osm: bool): (flags: seq<string>)
    ensures |flags| == if osm then 4 else 3
    ensures flags[..3] == ["--100", "--M3", "--une_minute"]
    ensures "--osm" in flags <==> osm
  {
    ["--100", "--M3", "--une_minute"] + (if osm then ["--osm"] else [])
  }

  /** A decode attempt succeeded: the status file exists and its text contains "TROUVE". */
  function DecodeSucceeded(status: Status): (found: bool)
    ensures found <==> status.Some? && exists i :: OccursAt(status.value, Sentinel, i)
    ensures status.None? ==> !found
  {
    match status
    case None => false
    case Some(text) => Contains(text, Sentinel)
  }

  predicate WellFormedScans(scans: seq<ScanOutcome>)
  {
    forall i :: 0 <= i < |scans| && scans[i].Lines? ==> WellFormedLog(scans[i].rows)
  }

  /** The state of the controller together with the inputs it has not consumed yet. */
  datatype Machine = Machine(
    phase: Phase,
    date: string,
    trace: seq<Action>,
    dates: seq<string>,
    scans: seq<ScanOutcome>,
    statuses: seq<Status>)

  /** The machine at the start of `scan_frequencies`. */
  function Start(dates: seq<string>, scans: seq<ScanOutcome>, statuses: seq<Status>): Machine
  {
    Machine(Restart, "", [], dates, scans, statuses)
  }

  function Remaining(m: Machine): nat
  {
    |m.dates| + |m.scans| + |m.statuses|
  }

  /** The machine cannot move: it has aborted, or the input its phase needs is used up. */
  predicate Stuck(m: Machine)
  {
    match m.phase
    case Restart => m.dates == []
    case Scanning => m.scans == []
    case Decoding(_) => m.statuses == []
    case Aborted => true
  }

  /** Head of the outer loop: reset the tuner and record the date of this iteration. */
  function AfterRestart(m: Machine): (m': Machine)
    requires m.dates != []
    ensures m'.scans == m.scans && m'.statuses == m.statuses && |m'.dates| + 1 == |m.dates|
  {
    m.(phase := Scanning, date := m.dates[0], dates := m.dates[1..], trace := m.trace + [Reset])
  }

  /**
   * One pass of the scan loop: a failing tool aborts, a missing log resets the tuner, and a
   * log whose peak is above the floor locks on the peak frequency.
   */
  function AfterScan(m: Machine): (m': Machine)
    requires m.scans != [] && WellFormedScans(m.scans)
    ensures WellFormedScans(m'.scans)
    ensures m'.dates == m.dates && m'.statuses == m.statuses && |m'.scans| + 1 == |m.scans|
  {
    var next := m.(scans := m.scans[1..], trace := m.trace + [Scan]);
    match m.scans[0]
    case ToolFailed => next.(phase := Aborted)
    case FileMissing => next.(trace := next.trace + [Reset])
    case Lines(rows) =>
      var p := SpecPeak(rows);
      if p.level > Floor then next.(phase := Decoding(p.freq)) else next
  }

  /**
   * One pass of the decode loop at `f`: on "TROUVE" stay locked (notifying when enabled),
   * otherwise go back to the head of the outer loop.
   */
  function AfterDecode(m: Machine, f: real, c: Credentials): (m': Machine)
    requires m.statuses != []
    ensures m'.dates == m.dates && m'.scans == m.scans && |m'.statuses| + 1 == |m.statuses|
  {
    var next := m.(statuses := m.statuses[1..], trace := m.trace + [Decode(f)]);
    if !DecodeSucceeded(m.statuses[0]) then next.(phase := Restart)
    else if NotifyEnabled(c) then next.(trace := next.trace + [Notify(m.date)])
    else next
  }

  /** One transition; each consumes exactly one input. */
  function Step(m: Machine, c: Credentials): (m': Machine)
    requires !Stuck(m) && WellFormedScans(m.scans)
    ensures WellFormedScans(m'.scans)
    ensures Remaining(m') + 1 == Remaining(m)
    ensures m.trace <= m'.trace
  {
    match m.phase
    case Restart => AfterRestart(m)
    case Scanning => AfterScan(m)
    case Decoding(f) => AfterDecode(m, f, c)
  }

  /** The controller run until it stops. */
  function Run(m: Machine, c: Credentials): (r: Machine)
    requires WellFormedScans(m.scans)
    ensures Stuck(r)
    decreases Remaining(m)
  {
    if Stuck(m) then m else Run(Step(m, c), c)
  }

  /** The controller after at most `k` transitions. */
  function Iterate(m: Machine, c: Credentials, k: nat): (r: Machine)
    requires WellFormedScans(m.scans)
    ensures WellFormedScans(r.scans)
    decreases k
  {
    if k == 0 || Stuck(m) then m else Iterate(Step(m, c), c, k - 1)
  }

  function EndingOf(m: Machine): Ending
  {
    if m.phase.Aborted? then ScanToolFailed else InputExhausted
  }

  /**
   * `scan_frequencies` with its nested loops: the outer loop resets and records the date,
   * the scan loop runs until a peak above the floor is found, and the decode loop redecodes
   * at the peak while frames keep arriving.  It emits exactly the actions of `Run`.
   */
  method ScanFrequencies(c: Credentials, dates: seq<string>, scans: seq<ScanOutcome>, statuses: seq<Status>)
    returns (trace: seq<Action>, ending: Ending)
    requires WellFormedScans(scans)
    ensures var final := Run(Start(dates, scans, statuses), c);
      trace == final.trace && ending == EndingOf(final)
    ensures forall i :: 0 <= i < |trace| && trace[i].Notify? ==> NotifyEnabled(c) && i > 0 && trace[i - 1].Decode?
    ensures ending == ScanToolFailed ==> trace != [] && trace[|trace| - 1] == Scan
  {
    ghost var final := Run(Start(dates, scans, statuses), c);
    RunNotifiesOnlyAfterDecode(Start(dates, scans, statuses), c);
    RunAbortEndsWithScan(Start(dates, scans, statuses), c);
    var ds, ss, st := dates, scans, statuses;
    var date: string := "";
    var frq: real := 0.0;
    trace := [];
    while true
      invariant WellFormedScans(ss)
      invariant Run(Machine(Restart, date, trace, ds, ss, st), c) == final
      decreases |ds|
    {
      if ds == [] {
        ending := InputExhausted;
        return;
      }
      trace := trace + [Reset];
      date, ds := ds[0], ds[1..];
      var freqFound := false;
      while !freqFound
        invariant WellFormedScans(ss)
        invariant Run(Machine(if freqFound then Decoding(frq) else Scanning, date, trace, ds, ss, st), c) == final
        decreases |ss|
      {
        if ss == [] {
          ending := InputExhausted;
          return;
        }
        var outcome := ss[0];
        ss := ss[1..];
        trace := trace + [Scan];
        match outcome {
          case ToolFailed =>
            ending := ScanToolFailed;
            return;
          case FileMissing =>
            trace := trace + [Reset];
          case Lines(rows) =>
            var maxSignal, f := SelectPeak(rows);
            frq := f;
            if maxSignal > Floor {
              freqFound := true;
            }
        }
      }
      while true
        invariant WellFormedScans(ss)
        invariant Run(Machine(Decoding(frq), date, trace, ds, ss, st), c) == final
        decreases |st|
      {
        if st == [] {
          ending := InputExhausted;
          return;
        }
        var status := st[0];
        st := st[1..];
        trace := trace + [Decode(frq)];
        if DecodeSucceeded(status) {
          if NotifyEnabled(c) {
            trace := trace + [Notify(date)];
          }
        } else {
          break;
        }
      }
    }
  }

  // ---------------------------------------------------------------------------
  // Properties of the control loop

  /** Every notification follows a decode, and only when both credentials are set. */
  ghost predicate NotifyWellPlaced(t: seq<Action>, c: Credentials)
  {
    forall i :: 0 <= i < |t| && t[i].Notify? ==> NotifyEnabled(c) && i > 0 && t[i - 1].Decode?
  }

  lemma {:induction false} RunNotifiesOnlyAfterDecode(m: Machine, c: Credentials)
    requires WellFormedScans(m.scans) && NotifyWellPlaced(m.trace, c)
    ensures NotifyWellPlaced(Run(m, c).trace, c)
    decreases Remaining(m)
  {
    if !Stuck(m) {
      var m' := Step(m, c);
      assert NotifyWellPlaced(m'.trace, c) by {
        var t, t' := m.trace, m'.trace;
        assert t' == t + (t'[|t|..]);
        forall i | |t| <= i < |t'| && t'[i].Notify?
          ensures NotifyEnabled(c) && i > 0 && t'[i - 1].Decode?
        {
        }
      }
      RunNotifiesOnlyAfterDecode(m', c);
    }
  }

  /** A run that aborts does so right after a scan: nothing is decoded or notified after it. */
  lemma {:induction false} RunAbortEndsWithScan(m: Machine, c: Credentials)
    requires WellFormedScans(m.scans) && !m.phase.Aborted?
    ensures Run(m, c).phase.Aborted? ==> Run(m, c).trace != [] && Run(m, c).trace[|Run(m, c).trace| - 1] == Scan
    decreases Remaining(m)
  {
    if !Stuck(m) {
      var m' := Step(m, c);
      assert Run(m, c) == Run(m', c);
      if m'.phase.Aborted? {
        assert m.phase == Scanning && m'.trace == m.trace + [Scan];
      } else {
        RunAbortEndsWithScan(m', c);
      }
    }
  }

  /** A failing scan tool ends `scan_frequencies` at once: the run stops right after that scan. */
  lemma ScanFails(m: Machine, c: Credentials)
    requires WellFormedScans(m.scans) && m.phase == Scanning
    requires m.scans != [] && m.scans[0] == ToolFailed
    ensures Run(m, c) == m.(phase := Aborted, scans := m.scans[1..], trace := m.trace + [Scan])
  {
  }

  /** A pass with a reading above -200 dB locks the controller at the frequency of its peak. */
  lemma ScanLocks(m: Machine, c: Credentials)
    requires WellFormedScans(m.scans) && m.phase == Scanning
    requires m.scans != [] && m.scans[0].Lines? && !NoSignal(m.scans[0].rows)
    ensures Step(m, c)
      == m.(phase := Decoding(SpecPeak(m.scans[0].rows).freq), scans := m.scans[1..], trace := m.trace + [Scan])
  {
    SentinelIffNoSignal(m.scans[0].rows);
  }

  /** The trace only grows: a run keeps every action already taken. */
  lemma {:induction false} RunExtendsTrace(m: Machine, c: Credentials)
    requires WellFormedScans(m.scans)
    ensures m.trace <= Run(m, c).trace
    decreases Remaining(m)
  {
    if !Stuck(m) {
      RunExtendsTrace(Step(m, c), c);
    }
  }

  /**
   * Any number of steps taken first leads to the same end of run, and their trace is a prefix
   * of the run's; so what a lemma proves about `Iterate` holds of the trace of `ScanFrequencies`.
   */
  lemma {:induction false} RunIterate(m: Machine, c: Credentials, k: nat)
    requires WellFormedScans(m.scans)
    ensures Run(Iterate(m, c, k), c) == Run(m, c)
    ensures Iterate(m, c, k).trace <= Run(m, c).trace
    decreases k
  {
    if k > 0 && !Stuck(m) {
      RunIterate(Step(m, c), c, k - 1);
    }
    RunExtendsTrace(Iterate(m, c, k), c);
  }

  /** When the very first scan fails, `scan_frequencies` has reset the tuner, scanned once, and returned. */
  lemma FirstScanFails(c: Credentials, dates: seq<string>, scans: seq<ScanOutcome>, statuses: seq<Status>)
    requires WellFormedScans(scans) && dates != [] && scans != [] && scans[0] == ToolFailed
    ensures Run(Start(dates, scans, statuses), c).trace == [Reset, Scan]
    ensures EndingOf(Run(Start(dates, scans, statuses), c)) == ScanToolFailed
  {
    var m := Start(dates, scans, statuses);
    var m1 := Step(m, c);
    assert Run(m, c) == Run(m1, c);
    ScanFails(m1, c);
  }

  lemma IterateUnfold(m: Machine, c: Credentials, k: nat)
    requires WellFormedScans(m.scans) && !Stuck(m) && k > 0
    ensures Iterate(m, c, k) == Iterate(Step(m, c), c, k - 1)
  {
  }

  /** A missing power log: one scan, one reset, still scanning. */
  lemma ScanMissing(m: Machine, c: Credentials, k: nat)
    requires WellFormedScans(m.scans) && m.phase == Scanning && k > 0
    requires m.scans != [] && m.scans[0] == FileMissing
    ensures Iterate(m, c, k) == Iterate(m.(scans := m.scans[1..], trace := m.trace + [Scan, Reset]), c, k - 1)
  {
    IterateUnfold(m, c, k);
    assert Step(m, c) == AfterScan(m) == m.(scans := m.scans[1..], trace := m.trace + [Scan, Reset]);
  }

  /** `k` rounds of a scan followed by a reset. */
  function Retries(k: nat): seq<Action>
  {
    if k == 0 then [] else [Scan, Reset] + Retries(k - 1)
  }

  /** One missing log in front of `k - 1` more: the first step of `MissingLogsRetry`. */
  lemma MissingLogThen(m: Machine, c: Credentials, k: nat)
    requires WellFormedScans(m.scans) && m.phase == Scanning && k > 0 && k <= |m.scans|
    requires m.scans[0] == FileMissing
    requires Iterate(m.(scans := m.scans[1..], trace := m.trace + [Scan, Reset]), c, k - 1)
      == m.(scans := m.scans[k..], trace := m.trace + [Scan, Reset] + Retries(k - 1))
    ensures Iterate(m, c, k) == m.(scans := m.scans[k..], trace := m.trace + Retries(k))
  {
    ScanMissing(m, c, k);
    assert m.trace + [Scan, Reset] + Retries(k - 1) == m.trace + Retries(k);
  }

  /**
   * Each missing power log costs one scan and one reset and nothing else: the controller
   * stays in the scan loop, never aborts on this path, and no retry bound applies.
   */
  lemma {:induction false} MissingLogsRetry(m: Machine, c: Credentials, k: nat)
    requires WellFormedScans(m.scans) && m.phase == Scanning
    requires k <= |m.scans| && forall i :: 0 <= i < k ==> m.scans[i] == FileMissing
    ensures Iterate(m, c, k) == m.(scans := m.scans[k..], trace := m.trace + Retries(k))
    decreases k
  {
    if k == 0 {
      assert m.scans[0..] == m.scans;
    } else {
      MissingLogsRetry(m.(scans := m.scans[1..], trace := m.trace + [Scan, Reset]), c, k - 1);
      assert m.scans[1..][k - 1..] == m.scans[k..];
      MissingLogThen(m, c, k);
    }
  }

  /** Three missing logs in a row: three scans, three resets, still scanning. */
  lemma ThreeMissingLogs(m: Machine, c: Credentials)
    requires WellFormedScans(m.scans) && m.phase == Scanning
    requires |m.scans| >= 3 && m.scans[0] == m.scans[1] == m.scans[2] == FileMissing
    ensures Iterate(m, c, 3).phase == Scanning
    ensures Iterate(m, c, 3).trace == m.trace + [Scan, Reset, Scan, Reset, Scan, Reset]
  {
  }

  /** A pass that was read but holds no reading above the floor. */
  ghost predicate Silent(o: ScanOutcome)
  {
    o.Lines? && WellFormedLog(o.rows) && NoSignal(o.rows)
  }

  /** A pass with no reading above the floor: one scan, still scanning. */
  lemma ScanSilent(m: Machine, c: Credentials, k: nat)
    requires WellFormedScans(m.scans) && m.phase == Scanning && k > 0
    requires m.scans != [] && Silent(m.scans[0])
    ensures Iterate(m, c, k) == Iterate(m.(scans := m.scans[1..], trace := m.trace + [Scan]), c, k - 1)
  {
  }

  /** `k` scans with nothing. */
  function Scans(k: nat): seq<Action>
  {
    if k == 0 then [] else [Scan] + Scans(k - 1)
  }

  /** The first `k` outcomes of `s` are silent passes. */
  ghost predicate SilentPrefix(s: seq<ScanOutcome>, k: nat)
  {
    k == 0 || (s != [] && Silent(s[0]) && SilentPrefix(s[1..], k - 1))
  }

  /** One silent pass in front of `k - 1` more: the first step of `SilentPassesRescan`. */
  lemma SilentPassThen(m: Machine, c: Credentials, k: nat)
    requires WellFormedScans(m.scans) && m.phase == Scanning && k > 0 && k <= |m.scans|
    requires Silent(m.scans[0])
    requires Iterate(m.(scans := m.scans[1..], trace := m.trace + [Scan]), c, k - 1)
      == m.(scans := m.scans[k..], trace := m.trace + [Scan] + Scans(k - 1))
    ensures Iterate(m, c, k) == m.(scans := m.scans[k..], trace := m.trace + Scans(k))
  {
    ScanSilent(m, c, k);
  }

  /** Passes with no reading above -200 dB neither lock nor decode: scanning just repeats. */
  lemma {:induction false} SilentPassesRescan(m: Machine, c: Credentials, k: nat)
    requires WellFormedScans(m.scans) && m.phase == Scanning && SilentPrefix(m.scans, k)
    ensures k <= |m.scans|
    ensures Iterate(m, c, k) == m.(scans := m.scans[k..], trace := m.trace + Scans(k))
    decreases k
  {
    if k == 0 {
      assert m.scans[0..] == m.scans;
    } else {
      SilentPassesRescan(m.(scans := m.scans[1..], trace := m.trace + [Scan]), c, k - 1);
      assert m.scans[1..][k - 1..] == m.scans[k..];
      SilentPassThen(m, c, k);
    }
  }

  /** One successful decode at `f`, with its notification when enabled, dated `date`. */
  function Hit(f: real, date: string, c: Credentials): seq<Action>
  {
    [Decode(f)] + (if NotifyEnabled(c) then [Notify(date)] else [])
  }

  /** A decode that finds "TROUVE": one decode, the optional notification, still locked. */
  lemma DecodeHit(m: Machine, c: Credentials, k: nat)
    requires WellFormedScans(m.scans) && m.phase.Decoding? && k > 0
    requires m.statuses != [] && DecodeSucceeded(m.statuses[0])
    ensures Iterate(m, c, k)
      == Iterate(m.(statuses := m.statuses[1..], trace := m.trace + Hit(m.phase.frq, m.date, c)), c, k - 1)
  {
    IterateUnfold(m, c, k);
    assert Step(m, c) == AfterDecode(m, m.phase.frq, c)
      == m.(statuses := m.statuses[1..], trace := m.trace + Hit(m.phase.frq, m.date, c));
  }

  function Hits(f: real, date: string, c: Credentials, k: nat): seq<Action>
  {
    if k == 0 then [] else Hit(f, date, c) + Hits(f, date, c, k - 1)
  }

  /** One hit in front of `k - 1` more: the first step of `LockedWhileFound`. */
  lemma HitThen(m: Machine, c: Credentials, k: nat)
    requires WellFormedScans(m.scans) && m.phase.Decoding? && k > 0 && k <= |m.statuses|
    requires DecodeSucceeded(m.statuses[0])
    requires Iterate(m.(statuses := m.statuses[1..], trace := m.trace + Hit(m.phase.frq, m.date, c)), c, k - 1)
      == m.(statuses := m.statuses[k..], trace := m.trace + Hit(m.phase.frq, m.date, c) + Hits(m.phase.frq, m.date, c, k - 1))
    ensures Iterate(m, c, k) == m.(statuses := m.statuses[k..], trace := m.trace + Hits(m.phase.frq, m.date, c, k))
  {
    DecodeHit(m, c, k);
    var f := m.phase.frq;
    assert m.trace + Hit(f, m.date, c) + Hits(f, m.date, c, k - 1) == m.trace + Hits(f, m.date, c, k);
  }

  /**
   * While frames keep arriving the controller stays locked on the same frequency, decodes
   * once per status, and notifies (when enabled) with the date recorded at the start of the
   * current outer iteration; no scan, reset or date is consumed.
   */
  lemma {:induction false} LockedWhileFound(m: Machine, c: Credentials, k: nat)
    requires WellFormedScans(m.scans) && m.phase.Decoding? && k <= |m.statuses|
    requires forall i :: 0 <= i < k ==> DecodeSucceeded(m.statuses[i])
    ensures Iterate(m, c, k) == m.(statuses := m.statuses[k..], trace := m.trace + Hits(m.phase.frq, m.date, c, k))
    decreases k
  {
    if k == 0 {
      assert m.statuses[0..] == m.statuses;
    } else {
      LockedWhileFound(m.(statuses := m.statuses[1..], trace := m.trace + Hit(m.phase.frq, m.date, c)), c, k - 1);
      assert m.statuses[1..][k - 1..] == m.statuses[k..];
      HitThen(m, c, k);
    }
  }

  /** A decode without "TROUVE" drops the lock: the next moves are a reset and a new date, then scanning. */
  lemma MissReturnsToScan(m: Machine, c: Credentials)
    requires WellFormedScans(m.scans) && m.phase.Decoding?
    requires m.statuses != [] && !DecodeSucceeded(m.statuses[0]) && m.dates != []
    ensures Iterate(m, c, 2) == m.(phase := Scanning, date := m.dates[0], dates := m.dates[1..],
      statuses := m.statuses[1..], trace := m.trace + [Decode(m.phase.frq), Reset])
  {
  }

  /** The example pass (peak -90 dB in bin 1 of a row at 406 MHz, 1 kHz bins) locks at 406 001 000 Hz. */
  lemma ScenarioLocks(m: Machine, c: Credentials)
    requires m.phase == Scanning && m.scans != [] && m.scans[0] == Lines([ScenarioRow])
    requires WellFormedScans(m.scans)
    ensures Step(m, c).phase == Decoding(406001000.0)
    ensures Step(m, c).trace == m.trace + [Scan]
  {
  }
}
