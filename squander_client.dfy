/**
 * The client for the remote partitioning server: the progress parser for
 * output lines, the classification of a streamed command's output, the
 * `is_connected` guard on every remote operation, and the phase sequence of
 * a partition run.
 *
 * SSH and SFTP are not modelled: each remote or file-system step is given as
 * its outcome (`Done`, or `Raised` with the exception's text), and a streamed
 * command as the lines it printed, its standard error and its exit status.
 */
module SquanderClient {
  import opened Wrappers
  import opened Text

  // ---------------------------------------------------------------------
  // Progress parsing

  /** `line[i..j]` is a whole run of digits directly followed by '%'. */
  ghost predicate PercentAt(line: string, i: nat, j: nat) {
    i < j < |line| && AllDigits(line[i..j]) && line[j] == '%' && (i == 0 || !IsDigit(line[i - 1]))
  }

  /** The leftmost percent run: what the search for `\[?(\d+)%\]?` captures. */
  ghost predicate FirstPercent(line: string, i: nat, j: nat) {
    PercentAt(line, i, j) && forall a: nat, b: nat | a < i :: !PercentAt(line, a, b)
  }

  /** `line[i..j]` and `line[j+1..k]` are whole digit runs around a '/'. */
  ghost predicate CountAt(line: string, i: nat, j: nat, k: nat) {
    && i < j && j + 1 < k <= |line|
    && AllDigits(line[i..j]) && line[j] == '/' && AllDigits(line[j + 1..k])
    && (i == 0 || !IsDigit(line[i - 1]))
    && (k == |line| || !IsDigit(line[k]))
  }

  /** The leftmost count: what the search for `(\d+)/(\d+)` captures. */
  ghost predicate FirstCount(line: string, i: nat, j: nat, k: nat) {
    CountAt(line, i, j, k) && forall a: nat, b: nat, c: nat | a < i :: !CountAt(line, a, b, c)
  }

  /** The end of the digit run starting at `i`. */
  function RunEnd(line: string, i: nat): (j: nat)
    requires i <= |line|
    ensures i <= j <= |line| && AllDigits(line[i..j])
    ensures j == |line| || !IsDigit(line[j])
    decreases |line| - i
  {
    if i < |line| && IsDigit(line[i]) then
      var j := RunEnd(line, i + 1);
      assert line[i..j] == [line[i]] + line[i + 1..j];
      j
    else i
  }

  /** A digit run ending before a non-digit ends where `RunEnd` says. */
  lemma {:induction false} RunEndUnique(line: string, i: nat, j: nat)
    requires i <= j <= |line| && AllDigits(line[i..j]) && (j == |line| || !IsDigit(line[j]))
    ensures RunEnd(line, i) == j
    decreases j - i
  {
    if i < j {
      assert IsDigit(line[i..j][0]);
      assert line[i + 1..j] == line[i..j][1..];
      RunEndUnique(line, i + 1, j);
    }
  }

  /** Whether a digit run starts at `i`. */
  predicate RunStart(line: string, i: nat)
    requires i < |line|
  {
    IsDigit(line[i]) && (i == 0 || !IsDigit(line[i - 1]))
  }

  /** No percent run starts inside a digit run that is not followed by '%'. */
  lemma NoPercentInRun(line: string, i: nat)
    requires i < |line| && RunStart(line, i)
    requires var j := RunEnd(line, i); !(j < |line| && line[j] == '%')
    ensures forall a: nat, b: nat | i <= a < RunEnd(line, i) :: !PercentAt(line, a, b)
  {
    forall a: nat, b: nat | i <= a < RunEnd(line, i) && PercentAt(line, a, b)
      ensures false
    {
      if a == i {
        RunEndUnique(line, i, b);
      }
    }
  }

  /** No count starts inside a digit run that is not followed by '/' and a digit. */
  lemma NoCountInRun(line: string, i: nat)
    requires i < |line| && RunStart(line, i)
    requires var j := RunEnd(line, i); !(j + 1 < |line| && line[j] == '/' && IsDigit(line[j + 1]))
    ensures forall a: nat, b: nat, c: nat | i <= a < RunEnd(line, i) :: !CountAt(line, a, b, c)
  {
    forall a: nat, b: nat, c: nat | i <= a < RunEnd(line, i) && CountAt(line, a, b, c)
      ensures false
    {
      if a == i {
        RunEndUnique(line, i, b);
      }
    }
  }

  /** Searches for the leftmost percent run at or after `i`. */
  function FindPercent(line: string, i: nat): (r: Option<(nat, nat)>)
    requires i <= |line|
    ensures r.Some? ==> i <= r.value.0 && PercentAt(line, r.value.0, r.value.1)
    ensures r.Some? ==> forall a: nat, b: nat | i <= a < r.value.0 :: !PercentAt(line, a, b)
    ensures r.None? ==> forall a: nat, b: nat | i <= a :: !PercentAt(line, a, b)
    decreases |line| - i
  {
    if i == |line| then None
    else if RunStart(line, i) then
      var j := RunEnd(line, i);
      if j < |line| && line[j] == '%' then Some((i, j))
      else
        NoPercentInRun(line, i);
        FindPercent(line, j)
    else
      FindPercent(line, i + 1)
  }

  /** Searches for the leftmost count at or after `i`. */
  function FindCount(line: string, i: nat): (r: Option<(nat, nat, nat)>)
    requires i <= |line|
    ensures r.Some? ==> i <= r.value.0 && CountAt(line, r.value.0, r.value.1, r.value.2)
    ensures r.Some? ==> forall a: nat, b: nat, c: nat | i <= a < r.value.0 :: !CountAt(line, a, b, c)
    ensures r.None? ==> forall a: nat, b: nat, c: nat | i <= a :: !CountAt(line, a, b, c)
    decreases |line| - i
  {
    if i == |line| then None
    else if RunStart(line, i) then
      var j := RunEnd(line, i);
      if j + 1 < |line| && line[j] == '/' && IsDigit(line[j + 1]) then
        var k := RunEnd(line, j + 1);
        Some((i, j, k))
      else
        NoCountInRun(line, i);
        FindCount(line, j)
    else
      FindCount(line, i + 1)
  }

  /** The percentage `done` is of `total`, truncated, computed exactly on whole numbers. */
  function Percent(done: nat, total: nat): nat
    requires total > 0
  {
    done * 100 / total
  }

  /**
   * `_parse_progress`: the number before the first '%', else the first
   * "current/total" as a truncated percentage, else nothing; a zero total
   * gives nothing.
   */
  function ParseProgress(line: string): Option<nat> {
    match FindPercent(line, 0)
    case Some((i, j)) => Some(DigitsValue(line[i..j]))
    case None =>
      match FindCount(line, 0)
      case Some((i, j, k)) =>
        var total := DigitsValue(line[j + 1..k]);
        if total > 0 then Some(Percent(DigitsValue(line[i..j]), total)) else None
      case None => None
  }

  /** There is at most one leftmost percent run. */
  lemma {:induction false} FirstPercentUnique(line: string, i: nat, j: nat, a: nat, b: nat)
    requires FirstPercent(line, i, j) && FirstPercent(line, a, b)
    ensures a == i && b == j
  {
    RunEndUnique(line, a, b);
    RunEndUnique(line, i, j);
  }

  /** There is at most one leftmost count. */
  lemma {:induction false} FirstCountUnique(line: string, i: nat, j: nat, k: nat, a: nat, b: nat, c: nat)
    requires FirstCount(line, i, j, k) && FirstCount(line, a, b, c)
    ensures a == i && b == j && c == k
  {
    RunEndUnique(line, a, b);
    RunEndUnique(line, i, j);
    RunEndUnique(line, b + 1, c);
    RunEndUnique(line, j + 1, k);
  }

  /**
   * What `ParseProgress` returns, stated on the leftmost matches: a percent run
   * wins over a count, a count with a zero total gives nothing, and a line with
   * neither gives nothing.
   */
  lemma {:induction false} ParseProgressMeaning(line: string)
    ensures forall i: nat, j: nat | FirstPercent(line, i, j) :: ParseProgress(line) == Some(DigitsValue(line[i..j]))
    ensures (forall i: nat, j: nat :: !PercentAt(line, i, j)) ==>
              forall i: nat, j: nat, k: nat | FirstCount(line, i, j, k) ::
                var total := DigitsValue(line[j + 1..k]);
                ParseProgress(line) == if total > 0 then Some(Percent(DigitsValue(line[i..j]), total)) else None
    ensures (forall i: nat, j: nat :: !PercentAt(line, i, j)) && (forall i: nat, j: nat, k: nat :: !CountAt(line, i, j, k)) ==>
              ParseProgress(line) == None
  {
    match FindPercent(line, 0)
    case Some((i, j)) =>
      forall a: nat, b: nat | FirstPercent(line, a, b)
        ensures ParseProgress(line) == Some(DigitsValue(line[a..b]))
      {
        FirstPercentUnique(line, i, j, a, b);
      }
    case None =>
      match FindCount(line, 0)
      case Some((i, j, k)) =>
        forall a: nat, b: nat, c: nat | FirstCount(line, a, b, c)
          ensures a == i && b == j && c == k
        {
          FirstCountUnique(line, i, j, k, a, b, c);
        }
      case None =>
  }

  /** A count that is not ahead of its total gives a percentage between 0 and 100. */
  lemma {:induction false} CountProgressBounded(line: string, i: nat, j: nat, k: nat)
    requires (forall a: nat, b: nat :: !PercentAt(line, a, b)) && FirstCount(line, i, j, k)
    requires DigitsValue(line[i..j]) <= DigitsValue(line[j + 1..k])
    ensures var total := DigitsValue(line[j + 1..k]);
            total > 0 ==> ParseProgress(line).Some? && ParseProgress(line).value <= 100
  {
    var current := DigitsValue(line[i..j]);
    var total := DigitsValue(line[j + 1..k]);
    ParseProgressMeaning(line);
    if total > 0 {
      PercentBound(current, total);
    }
  }

  lemma PercentBound(current: nat, total: nat)
    requires 0 < total && current <= total
    ensures current * 100 / total <= 100
  {
    var n := current * 100;
    var q := n / total;
    assert n == q * total + n % total;
    if q > 100 {
      MulAtLeast(q, 101, total);
      assert false;
    }
  }

  lemma MulAtLeast(a: int, b: int, c: nat)
    requires a >= b
    ensures a * c >= b * c
  {
    assert a * c - b * c == (a - b) * c;
  }

  // ---------------------------------------------------------------------
  // Events

  datatype PhaseName = Preparing | Uploading | Building | Downloading | Cleanup
  {
    /** The message a phase event carries. */
    function Message(): string {
      match this
      case Preparing => "Preparing job..."
      case Uploading => "Uploading circuit..."
      case Building => "Building and partitioning circuit..."
      case Downloading => "Downloading results..."
      case Cleanup => "Cleaning up..."
    }
  }

  /** The message of the completion event. */
  const CompletedMessage := "Partition completed successfully"

  /**
   * What a run reports to its caller. A phase event carries its phase's
   * `Message()`, the completion event `CompletedMessage` and `result`, the
   * downloaded JSON document.
   */
  datatype Event =
    | Phase(phase: PhaseName)
    | Log(message: string, progress: Option<nat>)
    | WarningLog(message: string)
    | Complete(result: string)
    | Error(message: string)
  {
    predicate IsTerminal() {
      Complete? || Error?
    }
  }

  /** The log events of the streamed lines: stripped, empty ones dropped, in order. */
  function LogEvents(lines: seq<string>): (events: seq<Event>)
    ensures |events| <= |lines|
    ensures forall e <- events :: e.Log?
  {
    if lines == [] then []
    else
      LineEvents(lines[0]) + LogEvents(lines[1..])
  }

  /** Every log event carries a stripped, non-empty line and that line's progress. */
  lemma {:induction false} LogEventsShape(lines: seq<string>)
    ensures forall e <- LogEvents(lines) :: e.message != [] && Strip(e.message) == e.message && e.progress == ParseProgress(e.message)
    decreases |lines|
  {
    if lines != [] {
      StripIdempotent(lines[0]);
      LogEventsShape(lines[1..]);
    }
  }

  /**
   * `events` are the events `f` gives `lines`, taken through the index map
   * `idx`: event `k` is the one event of line `idx[k]`, the indices increase,
   * and every line that has an event is indexed.
   */
  ghost predicate IndexedBy(f: string -> seq<Event>, lines: seq<string>, events: seq<Event>, idx: seq<nat>) {
    && |idx| == |events|
    && (forall k | 0 <= k < |idx| :: idx[k] < |lines| && f(lines[idx[k]]) == [events[k]])
    && (forall k, l | 0 <= k < l < |idx| :: idx[k] < idx[l])
    && (forall i | 0 <= i < |lines| && f(lines[i]) != [] :: i in idx)
  }

  /**
   * The log events are the visible lines in order: event `k` is the log event
   * of line `idx[k]`, the indices increase, and every line with visible text
   * has its event.
   */
  lemma {:induction false} LogEventsIndexed(lines: seq<string>) returns (idx: seq<nat>)
    ensures IndexedBy(LineEvents, lines, LogEvents(lines), idx)
    decreases |lines|
  {
    if lines == [] {
      return [];
    }
    var rest := LogEventsIndexed(lines[1..]);
    idx := IndexedCons(LineEvents, lines[0], lines[1..], LogEvents(lines[1..]), rest);
    assert [lines[0]] + lines[1..] == lines;
  }

  /** Putting one line in front shifts the index map by one and indexes the line when it has an event. */
  lemma IndexedCons(f: string -> seq<Event>, line: string, lines: seq<string>, events: seq<Event>, rest: seq<nat>) returns (idx: seq<nat>)
    requires IndexedBy(f, lines, events, rest) && |f(line)| <= 1
    ensures IndexedBy(f, [line] + lines, f(line) + events, idx)
  {
    var pad := |f(line)|;
    var shifted := seq(|rest|, k requires 0 <= k < |rest| => rest[k] + 1);
    idx := if pad == 1 then [0] + shifted else shifted;
    assert ShiftedBy(idx, rest, pad);
    ShiftPicks(f, line, lines, events, rest, idx);
    ShiftIncreasing(idx, rest, pad);
    ShiftCovers(f, line, lines, events, rest, idx);
  }

  /** `idx` is `rest` moved one line down, after `pad` leading entries for a new front line. */
  ghost predicate ShiftedBy(idx: seq<nat>, rest: seq<nat>, pad: nat) {
    && pad <= 1
    && |idx| == pad + |rest|
    && (pad == 1 ==> idx[0] == 0)
    && forall k | 0 <= k < |rest| :: idx[pad + k] == rest[k] + 1
  }

  lemma ShiftPicks(f: string -> seq<Event>, line: string, lines: seq<string>, events: seq<Event>, rest: seq<nat>, idx: seq<nat>)
    requires IndexedBy(f, lines, events, rest)
    requires ShiftedBy(idx, rest, |f(line)|)
    ensures forall k | 0 <= k < |idx| :: idx[k] < 1 + |lines| && f(([line] + lines)[idx[k]]) == [(f(line) + events)[k]]
  {
    var pad := |f(line)|;
    var all := [line] + lines;
    var ev := f(line) + events;
    forall k | 0 <= k < |idx|
      ensures idx[k] < |all| && f(all[idx[k]]) == [ev[k]]
    {
      if k >= pad {
        var j := k - pad;
        assert idx[pad + j] == rest[j] + 1;
        assert ev[k] == events[j];
        assert all[idx[k]] == lines[rest[j]];
      } else {
        assert f(line) == [ev[0]];
      }
    }
  }

  lemma ShiftIncreasing(idx: seq<nat>, rest: seq<nat>, pad: nat)
    requires ShiftedBy(idx, rest, pad)
    requires forall k, l | 0 <= k < l < |rest| :: rest[k] < rest[l]
    ensures forall k, l | 0 <= k < l < |idx| :: idx[k] < idx[l]
  {
    forall k, l | 0 <= k < l < |idx|
      ensures idx[k] < idx[l]
    {
      assert idx[pad + (l - pad)] == rest[l - pad] + 1;
      if k >= pad {
        assert idx[pad + (k - pad)] == rest[k - pad] + 1;
      }
    }
  }

  lemma ShiftCovers(f: string -> seq<Event>, line: string, lines: seq<string>, events: seq<Event>, rest: seq<nat>, idx: seq<nat>)
    requires IndexedBy(f, lines, events, rest)
    requires ShiftedBy(idx, rest, |f(line)|)
    ensures forall i | 0 <= i < 1 + |lines| && f(([line] + lines)[i]) != [] :: i in idx
  {
    var pad := |f(line)|;
    var all := [line] + lines;
    forall i | 0 <= i < |all| && f(all[i]) != []
      ensures i in idx
    {
      if i == 0 {
        assert idx[0] == 0;
      } else {
        assert all[i] == lines[i - 1];
        var k :| 0 <= k < |rest| && rest[k] == i - 1;
        assert idx[pad + k] == i;
      }
    }
  }

  /** Lines streamed in two pieces give the events of each piece, in order. */
  lemma {:induction false} LogEventsAppend(a: seq<string>, b: seq<string>)
    ensures LogEvents(a + b) == LogEvents(a) + LogEvents(b)
    decreases |a|
  {
    if a != [] {
      assert (a + b)[1..] == a[1..] + b;
      LogEventsAppend(a[1..], b);
    } else {
      assert a + b == b;
    }
  }

  /** The log event of one line: none when it has no visible text. */
  function LineEvents(line: string): seq<Event> {
    if Strip(line) != [] then [Log(Strip(line), ParseProgress(Strip(line)))] else []
  }

  /** One more line adds its log event, if it has visible text. */
  lemma {:induction false} LogEventsSnoc(lines: seq<string>, i: nat)
    requires i < |lines|
    ensures LogEvents(lines[..i + 1]) == LogEvents(lines[..i]) + LineEvents(lines[i])
  {
    assert lines[..i + 1] == lines[..i] + [lines[i]];
    LogEventsAppend(lines[..i], [lines[i]]);
    assert [lines[i]][1..] == [];
  }

  // ---------------------------------------------------------------------
  // Remote operations

  /** How a step that touches the remote host or the local disk ended. */
  datatype Outcome = Done | Raised(reason: string)

  /** A streamed command: it could not start, its output could not be read, or it ran to its exit status. */
  datatype StreamRun =
    | ExecFailed(reason: string)
    | ReadFailed(reason: string)
    | Finished(lines: seq<string>, stderr: string, exitStatus: int)

  datatype ClientError = ConnectionError(message: string) | ExecutionError(message: string)

  const NotConnected := ConnectionError("Not connected")

  /** The events and the raised error of `stream_command_output`. */
  function StreamOutput(connected: bool, run: StreamRun): (r: (seq<Event>, Option<ClientError>))
    ensures !connected ==> r == ([], Some(NotConnected))
    ensures connected && run.ExecFailed? ==> r == ([], Some(ExecutionError("Stream failed: " + run.reason)))
    ensures connected && run.ReadFailed? ==> r == ([], Some(ExecutionError("Stream read error: " + run.reason)))
    ensures connected && run.Finished? ==>
      r.0 == LogEvents(run.lines) + (if run.exitStatus == 0 && run.stderr != "" then [WarningLog("[WARNING] " + run.stderr)] else [])
    ensures connected && run.Finished? ==>
      r.1 == (if run.exitStatus == 0 then None else Some(ExecutionError("Command failed: " + run.stderr)))
    ensures forall e <- r.0 :: e.Log? || e.WarningLog?
  {
    if !connected then ([], Some(NotConnected))
    else match run
      case ExecFailed(reason) => ([], Some(ExecutionError("Stream failed: " + reason)))
      case ReadFailed(reason) => ([], Some(ExecutionError("Stream read error: " + reason)))
      case Finished(lines, stderr, status) =>
        var logs := LogEvents(lines);
        if status != 0 then (logs, Some(ExecutionError("Command failed: " + stderr)))
        else if stderr != "" then (logs + [WarningLog("[WARNING] " + stderr)], None)
        else (logs, None)
  }

  /** Everything a partition run depends on that is outside the model, in the order it is used. */
  datatype RunSteps = RunSteps(
    mkdir: Outcome,
    writeInput: Outcome,
    upload: Outcome,
    stream: StreamRun,
    download: Outcome,
    parse: Result<string, string>,
    rm: Outcome,
    unlink: Outcome)

  /** The error message of a failed remote command, as `execute_command` raises it. */
  function CommandError(connected: bool, outcome: Outcome): Option<string> {
    if !connected then Some(NotConnected.message)
    else if outcome.Raised? then Some("Command failed: " + outcome.reason)
    else None
  }

  /** The error message of a failed transfer; `kind` is "Upload" or "Download". */
  function TransferError(connected: bool, kind: string, outcome: Outcome): Option<string> {
    if !connected then Some(NotConnected.message)
    else if outcome.Raised? then Some(kind + " failed: " + outcome.reason)
    else None
  }

  /** The events `run_partition` yields. */
  function PartitionEvents(connected: bool, steps: RunSteps): seq<Event> {
    var p0 := [Phase(Preparing)];
    var e0 := CommandError(connected, steps.mkdir);
    if e0.Some? then p0 + [Error(e0.value)] else
    var p1 := p0 + [Phase(Uploading)];
    if steps.writeInput.Raised? then p1 + [Error(steps.writeInput.reason)] else
    var e1 := TransferError(connected, "Upload", steps.upload);
    if e1.Some? then p1 + [Error(e1.value)] else
    var stream := StreamOutput(connected, steps.stream);
    var p2 := p1 + [Phase(Building)] + stream.0;
    if stream.1.Some? then p2 + [Error(stream.1.value.message)] else
    var p3 := p2 + [Phase(Downloading)];
    var e3 := TransferError(connected, "Download", steps.download);
    if e3.Some? then p3 + [Error(e3.value)] else
    if steps.parse.Failure? then p3 + [Error(steps.parse.error)] else
    var p4 := p3 + [Phase(Cleanup)];
    var e4 := CommandError(connected, steps.rm);
    if e4.Some? then p4 + [Error(e4.value)] else
    if steps.unlink.Raised? then p4 + [Error(steps.unlink.reason)] else
    p4 + [Complete(steps.parse.value)]
  }

  /** Whether every step of a run succeeds. */
  predicate AllSucceed(connected: bool, steps: RunSteps) {
    && connected && steps.mkdir.Done? && steps.writeInput.Done? && steps.upload.Done?
    && steps.stream.Finished? && steps.stream.exitStatus == 0
    && steps.download.Done? && steps.parse.Success? && steps.rm.Done? && steps.unlink.Done?
  }

  /** The phase names announced by a sequence of events, in order. */
  function Phases(events: seq<Event>): seq<PhaseName> {
    if events == [] then []
    else (if events[0].Phase? then [events[0].phase] else []) + Phases(events[1..])
  }

  lemma {:induction false} PhasesAppend(a: seq<Event>, b: seq<Event>)
    ensures Phases(a + b) == Phases(a) + Phases(b)
    decreases |a|
  {
    if a != [] {
      assert (a + b)[1..] == a[1..] + b;
      PhasesAppend(a[1..], b);
    } else {
      assert a + b == b;
    }
  }

  lemma {:induction false} NoPhases(events: seq<Event>)
    requires forall e <- events :: !e.Phase?
    ensures Phases(events) == []
    decreases |events|
  {
    if events != [] {
      NoPhases(events[1..]);
    }
  }

  lemma {:induction false} NoTerminal(events: seq<Event>)
    requires forall e <- events :: e.Log? || e.WarningLog?
    ensures forall i | 0 <= i < |events| :: !events[i].IsTerminal()
  {
    forall i | 0 <= i < |events|
      ensures !events[i].IsTerminal()
    {
      assert events[i] in events;
    }
  }

  const AllPhases := [Preparing, Uploading, Building, Downloading, Cleanup]

  /**
   * A partition run ends with exactly one terminal event, and that event is
   * the completion exactly when every step succeeds.
   */
  lemma PartitionRunShape(connected: bool, steps: RunSteps)
    ensures var events := PartitionEvents(connected, steps);
            && |events| >= 2
            && events[|events| - 1].IsTerminal()
            && (forall i | 0 <= i < |events| - 1 :: !events[i].IsTerminal())
            && (events[|events| - 1].Complete? <==> AllSucceed(connected, steps))
  {
    var p, t := RunSplit(connected, steps);
    Ends(p, t);
  }

  /**
   * The phases of a partition run come in their fixed order, as a prefix of
   * preparing, uploading, building, downloading, cleanup; a run whose every
   * step succeeds announces them all.
   */
  lemma PartitionRunPhases(connected: bool, steps: RunSteps)
    ensures var events := PartitionEvents(connected, steps);
            && Phases(events) <= AllPhases
            && (AllSucceed(connected, steps) ==> Phases(events) == AllPhases)
  {
    var p, t := RunSplit(connected, steps);
    Ends(p, t);
  }

  /**
   * A run's events are the events before its terminal one, none of them
   * terminal and announcing a prefix of the phases, followed by the terminal
   * one, which is the completion exactly when every step succeeds, after
   * all the phases.
   */
  lemma RunSplit(connected: bool, steps: RunSteps) returns (p: seq<Event>, t: Event)
    ensures PartitionEvents(connected, steps) == p + [t] && |p| >= 1
    ensures t.IsTerminal() && forall i | 0 <= i < |p| :: !p[i].IsTerminal()
    ensures Phases(p) <= AllPhases
    ensures t.Complete? <==> AllSucceed(connected, steps)
    ensures t.Complete? ==> Phases(p) == AllPhases
  {
    var stream := StreamOutput(connected, steps.stream);
    NoPhases(stream.0);
    NoTerminal(stream.0);
    var p0 := [Phase(Preparing)];
    var p1 := p0 + [Phase(Uploading)];
    var p2 := p1 + [Phase(Building)] + stream.0;
    var p3 := p2 + [Phase(Downloading)];
    var p4 := p3 + [Phase(Cleanup)];
    PhasesSingle(p0[0]);
    Extend(p0, Phase(Uploading));
    Extend(p1, Phase(Building));
    ExtendLogs(p1 + [Phase(Building)], stream.0);
    Extend(p2, Phase(Downloading));
    Extend(p3, Phase(Cleanup));
    assert Phases(p0) == AllPhases[..1];
    assert Phases(p1) == AllPhases[..2];
    assert Phases(p2) == AllPhases[..3];
    assert Phases(p3) == AllPhases[..4];
    assert Phases(p4) == AllPhases;
    var e0 := CommandError(connected, steps.mkdir);
    var e1 := TransferError(connected, "Upload", steps.upload);
    var e3 := TransferError(connected, "Download", steps.download);
    var e4 := CommandError(connected, steps.rm);
    if e0.Some? {
      p, t := p0, Error(e0.value);
    } else if steps.writeInput.Raised? {
      p, t := p1, Error(steps.writeInput.reason);
    } else if e1.Some? {
      p, t := p1, Error(e1.value);
    } else if stream.1.Some? {
      p, t := p2, Error(stream.1.value.message);
    } else if e3.Some? {
      p, t := p3, Error(e3.value);
    } else if steps.parse.Failure? {
      p, t := p3, Error(steps.parse.error);
    } else if e4.Some? {
      p, t := p4, Error(e4.value);
    } else if steps.unlink.Raised? {
      p, t := p4, Error(steps.unlink.reason);
    } else {
      p, t := p4, Complete(steps.parse.value);
    }
  }

  /** Appending a phase event announces that phase and no terminal event. */
  lemma {:induction false} Extend(p: seq<Event>, e: Event)
    requires e.Phase? && forall i | 0 <= i < |p| :: !p[i].IsTerminal()
    ensures Phases(p + [e]) == Phases(p) + [e.phase]
    ensures forall i | 0 <= i < |p + [e]| :: !(p + [e])[i].IsTerminal()
  {
    PhasesAppend(p, [e]);
    PhasesSingle(e);
  }

  /** Appending streamed log events announces no phase and no terminal event. */
  lemma {:induction false} ExtendLogs(p: seq<Event>, logs: seq<Event>)
    requires forall i | 0 <= i < |p| :: !p[i].IsTerminal()
    requires forall i | 0 <= i < |logs| :: !logs[i].IsTerminal()
    requires Phases(logs) == []
    ensures Phases(p + logs) == Phases(p)
    ensures forall i | 0 <= i < |p + logs| :: !(p + logs)[i].IsTerminal()
  {
    PhasesAppend(p, logs);
    forall i | 0 <= i < |p + logs|
      ensures !(p + logs)[i].IsTerminal()
    {
      if i >= |p| {
        assert (p + logs)[i] == logs[i - |p|];
      }
    }
  }

  /** A terminal event closes a run without announcing a phase. */
  lemma {:induction false} Ends(p: seq<Event>, t: Event)
    requires t.IsTerminal() && forall i | 0 <= i < |p| :: !p[i].IsTerminal()
    ensures Phases(p + [t]) == Phases(p)
    ensures (p + [t])[|p|] == t
    ensures forall i | 0 <= i < |p| :: !(p + [t])[i].IsTerminal()
  {
    PhasesAppend(p, [t]);
    PhasesSingle(t);
  }

  lemma PhasesSingle(e: Event)
    ensures Phases([e]) == if e.Phase? then [e.phase] else []
  {
    assert [e][1..] == [];
  }

  // ---------------------------------------------------------------------
  // The client object

  /** `SquanderClient`: a connection flag guarding every remote operation. */
  class Client {
    var isConnected: bool

    constructor ()
      ensures !isConnected
    {
      isConnected := false;
    }

    /** `connect`: the flag follows the outcome; a failure is reported wrapped. */
    method Connect(outcome: Outcome) returns (err: Option<ClientError>)
      modifies this
      ensures isConnected <==> outcome.Done?
      ensures err.None? <==> outcome.Done?
      ensures outcome.Raised? ==> err == Some(ConnectionError("SSH connection failed: " + outcome.reason))
    {
      if outcome.Done? {
        isConnected := true;
        err := None;
      } else {
        isConnected := false;
        err := Some(ConnectionError("SSH connection failed: " + outcome.reason));
      }
    }

    /** `disconnect`: closing that raises is swallowed and leaves the flag as it was. */
    method Disconnect(close: Outcome)
      modifies this
      ensures close.Done? ==> !isConnected
      ensures close.Raised? ==> isConnected == old(isConnected)
    {
      if close.Done? {
        isConnected := false;
      }
    }

    /** `execute_command`: the exit status is returned, not checked. */
    method ExecuteCommand(outcome: Result<(string, string, int), string>) returns (r: Result<(string, string, int), ClientError>)
      ensures !isConnected ==> r == Failure(NotConnected)
      ensures isConnected && outcome.Success? ==> r == Success(outcome.value)
      ensures isConnected && outcome.Failure? ==> r == Failure(ExecutionError("Command failed: " + outcome.error))
    {
      if !isConnected {
        return Failure(NotConnected);
      }
      if outcome.Failure? {
        return Failure(ExecutionError("Command failed: " + outcome.error));
      }
      return Success(outcome.value);
    }

    /** `upload_file` and `download_file`; `kind` is "Upload" or "Download". */
    method Transfer(kind: string, outcome: Outcome) returns (err: Option<ClientError>)
      ensures !isConnected ==> err == Some(NotConnected)
      ensures isConnected ==> (err.None? <==> outcome.Done?)
      ensures err.Some? ==> Some(err.value.message) == TransferError(isConnected, kind, outcome)
    {
      if !isConnected {
        return Some(NotConnected);
      }
      if outcome.Raised? {
        return Some(ExecutionError(kind + " failed: " + outcome.reason));
      }
      return None;
    }

    /** The loop of the stream worker: one log event per line with visible text. */
    static method CollectLogs(lines: seq<string>) returns (results: seq<Event>)
      ensures results == LogEvents(lines)
    {
      results := [];
      var i := 0;
      while i < |lines|
        invariant 0 <= i <= |lines|
        invariant results == LogEvents(lines[..i])
      {
        var line := Strip(lines[i]);
        if line != [] {
          results := results + [Log(line, ParseProgress(line))];
        }
        LogEventsSnoc(lines, i);
        i := i + 1;
      }
      assert lines[..i] == lines;
    }

    /** `stream_command_output`. */
    method StreamCommandOutput(run: StreamRun) returns (events: seq<Event>, err: Option<ClientError>)
      ensures (events, err) == StreamOutput(isConnected, run)
    {
      if !isConnected {
        return [], Some(NotConnected);
      }
      match run
      case ExecFailed(reason) =>
        return [], Some(ExecutionError("Stream failed: " + reason));
      case ReadFailed(reason) =>
        return [], Some(ExecutionError("Stream read error: " + reason));
      case Finished(lines, stderr, status) =>
        events := CollectLogs(lines);
        err := None;
        if status != 0 {
          err := Some(ExecutionError("Command failed: " + stderr));
        } else if stderr != "" {
          events := events + [WarningLog("[WARNING] " + stderr)];
        }
    }

    /** `run_partition`: the events it yields, ending with one terminal event. */
    method RunPartition(steps: RunSteps) returns (events: seq<Event>)
      ensures events == PartitionEvents(isConnected, steps)
    {
      events := [Phase(Preparing)];
      var mkdir := ExecuteCommand(if steps.mkdir.Done? then Success(("", "", 0)) else Failure(steps.mkdir.reason));
      if mkdir.Failure? {
        return events + [Error(mkdir.error.message)];
      }
      events := events + [Phase(Uploading)];
      if steps.writeInput.Raised? {
        return events + [Error(steps.writeInput.reason)];
      }
      var up := Transfer("Upload", steps.upload);
      if up.Some? {
        return events + [Error(up.value.message)];
      }
      events := events + [Phase(Building)];
      var logs, streamErr := StreamCommandOutput(steps.stream);
      events := events + logs;
      if streamErr.Some? {
        return events + [Error(streamErr.value.message)];
      }
      events := events + [Phase(Downloading)];
      var down := Transfer("Download", steps.download);
      if down.Some? {
        return events + [Error(down.value.message)];
      }
      if steps.parse.Failure? {
        return events + [Error(steps.parse.error)];
      }
      events := events + [Phase(Cleanup)];
      var rm := ExecuteCommand(if steps.rm.Done? then Success(("", "", 0)) else Failure(steps.rm.reason));
      if rm.Failure? {
        return events + [Error(rm.error.message)];
      }
      if steps.unlink.Raised? {
        return events + [Error(steps.unlink.reason)];
      }
      events := events + [Complete(steps.parse.value)];
    }
  }
}
