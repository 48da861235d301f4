/**
 * The host-side data logger: after opening the port it writes a CSV header
 * and then every received line with exactly three commas (one `s1,s2,t1,t2`
 * record), until the capture time is up, the sample limit is reached or the
 * user interrupts. The clock and the port are abstracted into a finite
 * sequence of loop events; the sequence ends when the capture time is up.
 */
module DataLogger {
  import opened Wrappers
  import opened Text

  const HEADER: string := "s1,s2,t1,t2\n"

  /** What one pass of the `while True` loop sees after the time check. */
  datatype Event =
      /** `ser.in_waiting` is 0: nothing is read. */
    | Idle
      /** A line was waiting; `raw` is what `readline().decode()` returned. */
    | Received(raw: string)
      /** `KeyboardInterrupt`. */
    | Interrupt

  /** `sample_limit and samples >= sample_limit`: `None` and 0 mean no limit. */
  predicate LimitReached(limit: Option<int>, samples: nat)
  {
    limit.Some? && limit.value != 0 && samples >= limit.value
  }

  /** A stripped line is logged when it contains exactly three commas. */
  predicate IsRecord(line: string)
  {
    CountChar(line, ',') == 3
  }

  /** `line.strip()` of a received line. */
  function Clean(raw: string): string
  {
    Strip(raw, IsPySpace)
  }

  /** Every record the port delivers before an interrupt, in arrival order, ignoring the limit. */
  function Records(events: seq<Event>): (r: seq<string>)
  {
    if events == [] then []
    else match events[0]
      case Interrupt => []
      case Idle => Records(events[1..])
      case Received(raw) =>
        if IsRecord(Clean(raw)) then [Clean(raw)] + Records(events[1..]) else Records(events[1..])
  }

  /** Every element of `Records` is a record. */
  lemma {:induction false} RecordsAreRecords(events: seq<Event>)
    ensures forall k :: 0 <= k < |Records(events)| ==> IsRecord(Records(events)[k])
    decreases |events|
  {
    if events != [] {
      RecordsAreRecords(events[1..]);
    }
  }

  /** The records the loop writes when `samples` have already been written. */
  function Capture(limit: Option<int>, samples: nat, events: seq<Event>): seq<string>
    decreases |events|
  {
    if events == [] || LimitReached(limit, samples) then []
    else match events[0]
      case Interrupt => []
      case Idle => Capture(limit, samples, events[1..])
      case Received(raw) =>
        if IsRecord(Clean(raw)) then [Clean(raw)] + Capture(limit, samples + 1, events[1..])
        else Capture(limit, samples, events[1..])
  }

  /** One pass of the loop, as `Capture` sees it. */
  lemma CaptureStep(limit: Option<int>, samples: nat, events: seq<Event>, i: nat)
    requires i < |events| && !LimitReached(limit, samples)
    ensures events[i].Interrupt? ==> Capture(limit, samples, events[i..]) == []
    ensures events[i].Idle? ==> Capture(limit, samples, events[i..]) == Capture(limit, samples, events[i + 1..])
    ensures events[i].Received? && IsRecord(Clean(events[i].raw)) ==>
              Capture(limit, samples, events[i..]) == [Clean(events[i].raw)] + Capture(limit, samples + 1, events[i + 1..])
    ensures events[i].Received? && !IsRecord(Clean(events[i].raw)) ==>
              Capture(limit, samples, events[i..]) == Capture(limit, samples, events[i + 1..])
  {
    assert events[i..][0] == events[i] && events[i..][1..] == events[i + 1..];
  }

  /** The first `n` elements of `s`, or all of them; none when `n` is not positive. */
  function Take(s: seq<string>, n: int): seq<string>
  {
    if n <= 0 then [] else if n < |s| then s[..n] else s
  }

  /** `Take` keeps a prefix of `s`, of length `n` clamped to `[0, |s|]`. */
  lemma TakePrefix(s: seq<string>, n: int)
    ensures |Take(s, n)| == if n <= 0 then 0 else if n < |s| then n else |s|
    ensures Take(s, n) == s[..|Take(s, n)|]
  {
  }

  /** Taking from a non-empty sequence takes its head first. */
  lemma TakeCons(x: string, s: seq<string>, n: int)
    requires n > 0
    ensures Take([x] + s, n) == [x] + Take(s, n - 1)
  {
    if n - 1 < |s| && n - 1 > 0 {
      assert ([x] + s)[..n] == [x] + s[..n - 1];
    }
  }

  /** Without a limit the loop writes every record, in arrival order. */
  lemma {:induction false} CaptureUnlimited(limit: Option<int>, samples: nat, events: seq<Event>)
    requires limit.None? || limit.value == 0
    ensures Capture(limit, samples, events) == Records(events)
    decreases |events|
  {
    if events != [] {
      match events[0]
      case Interrupt =>
      case Idle =>
        CaptureUnlimited(limit, samples, events[1..]);
      case Received(raw) =>
        CaptureUnlimited(limit, samples + 1, events[1..]);
        CaptureUnlimited(limit, samples, events[1..]);
    }
  }

  /**
   * With a limit the loop writes the records in arrival order, only as many
   * as the limit leaves room for after the `samples` already written.
   */
  lemma {:induction false} CaptureLimited(limit: int, samples: nat, events: seq<Event>)
    requires limit != 0
    ensures Capture(Some(limit), samples, events) == Take(Records(events), limit - samples)
    decreases |events|
  {
    if events != [] && !LimitReached(Some(limit), samples) {
      match events[0]
      case Interrupt =>
      case Idle =>
        CaptureLimited(limit, samples, events[1..]);
      case Received(raw) =>
        var rest, line := events[1..], Clean(raw);
        if IsRecord(line) {
          assert Capture(Some(limit), samples, events) == [line] + Capture(Some(limit), samples + 1, rest);
          assert Records(events) == [line] + Records(rest);
          CaptureLimited(limit, samples + 1, rest);
          TakeCons(line, Records(rest), limit - samples);
        } else {
          assert Capture(Some(limit), samples, events) == Capture(Some(limit), samples, rest);
          assert Records(events) == Records(rest);
          CaptureLimited(limit, samples, rest);
        }
    }
  }

  /** With a limit, at most that many records are written. */
  lemma CaptureRespectsLimit(limit: int, events: seq<Event>)
    requires limit != 0
    ensures |Capture(Some(limit), 0, events)| <= if limit < 0 then 0 else limit
  {
    CaptureLimited(limit, 0, events);
    TakePrefix(Records(events), limit);
  }

  /** A record as written to the file: followed by a newline. */
  function Line(record: string): string
  {
    record + "\n"
  }

  /** The records as written to the file. */
  function WithNewlines(lines: seq<string>): seq<string>
  {
    if lines == [] then [] else [Line(lines[0])] + WithNewlines(lines[1..])
  }

  /** The file gets one line per record, the record followed by a newline. */
  lemma {:induction false} WithNewlinesElements(lines: seq<string>)
    ensures |WithNewlines(lines)| == |lines|
    ensures forall k :: 0 <= k < |lines| ==> WithNewlines(lines)[k] == Line(lines[k])
  {
    if lines != [] {
      WithNewlinesElements(lines[1..]);
    }
  }

  /** Writing a record first puts its line first. */
  lemma WithNewlinesCons(line: string, lines: seq<string>)
    ensures WithNewlines([line] + lines) == [Line(line)] + WithNewlines(lines)
  {
    assert ([line] + lines)[1..] == lines;
  }

  /** What the file holds after `Capture`: the header, then one line per record. */
  function LogFile(limit: Option<int>, events: seq<Event>): seq<string>
  {
    [HEADER] + WithNewlines(Capture(limit, 0, events))
  }

  /**
   * `collect_data`: `opens` says whether opening the port succeeds. The
   * result is the return value, the writes made to the output file (`None`
   * when the file is never opened) and the final `samples` count.
   */
  method CollectData(opens: bool, limit: Option<int>, events: seq<Event>)
    returns (ok: bool, file: Option<seq<string>>, samples: nat)
    ensures ok == opens
    ensures !opens ==> file == None && samples == 0
    ensures opens ==> file == Some(LogFile(limit, events))
    ensures opens ==> samples == |Capture(limit, 0, events)|
  {
    if !opens {
      return false, None, 0;
    }
    var written := [HEADER];
    samples := 0;
    var i := 0;
    assert events[0..] == events;
    while i < |events| && !LimitReached(limit, samples)
      invariant 0 <= i <= |events|
      invariant |written| == samples + 1
      invariant written + WithNewlines(Capture(limit, samples, events[i..])) == LogFile(limit, events)
      decreases |events| - i
    {
      CaptureStep(limit, samples, events, i);
      var event := events[i];
      if event.Interrupt? {
        break;
      }
      if event.Received? {
        var line := Clean(event.raw);
        if CountChar(line, ',') == 3 {
          ghost var rest := WithNewlines(Capture(limit, samples + 1, events[i + 1..]));
          WithNewlinesCons(line, Capture(limit, samples + 1, events[i + 1..]));
          assert IsRecord(Clean(events[i].raw));
          assert Capture(limit, samples, events[i..]) == [line] + Capture(limit, samples + 1, events[i + 1..]);
          assert WithNewlines(Capture(limit, samples, events[i..])) == [Line(line)] + rest;
          assert written + ([Line(line)] + rest) == (written + [Line(line)]) + rest;
          written := written + [Line(line)];
          samples := samples + 1;
        }
      }
      assert written + WithNewlines(Capture(limit, samples, events[i + 1..])) == LogFile(limit, events);
      i := i + 1;
    }
    assert WithNewlines(Capture(limit, samples, events[i..])) == [];
    assert written + [] == written;
    WithNewlinesElements(Capture(limit, 0, events));
    return true, Some(written), samples;
  }
}
