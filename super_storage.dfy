/**
  The download model of the SuperStorage app: the list of running downloads that the
  UI observes, the arithmetic that splits a file into ranged parts, and the chunked
  download loop with its cooperative stop flag.
 */
module SuperStorage {
  import opened Common
  import Text

  newtype Byte = b: int | 0 <= b < 256

  /** A file the server lists for download. */
  datatype DownloadFile = DownloadFile(name: string, size: int)

  /** One row of the download list; `progress` is the fraction downloaded, 1.0 when done. */
  datatype DownloadInfo = DownloadInfo(id: nat, name: string, progress: real)

  /**
    Why a download fails: the request could not be made or read (TransportError),
    the server answered with the wrong status ("The server responded with an error."),
    or the stop flag ended a download that cannot be resumed (CancellationError).
   */
  datatype DownloadError = TransportError | ServerError | CancellationError

  /** The status and body of a plain, non-streamed response. */
  datatype Response = Response(data: seq<Byte>, status: int)

  // ---------------------------------------------------------------------------
  // The download list
  // ---------------------------------------------------------------------------

  /** The index of the first record called `name`, as `firstIndex(where:)` finds it. */
  function FirstNamed(s: seq<DownloadInfo>, name: string): (r: Option<nat>)
    ensures r.Some? ==> r.value < |s| && s[r.value].name == name
    ensures r.Some? ==> forall j :: 0 <= j < r.value ==> s[j].name != name
    ensures r.None? <==> forall j :: 0 <= j < |s| ==> s[j].name != name
  {
    if s == [] then None
    else if s[0].name == name then Some(0)
    else match FirstNamed(s[1..], name)
      case None => None
      case Some(i) => Some(i + 1)
  }

  /** The list after `updateDownload(name:progress:)`. */
  function UpdateFirst(s: seq<DownloadInfo>, name: string, progress: real): (r: seq<DownloadInfo>)
    ensures |r| == |s|
    ensures forall j :: 0 <= j < |s| ==> r[j].id == s[j].id && r[j].name == s[j].name
    ensures forall j :: 0 <= j < |s| && s[j].name != name ==> r[j] == s[j]
    ensures FirstNamed(s, name).None? ==> r == s
    ensures FirstNamed(s, name).Some? ==>
      var i := FirstNamed(s, name).value;
      r[i].progress == progress && forall j :: 0 <= j < |s| && j != i ==> r[j] == s[j]
  {
    match FirstNamed(s, name)
    case None => s
    case Some(i) => s[i := s[i].(progress := progress)]
  }

  /** The list after a series of progress updates for `name`, applied in the order given. */
  function ApplyUpdates(s: seq<DownloadInfo>, name: string, progresses: seq<real>): (r: seq<DownloadInfo>)
    ensures |r| == |s|
    ensures forall j :: 0 <= j < |s| ==> r[j].id == s[j].id && r[j].name == s[j].name
    ensures forall j :: 0 <= j < |s| && s[j].name != name ==> r[j] == s[j]
    decreases |progresses|
  {
    if progresses == [] then s
    else ApplyUpdates(UpdateFirst(s, name, progresses[0]), name, progresses[1..])
  }

  /** An update for a name only the last record carries changes that record alone. */
  lemma UpdateUniqueLast(s: seq<DownloadInfo>, id: nat, name: string, start: real, progress: real)
    requires forall j :: 0 <= j < |s| ==> s[j].name != name
    ensures UpdateFirst(s + [DownloadInfo(id, name, start)], name, progress) == s + [DownloadInfo(id, name, progress)]
  {
    var t := s + [DownloadInfo(id, name, start)];
    assert t[|s|].name == name;
    assert forall j :: 0 <= j < |s| ==> t[j].name != name;
    assert FirstNamed(t, name) == Some(|s|);
  }

  /**
    A record appended for a name no earlier record has collects every later update
    for that name: it ends at the last progress reported.
   */
  lemma {:induction false} NewRecordReceivesUpdates(s: seq<DownloadInfo>, id: nat, name: string, start: real, progresses: seq<real>)
    requires forall j :: 0 <= j < |s| ==> s[j].name != name
    ensures ApplyUpdates(s + [DownloadInfo(id, name, start)], name, progresses)
         == s + [DownloadInfo(id, name, if progresses == [] then start else progresses[|progresses| - 1])]
    decreases |progresses|
  {
    if progresses != [] {
      UpdateUniqueLast(s, id, name, start, progresses[0]);
      NewRecordReceivesUpdates(s, id, name, progresses[0], progresses[1..]);
      if |progresses| > 1 {
        assert progresses[1..][|progresses[1..]| - 1] == progresses[|progresses| - 1];
      }
    }
  }

  /**
    When an earlier record already carries `name`, the earlier one takes every update and
    the record just appended stays at 0.0: lookup by name always picks the first match.
   */
  lemma {:induction false} EarlierRecordShadowsNew(s: seq<DownloadInfo>, id: nat, name: string, progresses: seq<real>)
    requires exists j :: 0 <= j < |s| && s[j].name == name
    ensures ApplyUpdates(s + [DownloadInfo(id, name, 0.0)], name, progresses)[|s|] == DownloadInfo(id, name, 0.0)
    decreases |progresses|
  {
    if progresses != [] {
      var t := s + [DownloadInfo(id, name, 0.0)];
      var u := UpdateFirst(t, name, progresses[0]);
      var j :| 0 <= j < |s| && s[j].name == name;
      assert t[j].name == name;
      var i := FirstNamed(t, name).value;
      assert i <= j;
      assert u[|s|] == t[|s|];
      var s' := u[..|s|];
      assert u == s' + [DownloadInfo(id, name, 0.0)];
      assert s'[i].name == name;
      EarlierRecordShadowsNew(s', id, name, progresses[1..]);
    }
  }

  // ---------------------------------------------------------------------------
  // Splitting a file into parts
  // ---------------------------------------------------------------------------

  /** The number of parts the multi-part download asks for. */
  const PartCount := 4

  datatype PartInfo = PartInfo(offset: int, size: int, name: string)

  /** `a / b` rounded up, for a positive divisor. */
  function CeilDiv(a: int, b: int): (q: int)
    requires b > 0
    ensures (q - 1) * b < a <= q * b
  {
    var d := (-a) / b;
    assert -a == b * d + (-a) % b;
    -d
  }

  /** `partInfo(index:of:)`: where part `index` of `count` starts, how long it is, what it is called. */
  function PartInfoOf(file: DownloadFile, index: int, count: int): (p: PartInfo)
    requires count > 0
    ensures p.size <= CeilDiv(file.size, count)
    ensures p.offset + p.size <= file.size
    ensures p.offset == index * CeilDiv(file.size, count)
  {
    var standardPartSize := CeilDiv(file.size, count);
    var partOffset := index * standardPartSize;
    var partSize := Min(standardPartSize, file.size - partOffset);
    var partName := file.name + " (part " + Text.IntToString(index + 1) + ")";
    PartInfo(partOffset, partSize, partName)
  }

  lemma MulMonotone(a: int, b: int, c: int)
    requires a <= b && c >= 0
    ensures a * c <= b * c
  {
  }

  /** Parts never overlap: each ends at or before the next one starts. */
  lemma PartsDoNotOverlap(file: DownloadFile, count: int, i: int, j: int)
    requires count > 0 && file.size >= 0
    requires 0 <= i < j
    ensures PartInfoOf(file, i, count).offset + PartInfoOf(file, i, count).size <= PartInfoOf(file, j, count).offset
  {
    var q := CeilDiv(file.size, count);
    assert q >= 0;
    MulMonotone(i + 1, j, q);
    assert (i + 1) * q == i * q + q;
  }

  lemma DivBounds(b: int, q: int)
    requires b >= 0 && q > 0
    ensures 0 <= b / q && (b / q) * q <= b < (b / q) * q + q
  {
  }

  /** Every byte of the file lies inside one of the `count` parts. */
  lemma PartsCoverFile(file: DownloadFile, count: int, b: int)
    requires count > 0 && 0 <= b < file.size
    ensures exists i :: 0 <= i < count && PartInfoOf(file, i, count).offset <= b < PartInfoOf(file, i, count).offset + PartInfoOf(file, i, count).size
  {
    var q := CeilDiv(file.size, count);
    assert file.size <= q * count;
    assert q > 0 by {
      if q <= 0 {
        MulMonotone(q, 0, count);
      }
    }
    var i := b / q;
    DivBounds(b, q);
    assert i < count by {
      if i >= count {
        MulMonotone(count, i, q);
      }
    }
    var p := PartInfoOf(file, i, count);
    assert p.offset == i * q;
    assert p.offset <= b < p.offset + p.size;
  }

  /** Names "<file> (part k)" differ for different parts of one file. */
  lemma PartNamesDistinct(file: DownloadFile, count: int, i: int, j: int)
    requires count > 0 && i != j
    ensures PartInfoOf(file, i, count).name != PartInfoOf(file, j, count).name
  {
    var prefix := file.name + " (part ";
    var x, y := Text.IntToString(i + 1), Text.IntToString(j + 1);
    if prefix + x + ")" == prefix + y + ")" {
      var a, b := prefix + x + ")", prefix + y + ")";
      assert x == a[|prefix|..|a| - 1];
      assert y == b[|prefix|..|b| - 1];
      Text.IntToStringInjective(i + 1, j + 1);
    }
  }

  /** Whether byte `b` lies inside one of the parts `ps`. */
  predicate InSomePart(ps: seq<PartInfo>, b: int) {
    exists i :: 0 <= i < |ps| && ps[i].offset <= b < ps[i].offset + ps[i].size
  }

  /** The facts about single parts, gathered for a whole list of parts. */
  lemma PartListFacts(file: DownloadFile, ps: seq<PartInfo>)
    requires |ps| == PartCount
    requires forall i :: 0 <= i < PartCount ==> ps[i] == PartInfoOf(file, i, PartCount)
    ensures file.size >= 0 ==> forall i, j :: 0 <= i < j < |ps| ==> ps[i].offset + ps[i].size <= ps[j].offset
    ensures forall b :: 0 <= b < file.size ==> InSomePart(ps, b)
    ensures forall i, j :: 0 <= i < |ps| && 0 <= j < |ps| && i != j ==> ps[i].name != ps[j].name
  {
    forall i, j | file.size >= 0 && 0 <= i < j < |ps|
      ensures ps[i].offset + ps[i].size <= ps[j].offset
    {
      PartsDoNotOverlap(file, PartCount, i, j);
    }
    forall b | 0 <= b < file.size
      ensures InSomePart(ps, b)
    {
      PartsCoverFile(file, PartCount, b);
      var i :| 0 <= i < PartCount && PartInfoOf(file, i, PartCount).offset <= b < PartInfoOf(file, i, PartCount).offset + PartInfoOf(file, i, PartCount).size;
      assert ps[i] == PartInfoOf(file, i, PartCount);
    }
    forall i, j | 0 <= i < |ps| && 0 <= j < |ps| && i != j
      ensures ps[i].name != ps[j].name
    {
      PartNamesDistinct(file, PartCount, i, j);
    }
  }

  /**
    The part list the multi-part download computes, parts 0 to PartCount - 1: they do not
    overlap, together they cover every byte of the file, and their names are distinct.
   */
  function Parts(file: DownloadFile): (ps: seq<PartInfo>)
    ensures |ps| == PartCount
    ensures forall i :: 0 <= i < PartCount ==> ps[i] == PartInfoOf(file, i, PartCount)
    ensures file.size >= 0 ==> forall i, j :: 0 <= i < j < |ps| ==> ps[i].offset + ps[i].size <= ps[j].offset
    ensures forall b :: 0 <= b < file.size ==> InSomePart(ps, b)
    ensures forall i, j :: 0 <= i < |ps| && 0 <= j < |ps| && i != j ==> ps[i].name != ps[j].name
  {
    var ps := seq(PartCount, i requires 0 <= i < PartCount => PartInfoOf(file, i, PartCount));
    PartListFacts(file, ps);
    ps
  }

  /**
    Exhibit: a five-byte file split in four gets parts of 2, 2, 1 and -1 bytes. The last
    part starts past the end of the file and its size is negative.
   */
  lemma FiveByteFileLastPartNegative(name: string)
    ensures PartInfoOf(DownloadFile(name, 5), 0, PartCount).size == 2
    ensures PartInfoOf(DownloadFile(name, 5), 1, PartCount).size == 2
    ensures PartInfoOf(DownloadFile(name, 5), 2, PartCount).size == 1
    ensures PartInfoOf(DownloadFile(name, 5), 3, PartCount).offset == 6
    ensures PartInfoOf(DownloadFile(name, 5), 3, PartCount).size == -1
  {
    assert CeilDiv(5, 4) == 2;
  }

  /** `partInfo` with each size clamped at zero, so that no part runs past the end of the file. */
  function ClampedPartInfo(file: DownloadFile, index: int, count: int): (p: PartInfo)
    requires count > 0
    ensures 0 <= p.size <= Max(0, CeilDiv(file.size, count))
  {
    var p := PartInfoOf(file, index, count);
    p.(size := Max(0, p.size))
  }

  /** The total size of the first `k` clamped parts. */
  function ClampedSizeSum(file: DownloadFile, count: int, k: nat): int
    requires count > 0
  {
    if k == 0 then 0 else ClampedSizeSum(file, count, k - 1) + ClampedPartInfo(file, k - 1, count).size
  }

  lemma {:induction false} ClampedSizePrefix(file: DownloadFile, count: int, k: nat)
    requires count > 0 && file.size >= 0
    ensures ClampedSizeSum(file, count, k) == Min(file.size, k * CeilDiv(file.size, count))
  {
    if k > 0 {
      ClampedSizePrefix(file, count, k - 1);
      var q := CeilDiv(file.size, count);
      assert k * q == (k - 1) * q + q;
    }
  }

  /** The clamped parts of a file add up to exactly the file's size. */
  lemma ClampedPartsSumToFileSize(file: DownloadFile, count: nat)
    requires count > 0 && file.size >= 0
    ensures ClampedSizeSum(file, count, count) == file.size
  {
    ClampedSizePrefix(file, count, count);
    var q := CeilDiv(file.size, count);
    assert count * q >= file.size;
  }

  // ---------------------------------------------------------------------------
  // The chunked download loop
  // ---------------------------------------------------------------------------

  /** The byte stream of a streamed response: its bytes, and whether reading past them throws. */
  datatype ByteStream = ByteStream(bytes: seq<Byte>, failsAtEnd: bool)

  /**
    What the loop asks of the byte accumulator, as functions of the number of bytes
    received so far (and, for the batch test, of the bytes received in this batch).
   */
  datatype Accumulator = Accumulator(
    checkCompleted: nat -> bool,
    isBatchCompleted: (nat, nat) -> bool,
    progress: nat -> real)

  /** Where one batch of the inner loop stops, and whether reading the stream threw. */
  datatype BatchEnd = BatchEnd(end: nat, threw: bool)

  /** Whether the accumulator calls the batch begun at `start` complete once `p` bytes are in. */
  predicate BatchFull(acc: Accumulator, start: nat, p: nat)
    requires start <= p
  {
    acc.isBatchCompleted(p, p - start)
  }

  /**
    The inner loop: append bytes from `pos` until the batch is full or the stream ends. It
    stops at the first count where the batch is full, or at the end of the stream.
   */
  function Batch(stream: ByteStream, start: nat, pos: nat, acc: Accumulator): (b: BatchEnd)
    requires start <= pos <= |stream.bytes|
    ensures pos <= b.end <= |stream.bytes|
    ensures b.end == |stream.bytes| || BatchFull(acc, start, b.end)
    ensures forall p :: pos <= p < b.end ==> !BatchFull(acc, start, p)
    ensures b.threw <==> b.end == |stream.bytes| && stream.failsAtEnd && !BatchFull(acc, start, b.end)
    decreases |stream.bytes| - pos
  {
    if BatchFull(acc, start, pos) then BatchEnd(pos, false)
    else if pos == |stream.bytes| then BatchEnd(pos, stream.failsAtEnd)
    else Batch(stream, start, pos + 1, acc)
  }

  datatype LoopExit = StopObserved | AccumulatorCompleted | StreamThrew | ChecksExhausted

  /** How the outer loop ended, how many bytes it received, and the progress reports it made. */
  datatype LoopEnd = LoopEnd(exit: LoopExit, received: nat, reports: seq<nat>)

  predicate Ascending(s: seq<nat>) {
    forall j, k :: 0 <= j <= k < |s| ==> s[j] <= s[k]
  }

  /** The byte count at which round `r` starts: `start` for round 0, else what round r - 1 reported. */
  function RoundStart(start: nat, reports: seq<nat>, r: nat): nat
    requires r <= |reports|
  {
    if r == 0 then start else reports[r - 1]
  }

  /**
    The outer loop, from round |reports| with `pos` bytes received. `stopChecks[r]` is the
    value of the stop flag that round `r`'s loop test reads; once it reads true, or the
    accumulator reports completion, no further batch is started. Each finished batch
    publishes the byte count reached.
   */
  function OuterLoop(stream: ByteStream, stopChecks: seq<bool>, acc: Accumulator, pos: nat, reports: seq<nat>): (e: LoopEnd)
    requires pos <= |stream.bytes| && |reports| <= |stopChecks|
    requires Ascending(reports) && forall j :: 0 <= j < |reports| ==> reports[j] <= pos
    ensures pos <= e.received <= |stream.bytes|
    ensures |reports| <= |e.reports| <= |stopChecks| && e.reports[..|reports|] == reports
    ensures Ascending(e.reports) && forall j :: 0 <= j < |e.reports| ==> e.reports[j] <= e.received
    ensures forall r :: |reports| <= r < |e.reports| ==> !stopChecks[r]
    ensures e.exit == StopObserved ==> |e.reports| < |stopChecks| && stopChecks[|e.reports|]
    ensures e.exit == AccumulatorCompleted ==>
      |e.reports| < |stopChecks| && !stopChecks[|e.reports|] && acc.checkCompleted(e.received)
    ensures e.exit == StreamThrew ==>
      |e.reports| < |stopChecks| && !stopChecks[|e.reports|] && stream.failsAtEnd && e.received == |stream.bytes|
    ensures e.exit == ChecksExhausted ==> |e.reports| == |stopChecks|
    decreases |stopChecks| - |reports|
  {
    var round := |reports|;
    if round == |stopChecks| then LoopEnd(ChecksExhausted, pos, reports)
    else if stopChecks[round] then LoopEnd(StopObserved, pos, reports)
    else if acc.checkCompleted(pos) then LoopEnd(AccumulatorCompleted, pos, reports)
    else
      var b := Batch(stream, pos, pos, acc);
      if b.threw then LoopEnd(StreamThrew, b.end, reports)
      else OuterLoop(stream, stopChecks, acc, b.end, reports + [b.end])
  }

  /** Once the stop flag has been read as set, the loop starts no further batch. */
  lemma NoBatchAfterStop(stream: ByteStream, stopChecks: seq<bool>, acc: Accumulator, r: nat)
    requires r < |stopChecks| && stopChecks[r]
    ensures |OuterLoop(stream, stopChecks, acc, 0, []).reports| <= r
  {
  }

  /** Reporting a byte count no smaller than every earlier one keeps the reports ascending. */
  lemma AscendingExtend(reports: seq<nat>, pos: nat, end: nat)
    requires Ascending(reports) && forall j :: 0 <= j < |reports| ==> reports[j] <= pos
    requires pos <= end
    ensures Ascending(reports + [end]) && forall j :: 0 <= j < |reports + [end]| ==> (reports + [end])[j] <= end
  {
  }

  /** A sequence that starts with `reports + [x]` agrees with `reports` on its last element. */
  lemma LastOfPrefix(s: seq<nat>, reports: seq<nat>, x: nat)
    requires |reports| < |s| && s[..|reports| + 1] == reports + [x]
    ensures reports != [] ==> s[|reports| - 1] == reports[|reports| - 1]
  {
    if reports != [] {
      assert s[|reports| - 1] == s[..|reports| + 1][|reports| - 1];
    }
  }

  /** Every round from `from` on began at a byte count where the accumulator was not complete. */
  ghost predicate NoneStartCompleted(acc: Accumulator, start: nat, reports: seq<nat>, from: nat) {
    forall r :: from <= r < |reports| ==> !acc.checkCompleted(RoundStart(start, reports, r))
  }

  /** Round `round` began at `pos`, where the accumulator was not complete, so it joins the later rounds. */
  lemma NoneStartCompletedStep(acc: Accumulator, pos: nat, next: nat, reports: seq<nat>, round: nat)
    requires round < |reports| && (round > 0 ==> reports[round - 1] == pos)
    requires !acc.checkCompleted(pos)
    requires NoneStartCompleted(acc, next, reports, round + 1)
    ensures NoneStartCompleted(acc, pos, reports, round)
  {
    forall r | round <= r < |reports|
      ensures !acc.checkCompleted(RoundStart(pos, reports, r))
    {
      if r > round {
        assert RoundStart(pos, reports, r) == RoundStart(next, reports, r);
      }
    }
  }

  /**
    No round that starts a batch starts with the accumulator complete: each round from
    |reports| on began at a byte count where `checkCompleted` was false.
   */
  lemma {:induction false} NoBatchStartsCompleted(stream: ByteStream, stopChecks: seq<bool>, acc: Accumulator, pos: nat, reports: seq<nat>)
    requires pos <= |stream.bytes| && |reports| <= |stopChecks|
    requires Ascending(reports) && forall j :: 0 <= j < |reports| ==> reports[j] <= pos
    requires reports != [] ==> pos == reports[|reports| - 1]
    ensures NoneStartCompleted(acc, pos, OuterLoop(stream, stopChecks, acc, pos, reports).reports, |reports|)
    decreases |stopChecks| - |reports|
  {
    var round := |reports|;
    if round < |stopChecks| && !stopChecks[round] && !acc.checkCompleted(pos) {
      var b := Batch(stream, pos, pos, acc);
      if !b.threw {
        AscendingExtend(reports, pos, b.end);
        var e := OuterLoop(stream, stopChecks, acc, b.end, reports + [b.end]);
        assert e == OuterLoop(stream, stopChecks, acc, pos, reports);
        NoBatchStartsCompleted(stream, stopChecks, acc, b.end, reports + [b.end]);
        LastOfPrefix(e.reports, reports, b.end);
        NoneStartCompletedStep(acc, pos, b.end, e.reports, round);
      }
    }
  }

  /** Once a round starts with the accumulator complete, that round runs no batch: it is the last. */
  lemma NoBatchAfterCompletion(stream: ByteStream, stopChecks: seq<bool>, acc: Accumulator, r: nat)
    requires r <= |OuterLoop(stream, stopChecks, acc, 0, []).reports|
    requires acc.checkCompleted(RoundStart(0, OuterLoop(stream, stopChecks, acc, 0, []).reports, r))
    ensures |OuterLoop(stream, stopChecks, acc, 0, []).reports| == r
  {
    NoBatchStartsCompleted(stream, stopChecks, acc, 0, []);
  }

  /**
    The rule after the loop: a set stop flag without partial-download support is a
    cancellation; otherwise the bytes received are the result.
   */
  function AfterLoop(stopDownloads: bool, supportsPartialDownloads: bool, data: seq<Byte>): (r: Result<seq<Byte>, DownloadError>)
    ensures r.Err? <==> stopDownloads && !supportsPartialDownloads
    ensures r.Err? ==> r.error == CancellationError
    ensures r.Ok? ==> r.value == data
  {
    if stopDownloads && !supportsPartialDownloads then Err(CancellationError) else Ok(data)
  }

  /** A ranged request (one with an offset) wants 206 Partial Content; a full request wants 200. */
  predicate ResponseAccepted(offset: Option<int>, status: int) {
    if offset.Some? then status == 206 else status == 200
  }

  /** The result of a streamed download, or StillRunning when the loop had not ended. */
  datatype DownloadOutcome = Finished(result: Result<seq<Byte>, DownloadError>) | StillRunning

  /** A progress measure that never falls as more bytes arrive. */
  ghost predicate MonotoneProgress(acc: Accumulator) {
    forall x: nat, y: nat :: x <= y ==> acc.progress(x) <= acc.progress(y)
  }

  /**
    The progress values the loop publishes, one per byte count reported. With a monotone
    progress measure they never fall, so the list shows the download moving forward only.
   */
  function Progresses(acc: Accumulator, reports: seq<nat>): (ps: seq<real>)
    ensures |ps| == |reports| && forall j :: 0 <= j < |reports| ==> ps[j] == acc.progress(reports[j])
    ensures MonotoneProgress(acc) && Ascending(reports) ==> forall j, k :: 0 <= j <= k < |ps| ==> ps[j] <= ps[k]
  {
    seq(|reports|, j requires 0 <= j < |reports| => acc.progress(reports[j]))
  }

  /** What the streamed download yields once the loop has ended the way `e` says. */
  function StreamedOutcome(e: LoopEnd, stream: ByteStream, stopAtEnd: bool, supportsPartialDownloads: bool): (r: DownloadOutcome)
    requires e.received <= |stream.bytes|
    ensures r == StillRunning <==> e.exit == ChecksExhausted
    ensures e.exit == StreamThrew ==> r == Finished(Err(TransportError))
    ensures e.exit in {StopObserved, AccumulatorCompleted} ==>
      r == Finished(AfterLoop(stopAtEnd, supportsPartialDownloads, stream.bytes[..e.received]))
  {
    match e.exit
    case ChecksExhausted => StillRunning
    case StreamThrew => Finished(Err(TransportError))
    case _ => Finished(AfterLoop(stopAtEnd, supportsPartialDownloads, stream.bytes[..e.received]))
  }

  /**
    The inner loop of `downloadWithProgress`: bytes are appended to the accumulator one by
    one from where `prefix` ends until the batch is full or the stream ends.
   */
  method ReadBatch(stream: ByteStream, acc: Accumulator, prefix: seq<Byte>) returns (data: seq<Byte>, threw: bool)
    requires |prefix| <= |stream.bytes| && prefix == stream.bytes[..|prefix|]
    ensures |data| <= |stream.bytes| && data == stream.bytes[..|data|]
    ensures Batch(stream, |prefix|, |prefix|, acc) == BatchEnd(|data|, threw)
  {
    data := prefix;
    var start := |prefix|;
    while !acc.isBatchCompleted(|data|, |data| - start)
      invariant start <= |data| <= |stream.bytes| && data == stream.bytes[..|data|]
      invariant Batch(stream, start, |data|, acc) == Batch(stream, start, start, acc)
      decreases |stream.bytes| - |data|
    {
      if |data| == |stream.bytes| {
        return data, stream.failsAtEnd;
      }
      data := data + [stream.bytes[|data|]];
    }
    threw := false;
  }

  /**
    The outer loop of `downloadWithProgress`: while the stop flag reads clear and the
    accumulator is not complete, read a batch and report the byte count reached.
   */
  method ByteLoop(stream: ByteStream, stopChecks: seq<bool>, acc: Accumulator)
    returns (data: seq<Byte>, reports: seq<nat>, exit: LoopExit)
    ensures |data| <= |stream.bytes| && data == stream.bytes[..|data|]
    ensures LoopEnd(exit, |data|, reports) == OuterLoop(stream, stopChecks, acc, 0, [])
  {
    data, reports := [], [];
    while |reports| < |stopChecks| && !stopChecks[|reports|] && !acc.checkCompleted(|data|)
      invariant |data| <= |stream.bytes| && data == stream.bytes[..|data|]
      invariant |reports| <= |stopChecks|
      invariant Ascending(reports) && forall j :: 0 <= j < |reports| ==> reports[j] <= |data|
      invariant OuterLoop(stream, stopChecks, acc, |data|, reports) == OuterLoop(stream, stopChecks, acc, 0, [])
      decreases |stopChecks| - |reports|
    {
      var threw;
      data, threw := ReadBatch(stream, acc, data);
      if threw {
        exit := StreamThrew;
        return;
      }
      reports := reports + [|data|];
    }
    if |reports| == |stopChecks| {
      exit := ChecksExhausted;
    } else if stopChecks[|reports|] {
      exit := StopObserved;
    } else {
      exit := AccumulatorCompleted;
    }
  }

  /** The download model that the UI observes. */
  class SuperStorageModel {
    /** The list of running downloads. */
    var downloads: seq<DownloadInfo>
    /** The flag that stops ongoing downloads. */
    var stopDownloads: bool

    constructor ()
      ensures downloads == [] && !stopDownloads
    {
      downloads := [];
      stopDownloads := false;
    }

    /** Appends a record for `name` at progress 0.0; `id` is the fresh identifier the caller draws. */
    method AddDownload(name: string, id: nat)
      modifies this
      ensures downloads == old(downloads) + [DownloadInfo(id, name, 0.0)]
      ensures stopDownloads == old(stopDownloads)
    {
      var downloadInfo := DownloadInfo(id, name, 0.0);
      downloads := downloads + [downloadInfo];
    }

    /** Sets the progress of the first record called `name`, if there is one. */
    method UpdateDownload(name: string, progress: real)
      modifies this
      ensures downloads == UpdateFirst(old(downloads), name, progress)
      ensures stopDownloads == old(stopDownloads)
    {
      var index := FirstNamed(downloads, name);
      if index.Some? {
        var info := downloads[index.value];
        info := info.(progress := progress);
        downloads := downloads[index.value := info];
      }
    }

    method Reset()
      modifies this
      ensures downloads == [] && !stopDownloads
    {
      stopDownloads := false;
      downloads := [];
    }

    /**
      `download(file:)`: adds a record, fetches the whole file (None: the fetch threw), marks
      the record done, and only then checks the status.
     */
    method Download(file: DownloadFile, id: nat, response: Option<Response>) returns (r: Result<seq<Byte>, DownloadError>)
      modifies this
      ensures stopDownloads == old(stopDownloads)
      ensures response.None? ==> r == Err(TransportError) && downloads == old(downloads) + [DownloadInfo(id, file.name, 0.0)]
      ensures response.Some? ==>
        downloads == UpdateFirst(old(downloads) + [DownloadInfo(id, file.name, 0.0)], file.name, 1.0)
      ensures response.Some? ==> r == if response.value.status == 200 then Ok(response.value.data) else Err(ServerError)
    {
      AddDownload(file.name, id);
      if response.None? {
        return Err(TransportError);
      }
      UpdateDownload(file.name, 1.0);
      if response.value.status != 200 {
        return Err(ServerError);
      }
      return Ok(response.value.data);
    }

    /** Applies progress updates for `name` one after another, in the order given. */
    method ApplyProgress(name: string, progresses: seq<real>)
      modifies this
      ensures downloads == ApplyUpdates(old(downloads), name, progresses)
      ensures stopDownloads == old(stopDownloads)
    {
      var i := 0;
      while i < |progresses|
        invariant i <= |progresses|
        invariant ApplyUpdates(old(downloads), name, progresses) == ApplyUpdates(downloads, name, progresses[i..])
        invariant stopDownloads == old(stopDownloads)
      {
        UpdateDownload(name, progresses[i]);
        assert progresses[i..][1..] == progresses[i + 1..];
        i := i + 1;
      }
    }

    /**
      `downloadWithProgress(fileName:name:size:offset:)`. `status` is None when the request
      threw. The progress updates the loop publishes are applied in the order issued.
     */
    method DownloadWithProgress(name: string, id: nat, offset: Option<int>, status: Option<int>,
                                stream: ByteStream, acc: Accumulator, stopChecks: seq<bool>,
                                stopAtEnd: bool, supportsPartialDownloads: bool)
      returns (r: DownloadOutcome)
      modifies this
      ensures stopDownloads == old(stopDownloads)
      ensures (status.None? || !ResponseAccepted(offset, status.value)) ==>
        downloads == old(downloads) + [DownloadInfo(id, name, 0.0)]
      ensures status.None? ==> r == Finished(Err(TransportError))
      ensures status.Some? && !ResponseAccepted(offset, status.value) ==> r == Finished(Err(ServerError))
      ensures status.Some? && ResponseAccepted(offset, status.value) ==>
        var e := OuterLoop(stream, stopChecks, acc, 0, []);
        && downloads == ApplyUpdates(old(downloads) + [DownloadInfo(id, name, 0.0)], name, Progresses(acc, e.reports))
        && r == StreamedOutcome(e, stream, stopAtEnd, supportsPartialDownloads)
    {
      AddDownload(name, id);
      if status.None? {
        return Finished(Err(TransportError));
      }
      if !ResponseAccepted(offset, status.value) {
        return Finished(Err(ServerError));
      }
      var data, reports, exit := ByteLoop(stream, stopChecks, acc);
      ApplyProgress(name, Progresses(acc, reports));
      if exit == ChecksExhausted {
        return StillRunning;
      } else if exit == StreamThrew {
        return Finished(Err(TransportError));
      }
      return Finished(AfterLoop(stopAtEnd, supportsPartialDownloads, data));
    }
  }
}
