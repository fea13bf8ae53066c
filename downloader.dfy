/**
 * `Downloader::post_start`: one resumable transfer of one URL.
 *
 * The network, the file system, the clock and the ULID generator are inputs:
 * the size of the working file on disk (if it exists), the HTTP status, the
 * content length, the body as a sequence of chunks (each with the
 * milliseconds elapsed since the last report when it was written), and a
 * fresh identifier for a new working file.
 */
module Downloader {
  import opened Wrappers
  import opened Store
  import opened AvgRange
  import UrlFilename

  const NotFoundStatus: nat := 404
  const PartialContentStatus: nat := 206

  /** A report is written once strictly more than this many milliseconds have passed since the last one. */
  const ReportIntervalMs: nat := 1000

  /**
   * One item of the response body: `len` bytes written to the file, after
   * which `elapsedMs` had passed since the last report; or a read or write
   * that failed (the `?` on the chunk and on `write_all`).
   */
  datatype Chunk = Data(len: nat, elapsedMs: nat) | StreamError

  /** The `truncate` and `append` options the working file is opened with. */
  datatype OpenMode = OpenMode(truncate: bool, append: bool)

  /** How the worker ends: `DownloadError::NotFound`, another error in the stream, or renamed to its final name. */
  datatype Outcome = NotFound | Interrupted | Completed(finalName: string)

  /** What one run of the worker did. */
  datatype Transfer = Transfer(
    filename: string,       // the working file
    rangeStart: Option<nat>, // `Some(n)`: the request carried `Range: bytes=n-`
    mode: Option<OpenMode>,  // `None`: the file was never opened
    fileLength: nat,         // length of the working file at the end
    progress: nat,           // the `progress` counter at the end
    puts: seq<Progress>,     // records written to the store under the URL, in order
    outcome: Outcome
  )

  /** The fixed parts of every snapshot of one transfer. */
  datatype Job = Job(url: string, filename: string, total: Option<nat>)

  /** The streaming loop's variables, and whether it stopped on an error. */
  datatype StreamState = StreamState(
    progress: nat,
    sinceLastReport: nat,
    samples: seq<Sample>,  // what was added to the speed estimator
    puts: seq<Progress>,
    broken: bool
  )

  /**
   * The working file: the `target_file` of the stored record for `url` if
   * there is one, otherwise `.{freshId}.tmp`.
   */
  function WorkingFile(store: ProgressStore, url: string, freshId: string): (f: string)
    ensures url in store && store[url].targetFile.Some? ==> f == store[url].targetFile.value
    ensures !(url in store && store[url].targetFile.Some?) ==> f == "." + freshId + ".tmp"
  {
    if url in store && store[url].targetFile.Some? then store[url].targetFile.value
    else "." + freshId + ".tmp"
  }

  /**
   * The snapshot written at a report: this transfer's record, not failed,
   * with the progress and the sums of the estimator's window, which hold at
   * most all the samples so far and exactly those while fewer than 61 were added.
   */
  function Snapshot(job: Job, progress: nat, samples: seq<Sample>): (p: Progress)
    ensures p.targetFile == Some(job.filename) && !p.failed && p.url == job.url
    ensures p.progress == progress && p.total == job.total
    ensures p.speed.Estimate? && p.speed.windowBytes <= SumBytes(samples) && p.speed.windowMillis <= SumTime(samples)
    ensures |samples| <= WindowSize ==> p.speed == Estimate(SumBytes(samples), SumTime(samples))
  {
    var window := LastWindow(samples);
    var older := samples[..|samples| - |window|];
    assert older + window == samples;
    SumsOfConcat(older, window);
    Progress(Some(job.filename), false, job.url, progress, job.total,
             Estimate(SumBytes(window), SumTime(window)))
  }

  /** One iteration of the `while let Some(chunk)` loop; nothing happens once it has stopped. */
  function Step(job: Job, st: StreamState, c: Chunk): (r: StreamState)
    ensures st.broken ==> r == st
    ensures r.broken <==> st.broken || c.StreamError?
    ensures !st.broken && c.Data? ==> r.progress == st.progress + c.len
    ensures |st.puts| <= |r.puts| <= |st.puts| + 1 && r.puts[..|st.puts|] == st.puts
    ensures |r.samples| - |st.samples| == |r.puts| - |st.puts|
    ensures |r.puts| > |st.puts| ==>
      r.sinceLastReport == 0 && r.puts[|st.puts|] == Snapshot(job, r.progress, r.samples)
  {
    if st.broken then st
    else
      match c
      case StreamError => st.(broken := true)
      case Data(len, elapsedMs) =>
        var progress := st.progress + len;
        var since := st.sinceLastReport + len;
        if elapsedMs > ReportIntervalMs then
          var samples := st.samples + [Sample(since, elapsedMs)];
          StreamState(progress, 0, samples, st.puts + [Snapshot(job, progress, samples)], false)
        else
          StreamState(progress, since, st.samples, st.puts, false)
  }

  /** The loop's state after the chunks `cs`, starting from `progress = offset`. */
  function Streamed(job: Job, offset: nat, cs: seq<Chunk>): (r: StreamState)
    ensures r.progress >= offset
    ensures |r.puts| == |r.samples| <= |cs|
  {
    if cs == [] then StreamState(offset, 0, [], [], false)
    else Step(job, Streamed(job, offset, cs[..|cs| - 1]), cs[|cs| - 1])
  }

  /** The index of the first failed chunk, or `|cs|` if none failed. */
  function FirstError(cs: seq<Chunk>): (i: nat)
    ensures i <= |cs|
    ensures i < |cs| ==> cs[i].StreamError?
    ensures forall k :: 0 <= k < i ==> cs[k].Data?
  {
    if cs == [] then 0
    else if cs[0].StreamError? then 0
    else 1 + FirstError(cs[1..])
  }

  /** The chunks written before the stream failed. */
  function Delivered(cs: seq<Chunk>): seq<Chunk>
  {
    cs[..FirstError(cs)]
  }

  /** Total bytes of the data chunks in `cs`. */
  function TotalLen(cs: seq<Chunk>): nat
  {
    if cs == [] then 0
    else TotalLen(cs[..|cs| - 1]) + (if cs[|cs| - 1].Data? then cs[|cs| - 1].len else 0)
  }

  /** Number of data chunks in `cs` after which more than the report interval had passed. */
  function Reports(cs: seq<Chunk>): nat
  {
    if cs == [] then 0
    else
      var c := cs[|cs| - 1];
      Reports(cs[..|cs| - 1]) + (if c.Data? && c.elapsedMs > ReportIntervalMs then 1 else 0)
  }

  /** The progress of the last snapshot written, or the starting offset before the first one. */
  function LastReported(offset: nat, puts: seq<Progress>): nat
  {
    if puts == [] then offset else puts[|puts| - 1].progress
  }

  /** Every snapshot belongs to this transfer and is not marked failed. */
  ghost predicate SnapshotsOf(job: Job, puts: seq<Progress>)
  {
    forall k :: 0 <= k < |puts| ==>
      puts[k].targetFile == Some(job.filename) && !puts[k].failed &&
      puts[k].url == job.url && puts[k].total == job.total
  }

  /** The progress recorded by successive snapshots never goes down. */
  ghost predicate Ascending(puts: seq<Progress>)
  {
    forall j, k :: 0 <= j < k < |puts| ==> puts[j].progress <= puts[k].progress
  }

  /** `FirstError` is the one index before which every chunk is data and at which (if any) a chunk failed. */
  lemma FirstErrorIs(cs: seq<Chunk>, i: nat)
    requires i <= |cs|
    requires i < |cs| ==> cs[i].StreamError?
    requires forall k :: 0 <= k < i ==> cs[k].Data?
    ensures FirstError(cs) == i
  {
  }

  lemma FirstErrorSnoc(cs: seq<Chunk>, c: Chunk)
    ensures FirstError(cs) < |cs| ==> FirstError(cs + [c]) == FirstError(cs)
    ensures FirstError(cs) == |cs| && c.StreamError? ==> FirstError(cs + [c]) == |cs|
    ensures FirstError(cs) == |cs| && c.Data? ==> FirstError(cs + [c]) == |cs| + 1
  {
    var cs' := cs + [c];
    var e := FirstError(cs);
    assert forall k :: 0 <= k < |cs| ==> cs'[k] == cs[k];
    if e < |cs| || c.StreamError? {
      FirstErrorIs(cs', e);
    } else {
      FirstErrorIs(cs', e + 1);
    }
  }

  /** A data chunk, spelled out: a report with a new sample and snapshot, or only the counters. */
  lemma StepData(job: Job, st: StreamState, len: nat, elapsedMs: nat)
    requires !st.broken
    ensures elapsedMs > ReportIntervalMs ==>
      var samples := st.samples + [Sample(st.sinceLastReport + len, elapsedMs)];
      Step(job, st, Data(len, elapsedMs))
        == StreamState(st.progress + len, 0, samples, st.puts + [Snapshot(job, st.progress + len, samples)], false)
    ensures elapsedMs <= ReportIntervalMs ==>
      Step(job, st, Data(len, elapsedMs))
        == StreamState(st.progress + len, st.sinceLastReport + len, st.samples, st.puts, false)
  {
  }

  /**
   * What the streaming loop keeps true of its state `st` after the chunks
   * `cs`: it has stopped exactly if a chunk failed; `progress` is the offset
   * plus every byte written; there is one speed sample and one snapshot per
   * chunk after which more than 1000 ms had passed; every snapshot is this
   * transfer's and not failed, with ascending progress; the accumulator holds
   * the bytes written since the last snapshot; and the samples account for
   * every byte up to that snapshot.
   */
  ghost predicate StreamFacts(job: Job, offset: nat, cs: seq<Chunk>, st: StreamState)
  {
    && st.broken == (FirstError(cs) < |cs|)
    && st.progress == offset + TotalLen(Delivered(cs))
    && |st.puts| == |st.samples| == Reports(Delivered(cs))
    && SnapshotsOf(job, st.puts)
    && Ascending(st.puts)
    && st.sinceLastReport + LastReported(offset, st.puts) == st.progress
    && offset + SumBytes(st.samples) == LastReported(offset, st.puts)
  }

  /** The totals over delivered chunks grow by the new chunk when no chunk has failed yet. */
  lemma DeliveredSnoc(cs: seq<Chunk>, c: Chunk)
    requires FirstError(cs) == |cs| && c.Data?
    ensures Delivered(cs + [c]) == cs + [c] && Delivered(cs) == cs
    ensures TotalLen(cs + [c]) == TotalLen(cs) + c.len
    ensures Reports(cs + [c]) == Reports(cs) + (if c.elapsedMs > ReportIntervalMs then 1 else 0)
  {
    FirstErrorSnoc(cs, c);
    assert (cs + [c])[..|cs|] == cs;
  }

  /** A report keeps the facts: the new snapshot has the new progress, which is the largest so far. */
  lemma ReportKeepsFacts(job: Job, offset: nat, cs: seq<Chunk>, st: StreamState, len: nat, elapsedMs: nat)
    requires StreamFacts(job, offset, cs, st) && !st.broken && elapsedMs > ReportIntervalMs
    ensures StreamFacts(job, offset, cs + [Data(len, elapsedMs)], Step(job, st, Data(len, elapsedMs)))
  {
    var c := Data(len, elapsedMs);
    DeliveredSnoc(cs, c);
    StepData(job, st, len, elapsedMs);
    var samples := st.samples + [Sample(st.sinceLastReport + len, elapsedMs)];
    assert samples[..|samples| - 1] == st.samples;
  }

  /** A chunk without a report keeps the facts: only the counters grow. */
  lemma QuietKeepsFacts(job: Job, offset: nat, cs: seq<Chunk>, st: StreamState, len: nat, elapsedMs: nat)
    requires StreamFacts(job, offset, cs, st) && !st.broken && elapsedMs <= ReportIntervalMs
    ensures StreamFacts(job, offset, cs + [Data(len, elapsedMs)], Step(job, st, Data(len, elapsedMs)))
  {
    DeliveredSnoc(cs, Data(len, elapsedMs));
    StepData(job, st, len, elapsedMs);
  }

  /** A failed chunk, or any chunk after one, keeps the facts: nothing more is delivered. */
  lemma StopKeepsFacts(job: Job, offset: nat, cs: seq<Chunk>, st: StreamState, c: Chunk)
    requires StreamFacts(job, offset, cs, st) && (st.broken || c.StreamError?)
    ensures StreamFacts(job, offset, cs + [c], Step(job, st, c))
  {
    FirstErrorSnoc(cs, c);
    assert (cs + [c])[..FirstError(cs)] == cs[..FirstError(cs)];
  }

  /** The loop's state after any chunks satisfies `StreamFacts`. */
  lemma {:induction false} StreamedSpec(job: Job, offset: nat, cs: seq<Chunk>)
    ensures StreamFacts(job, offset, cs, Streamed(job, offset, cs))
  {
    if cs == [] {
      assert Delivered(cs) == [];
    } else {
      var pre, c := cs[..|cs| - 1], cs[|cs| - 1];
      assert cs == pre + [c];
      StreamedSpec(job, offset, pre);
      var st := Streamed(job, offset, pre);
      if st.broken || c.StreamError? {
        StopKeepsFacts(job, offset, pre, st, c);
      } else if c.elapsedMs > ReportIntervalMs {
        ReportKeepsFacts(job, offset, pre, st, c.len, c.elapsedMs);
      } else {
        QuietKeepsFacts(job, offset, pre, st, c.len, c.elapsedMs);
      }
    }
  }

  /** Once the loop has stopped on an error, later chunks change nothing. */
  lemma {:induction false} StreamedStopsAtError(job: Job, offset: nat, cs: seq<Chunk>, i: nat)
    requires i <= |cs|
    requires Streamed(job, offset, cs[..i]).broken
    ensures Streamed(job, offset, cs) == Streamed(job, offset, cs[..i])
    decreases |cs|
  {
    if i < |cs| {
      var pre := cs[..|cs| - 1];
      assert pre[..i] == cs[..i];
      StreamedStopsAtError(job, offset, pre, i);
    } else {
      assert cs[..i] == cs;
    }
  }

  /** A run that stopped before its first report wrote no snapshot. */
  lemma NoReportNoSnapshot(job: Job, offset: nat, cs: seq<Chunk>)
    requires Reports(Delivered(cs)) == 0
    ensures Streamed(job, offset, cs).puts == []
  {
    StreamedSpec(job, offset, cs);
  }

  /** Any snapshot of a transfer, once stored, makes the next attempt reuse its working file. */
  lemma SnapshotKeepsWorkingFile(job: Job, puts: seq<Progress>, store: ProgressStore, k: nat, freshId: string)
    requires SnapshotsOf(job, puts) && k < |puts|
    ensures WorkingFile(store[job.url := puts[k]], job.url, freshId) == job.filename
  {
  }

  /**
   * As written, the record stored with a new request has no working file,
   * and nothing names one until the first snapshot. Two attempts that both
   * find only that record pick two different working files, so an attempt
   * that fails before its first report leaves its file behind and the next
   * one starts over from offset 0.
   */
  lemma FreshRecordForgetsWorkingFile(url: string, freshId1: string, freshId2: string)
    requires freshId1 != freshId2
    ensures WorkingFile(map[url := DefaultWith(url)], url, freshId1)
         != WorkingFile(map[url := DefaultWith(url)], url, freshId2)
  {
    var f1 := WorkingFile(map[url := DefaultWith(url)], url, freshId1);
    var f2 := WorkingFile(map[url := DefaultWith(url)], url, freshId2);
    assert f1[1..|f1| - 4] == freshId1;
    assert f2[1..|f2| - 4] == freshId2;
  }

  /**
   * The store with the working file recorded under `url` before streaming
   * starts: the URL's record (or a fresh one) with `target_file` set, every
   * other record unchanged.
   */
  function RecordWorkingFile(store: ProgressStore, url: string, filename: string): (s: ProgressStore)
    ensures url in s && s[url].targetFile == Some(filename)
    ensures url in store ==> s[url] == store[url].(targetFile := Some(filename))
    ensures url !in store ==> s[url] == DefaultWith(url).(targetFile := Some(filename))
    ensures forall u :: u != url ==> (u in s <==> u in store)
    ensures forall u :: u != url && u in store ==> s[u] == store[u]
  {
    var p := if url in store then store[url] else DefaultWith(url);
    store[url := p.(targetFile := Some(filename))]
  }

  /**
   * With the working file recorded before streaming, every later attempt
   * opens the same file, whatever fresh id it draws, and so resumes from
   * what the earlier attempt wrote.
   */
  lemma RecordedWorkingFileIsReused(store: ProgressStore, url: string, freshId1: string, freshId2: string)
    ensures var first := WorkingFile(store, url, freshId1);
      WorkingFile(RecordWorkingFile(store, url, first), url, freshId2) == first
  {
  }

  /**
   * As written, a resumed transfer reports `total` as the reply's content
   * length, which on a 206 counts only the bytes still to come, while
   * `progress` starts at the bytes already on disk: the first snapshot
   * already claims more progress than the total.
   */
  lemma ResumeSnapshotExceedsTotal(url: string, file: string, offset: nat, len: nat)
    requires offset > 0
    ensures var st := Streamed(Job(url, file, Some(len)), offset, [Data(len, 2000)]);
      |st.puts| == 1 && st.puts[0].total == Some(len) && st.puts[0].progress == offset + len > len
  {
    var job := Job(url, file, Some(len));
    var cs := [Data(len, 2000)];
    assert cs[..|cs| - 1] == [];
    var st0 := Streamed(job, offset, []);
    assert st0 == StreamState(offset, 0, [], [], false);
    StepData(job, st0, len, 2000);
  }

  /** Where `progress` should start: the bytes kept on disk, which is none unless the reply resumes them. */
  function ResumedOffset(status: nat, fileSize: nat): (offset: nat)
    ensures offset <= fileSize
    ensures offset > 0 ==> status == PartialContentStatus
  {
    if status == PartialContentStatus then fileSize else 0
  }

  /** The size of the whole file: the bytes kept on disk plus the bytes the reply announces. */
  function ResumedTotal(status: nat, fileSize: nat, contentLength: Option<nat>): (total: Option<nat>)
    ensures total.Some? <==> contentLength.Some?
    ensures total.Some? ==> total.value >= contentLength.value
  {
    match contentLength
    case None => None
    case Some(len) => Some(ResumedOffset(status, fileSize) + len)
  }

  /**
   * With the progress starting at the kept bytes and the total counting
   * them as well, no snapshot claims more progress than the total, as long
   * as the body delivers no more than its announced length.
   */
  lemma CorrectedSnapshotsWithinTotal(url: string, file: string, status: nat, fileSize: nat,
                                      len: nat, cs: seq<Chunk>)
    requires TotalLen(Delivered(cs)) <= len
    ensures var offset := ResumedOffset(status, fileSize);
      var st := Streamed(Job(url, file, ResumedTotal(status, fileSize, Some(len))), offset, cs);
      forall k :: 0 <= k < |st.puts| ==>
        st.puts[k].total.Some? && st.puts[k].progress <= st.puts[k].total.value
  {
    var offset := ResumedOffset(status, fileSize);
    var job := Job(url, file, ResumedTotal(status, fileSize, Some(len)));
    StreamedSpec(job, offset, cs);
    var st := Streamed(job, offset, cs);
    forall k | 0 <= k < |st.puts|
      ensures st.puts[k].total.Some? && st.puts[k].progress <= st.puts[k].total.value
    {
      assert st.puts[k].progress <= st.puts[|st.puts| - 1].progress == LastReported(offset, st.puts);
    }
  }

  /**
   * The report inside the loop: add the sample to the estimator, read the
   * window's sums back and append the snapshot they make.
   */
  method Report(job: Job, speedAverage: MovingAverage, progress: nat, sample: Sample, puts: seq<Progress>)
    returns (puts': seq<Progress>)
    requires speedAverage.Valid()
    modifies speedAverage, speedAverage.windowBytes, speedAverage.windowTime
    ensures speedAverage.Valid()
    ensures speedAverage.History == old(speedAverage.History) + [sample]
    ensures puts' == puts + [Snapshot(job, progress, speedAverage.History)]
  {
    speedAverage.Add(sample.bytes, sample.time);
    var sumBytes, sumTime := speedAverage.Average();
    puts' := puts + [Progress(Some(job.filename), false, job.url, progress, job.total, Estimate(sumBytes, sumTime))];
  }

  /**
   * The loop body for one data chunk: count its bytes and, once more than
   * the report interval has passed since the last report, add a sample to
   * the estimator and take a snapshot with its current window sums.
   */
  method Receive(job: Job, speedAverage: MovingAverage, progress: nat, sinceLastReport: nat,
                 puts: seq<Progress>, len: nat, elapsedMs: nat)
    returns (progress': nat, sinceLastReport': nat, puts': seq<Progress>)
    requires speedAverage.Valid()
    modifies speedAverage, speedAverage.windowBytes, speedAverage.windowTime
    ensures speedAverage.Valid()
    ensures StreamState(progress', sinceLastReport', speedAverage.History, puts', false)
            == Step(job, StreamState(progress, sinceLastReport, old(speedAverage.History), puts, false),
                    Data(len, elapsedMs))
  {
    ghost var before := StreamState(progress, sinceLastReport, speedAverage.History, puts, false);
    StepData(job, before, len, elapsedMs);
    progress' := progress + len;
    sinceLastReport' := sinceLastReport + len;
    puts' := puts;
    if elapsedMs > ReportIntervalMs {
      puts' := Report(job, speedAverage, progress', Sample(sinceLastReport', elapsedMs), puts);
      sinceLastReport' := 0;
    }
  }

  /**
   * The `while let Some(chunk)` loop over `body`, from `progress = offset`,
   * with a new speed estimator: its final state is `Streamed`'s, and
   * `written` counts the bytes written to the file.
   */
  method StreamBody(job: Job, offset: nat, body: seq<Chunk>)
    returns (progress: nat, written: nat, puts: seq<Progress>, broken: bool)
    ensures progress == Streamed(job, offset, body).progress
    ensures puts == Streamed(job, offset, body).puts
    ensures broken == Streamed(job, offset, body).broken
    ensures progress == offset + written
  {
    progress, written, puts, broken := offset, 0, [], false;
    var bytesSinceLastUpdate: nat := 0;
    var speedAverage := new MovingAverage();
    var i := 0;
    while i < |body| && !broken
      invariant i <= |body|
      invariant speedAverage.Valid()
      invariant fresh(speedAverage.windowBytes) && fresh(speedAverage.windowTime)
      invariant StreamState(progress, bytesSinceLastUpdate, speedAverage.History, puts, broken)
                == Streamed(job, offset, body[..i])
      invariant progress == offset + written
    {
      assert body[..i + 1][..i] == body[..i];
      match body[i] {
        case StreamError =>
          broken := true;
        case Data(len, elapsedMs) =>
          written := written + len;
          progress, bytesSinceLastUpdate, puts :=
            Receive(job, speedAverage, progress, bytesSinceLastUpdate, puts, len, elapsedMs);
      }
      i := i + 1;
    }
    if broken {
      StreamedStopsAtError(job, offset, body, i);
    } else {
      assert body[..i] == body;
    }
  }

  /**
   * `post_start`. The range header is sent iff the working file already
   * holds data; a 404 ends the run before the file is opened or the store is
   * written; a 206 appends to the file, anything else truncates it; the loop
   * runs as `Streamed` says; and the file is renamed to `url_to_filename(url)`
   * unless the stream failed.
   */
  method PostStart(url: string, store: ProgressStore, freshId: string, fileSize: Option<nat>,
                   status: nat, contentLength: Option<nat>, body: seq<Chunk>,
                   sanitize: string -> string)
    returns (t: Transfer)
    ensures t.filename == WorkingFile(store, url, freshId)
    ensures t.rangeStart == if fileSize.GetOr(0) > 0 then Some(fileSize.GetOr(0)) else None
    ensures t.outcome.NotFound? <==> status == NotFoundStatus
    ensures status == NotFoundStatus ==>
      t.mode == None && t.puts == [] && t.fileLength == fileSize.GetOr(0)
    ensures status != NotFoundStatus ==>
      && t.mode == Some(OpenMode(status != PartialContentStatus, status == PartialContentStatus))
      && var st := Streamed(Job(url, t.filename, contentLength), fileSize.GetOr(0), body);
      && t.progress == st.progress == fileSize.GetOr(0) + TotalLen(Delivered(body))
      && t.puts == st.puts
      && |t.puts| == Reports(Delivered(body))
      && SnapshotsOf(Job(url, t.filename, contentLength), t.puts)
      && Ascending(t.puts)
      && t.fileLength == (if status == PartialContentStatus then fileSize.GetOr(0) else 0) + TotalLen(Delivered(body))
      && t.outcome == if st.broken then Interrupted else Completed(UrlFilename.UrlToFilename(url, sanitize))
  {
    var filename := WorkingFile(store, url, freshId);
    var resumeProgress := fileSize.GetOr(0);
    var rangeStart := if resumeProgress > 0 then Some(resumeProgress) else None;
    if status == NotFoundStatus {
      return Transfer(filename, rangeStart, None, resumeProgress, resumeProgress, [], NotFound);
    }
    var resuming := status == PartialContentStatus;
    var mode := OpenMode(!resuming, resuming);
    var fileLength := if resuming then resumeProgress else 0;
    var job := Job(url, filename, contentLength);

    var progress, written, puts, broken := StreamBody(job, resumeProgress, body);
    StreamedSpec(job, resumeProgress, body);
    fileLength := fileLength + written;
    var outcome := if broken then Interrupted else Completed(UrlFilename.UrlToFilename(url, sanitize));
    t := Transfer(filename, rangeStart, Some(mode), fileLength, progress, puts, outcome);
  }
}
