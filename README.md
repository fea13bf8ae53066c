# http-drogue download core, in Dafny

http-drogue is a download server. It takes a URL and downloads it in the
background, resuming after restarts and retrying after failures. This
project models its three pieces of sequential logic and proves what they
promise:

- **The throughput estimator** (`AvgRange`, src/avg_range.rs). `MovingAverage`
  is a class over two 60-slot arrays written round-robin, with a wrap-around
  `index` and a `highWater` fill counter. A ghost `History` records every sample
  added so far. `Valid()` ties the arrays to `WindowSlots(History)`, the
  rotation of the last `min(n, 60)` samples. `Average` returns the byte and
  millisecond sums over the filled slots, and these are proved to be the sums
  over the most recent `min(n, 60)` samples.
- **The URL-to-filename rule** (`UrlFilename`, `url_to_filename`). The regular
  expression `/([^?/]+)([?].*)?$` is written down as a predicate `MatchAt`. The
  scanner `UrlToFilename` is proved to return the capture of the leftmost
  match, and `sanitize(url)` when there is no match.
- **One download worker** (`Downloader`, `Downloader::post_start`). This is a
  method over abstract inputs:
  - the stored record;
  - the on-disk file size;
  - the HTTP status;
  - the content length;
  - the body, as chunks of `(length, milliseconds since the last report)`,
    where any chunk may be a stream error;
  - a fresh id for a new working file.

  The method decides:
  - whether to send `Range: bytes=N-` (section 14.1.2 of RFC 9110);
  - how to treat 404 and 206 Partial Content (section 15.3.7 of RFC 9110);
  - whether to truncate or append.

  Its streaming loop uses a real `MovingAverage` and is proved equal to a
  fold, `Streamed`. `StreamedSpec` proves the fold's properties: the progress
  total, one snapshot per report, and snapshots with ascending progress.
- **The coordinator** (`Coordinator`, the `Coordinator` actor). It is a class
  over two fields:
  - `children`: actor id → `{id, url, retries}`;
  - the progress `store`: url → `Progress`.

  Its methods are startup, a start message, and the supervision events with
  the retry budget of 24. Actor ids come from a counter `nextId`.

`Store` holds the `Progress` record and `default_with`. `Wrappers` holds `Option`.

Choices the model takes literally from the code:
- A first attempt is registered with `retries = 1`, because `start_download`
  stores `existing_retries + 1` and callers pass 0.
- A `StartDownload` message does not write the store. The handler only spawns
  the worker.
- A restart registers the new worker and leaves the panicked worker's
  registration in `children`; it does not replace it.
- The give-up test is `retries > 24`. A URL therefore runs 25 attempts and is
  marked failed at its 25th panic.
- `progress` starts at the on-disk size even when a non-206 reply truncates
  the file.

## Model

| member | source | states |
|---|---|---|
| Store.DefaultWith | src/store.rs:18-27 | the fresh record keeps `url`; it is not failed, has progress 0, no total and no working file, and its speed is zero |
| Store.MarkFailed | src/download_actor.rs:312-320 | `Progress { failed: true, ..last }`: failed is set and every other field is preserved |
| AvgRange.MovingAverage.constructor | src/avg_range.rs:9-16 | index 0, high water 0, every slot of both arrays zero, empty history, and `Valid()` |
| AvgRange.MovingAverage.Add | src/avg_range.rs:18-25 | writes bytes/time into the slot at the old index and leaves every other slot unchanged; index becomes (old+1) % 60; high water rises by one and saturates at 60; `Valid()` is kept, so after n adds index = n % 60, high water = min(n, 60), and the slots hold the rotated last window |
| AvgRange.MovingAverage.Average | src/avg_range.rs:27-34 | the sums over slots `0..high_water` equal the byte and time sums of the most recent min(n, 60) samples |
| AvgRange.WindowSlotsSums | src/avg_range.rs:27-33 | the filled slots sum to the same totals as the last window of the history, so no overwritten sample is counted |
| AvgRange.WindowSlotsAfterAdd | src/avg_range.rs:18-21 | adding the n-th sample puts it in slot n % 60 of the window and leaves every other filled slot as it was |
| AvgRange.AddKeepsWindow | src/avg_range.rs:18-25 | one `add` on the array contents keeps the window invariant, with the sample appended to the history |
| AvgRange.WindowSlotsAfterAddFull | src/avg_range.rs:18-21 | once 60 samples are in, a new sample replaces exactly the slot at `n % 60` (the oldest sample) |
| AvgRange.AverageOfTwo | src/avg_range.rs:9-34 | two samples added to a new estimator sum to their bytes and their times |
| AvgRange.TwoSampleAverage | src/avg_range.rs:18-34 | after add(1000, 500) and add(2000, 500) the sums are 3000 bytes and 1000 ms, 3 bytes per ms |
| UrlFilename.SegmentEnd | src/download_actor.rs:27 | the greedy run of `[^?/]` from a position: all its characters are segment characters, and it stops at the end of the string or at a `/` or `?` |
| UrlFilename.TryAt | src/download_actor.rs:27-30 | a match at one position captures a non-empty run of characters other than `/` and `?` |
| UrlFilename.FirstMatch | src/download_actor.rs:27-30 | a match found from `p` lies at or after `p`, at a `/`, and captures a non-empty run without `/` or `?` (its leftmost position is `FirstMatchSpec`) |
| UrlFilename.UrlToFilename | src/download_actor.rs:24-33 | the result is `sanitize(url)` or a non-empty name without `/` or `?`; `UrlToFilenameSpec` pins it to the leftmost match's capture |
| UrlFilename.TryAtExact | src/download_actor.rs:27-30 | the scan at a position succeeds with a capture iff the regular expression matches there with that capture |
| UrlFilename.FirstMatchSpec | src/download_actor.rs:27-30 | the scan from `p` finds the leftmost match at or after `p`, or reports that there is none |
| UrlFilename.UrlToFilenameSpec | src/download_actor.rs:24-33 | the result is the capture of the leftmost match of `/([^?/]+)([?].*)?$`, or `sanitize(url)` when nothing matches |
| UrlFilename.MatchedNameIsSegment | src/download_actor.rs:24-33 | when the expression matches, the file name is non-empty and contains neither `/` nor `?` |
| UrlFilename.LastSegmentBeforeQuery | src/download_actor.rs:24-33 | for `path/seg?query` with no `?` in the path, the result is `seg` |
| UrlFilename.ExampleFileName | src/download_actor.rs:24-33 | `https://example.com/path/file.zip?x=1` gives `file.zip` |
| Downloader.WorkingFile | src/download_actor.rs:108-113 | the working file is the stored `target_file` if there is one, else `.{ulid}.tmp` |
| Downloader.Snapshot | src/download_actor.rs:170-178 | the record put at a report names this URL, working file and total, is not failed, carries the progress, and its speed sums are at most the sums of all samples, and equal to them while at most 60 samples were added |
| Downloader.Step | src/download_actor.rs:154-183 | one chunk: nothing changes once the loop stopped; the loop stops iff the chunk failed; a data chunk adds its length to progress; at most one snapshot is appended, with one sample, the accumulator reset and the window's sums (`ReportKeepsFacts`, `QuietKeepsFacts`, `StopKeepsFacts` state what it keeps) |
| Downloader.Streamed | src/download_actor.rs:146-184 | progress never falls below the starting offset, and there are as many snapshots as samples and no more than chunks (`StreamedSpec` states the full loop invariant) |
| Downloader.NoReportNoSnapshot | src/download_actor.rs:165-180 | a run with no chunk after more than 1000 ms writes nothing to the store |
| Downloader.SnapshotKeepsWorkingFile | src/download_actor.rs:108-113 | once any snapshot of a transfer is stored, a retry opens the same working file whatever fresh id it draws |
| Downloader.FreshRecordForgetsWorkingFile | src/download_actor.rs:108-113 | with the record a new request stores (no working file), two attempts with different fresh ids open different working files |
| Downloader.RecordWorkingFile | src/download_actor.rs:108-113 | the store with the working file recorded under the URL (on the last record or a fresh one), every other record unchanged |
| Downloader.RecordedWorkingFileIsReused | src/download_actor.rs:108-113 | once the working file is recorded, every later attempt opens that same file |
| Downloader.ResumeSnapshotExceedsTotal | src/download_actor.rs:145-146 | as written, a transfer resumed at a non-zero offset whose reply announces the `len` bytes still to come writes a first snapshot with total `len` and progress offset + len, above its total |
| Downloader.ResumedOffset | src/download_actor.rs:119-146 | the corrected start of `progress`: never more than the bytes on disk, and non-zero only when the reply is 206 and the file is appended to |
| Downloader.ResumedTotal | src/download_actor.rs:145 | the corrected total: present iff the reply has a content length, and never below it |
| Downloader.CorrectedSnapshotsWithinTotal | src/download_actor.rs:145-180 | with the corrected start and total, every snapshot has a total and a progress no greater than it, when the body delivers at most its announced length |
| Downloader.FirstError | src/download_actor.rs:154-155 | the index of the first failed chunk: every earlier chunk is data |
| Downloader.StreamedSpec | src/download_actor.rs:146-183 | the loop stops exactly at the first failed chunk; progress = offset + bytes written; one sample and one snapshot per chunk after more than 1000 ms; every snapshot has this URL, file and total and `failed = false`; snapshot progress ascends; the accumulator equals the bytes since the last snapshot; the samples account for every byte up to that snapshot |
| Downloader.StreamBody | src/download_actor.rs:146-184 | the streaming loop, run with a real estimator, ends in the state `Streamed` gives, and the bytes written are progress minus the offset |
| Downloader.StreamedStopsAtError | src/download_actor.rs:154-155 | once a chunk has failed, later chunks change nothing |
| Downloader.Report | src/download_actor.rs:165-180 | adds the sample to the estimator and appends the snapshot with the window's sums, keeping the estimator valid |
| Downloader.Receive | src/download_actor.rs:156-183 | one data chunk moves the loop state exactly as one `Step` of `Streamed` |
| Downloader.PostStart | src/download_actor.rs:103-197 | sends a range start iff the file size is > 0, with that size as start; returns NotFound iff the status is 404, before opening the file or writing a snapshot; opens with truncate iff not 206 and with append iff 206; the file length is (206 ? size : 0) + bytes delivered; progress is size + bytes delivered; the snapshots are those of `Streamed`; the final name is `url_to_filename(url)` unless the stream failed |
| Coordinator.NextAttempt | src/download_actor.rs:303-329 | a panicked worker is given up iff its retries exceed 24, otherwise restarted with retries + 1 (never above 25) |
| Coordinator.RetryBudget | src/download_actor.rs:200-329 | starting from 1, the first 24 panics restart with 1 + k attempts, and every later panic gives up |
| Coordinator.FailedRecord | src/download_actor.rs:306-320 | the record stored on giving up: the last stored record, or `default_with(url)`, with `failed = true` and other fields kept |
| Coordinator.Coordinator.constructor | src/download_actor.rs:238-247 | no children, the given store, and `Valid()` |
| Coordinator.Coordinator.StartDownload | src/download_actor.rs:203-228 | registers a fresh id for `url` with `existing_retries + 1`; leaves the other registrations and the store unchanged |
| Coordinator.Coordinator.PostStart | src/download_actor.rs:251-265 | starts exactly one worker with retries 1 per stored record not marked failed, for that record's URL, under consecutive fresh ids; keeps the existing registrations and the store |
| Coordinator.Coordinator.Handle | src/download_actor.rs:267-281 | a `StartDownload` message registers one new worker for its URL with retries 1 and does not write the store |
| Coordinator.Coordinator.HandleSupervisorEvt | src/download_actor.rs:283-334 | termination deletes the URL's record and removes the registration; a panic with retries > 24 stores the failed record, removes the registration and spawns nothing; a panic otherwise registers a new worker for the same URL with retries + 1 and keeps the old registration; other events change nothing; retries stay in 1..25 |
| Coordinator.RetriesUntilFailed | src/download_actor.rs:297-331 | a URL that always panics is stored as failed after 25 attempts, and 24 stale registrations remain |

## Left out

- AvgRange.MovingAverage.Average: returns the two integer sums, not the `f64` quotient. The division and the NaN of an empty window (0/0) are floating point.
- Store.Progress: `speed` is kept as the two window sums (`Estimate`) or `Zero`, not as bytes per second after the `/ 1000.0` conversion, which is floating point.
- Downloader.PostStart: the only failures modelled are the 404 reply and a failed chunk read or write. These are not modelled, and each of them would end the worker like a failed chunk: a failed request send, the file open, flush, sync or rename, and a failed store get or put.
- Downloader.PostStart: the snapshots are returned as the sequence `puts` of records written under the URL, not written to a store. The progress store is a map, and its persistence (cuttlestore) is not modelled.
- Downloader.PostStart: a failed chunk write is taken to write nothing of its chunk. The file length after an interrupted run counts only the chunks before the failure; a partial `write_all` before its error is not modelled.
- Downloader.PostStart: models the code as written, which stores the working file only at the first report (see Findings); the corrected `RecordWorkingFile` is a separate function and is not called by `PostStart`.
- Downloader.PostStart: models the code as written, so a snapshot's progress may exceed its total. The total is the reply's content length, while the progress starts at the bytes on disk; see Findings. The corrected `ResumedOffset` and `ResumedTotal` are not called by `PostStart`.
- Downloader.PostStart: the clock is an input. Each chunk carries the milliseconds elapsed since the last report, instead of calls to `Instant::now`.
- Downloader.PostStart: `Ulid::new` is the `freshId` input, and `sanitize_filename::sanitize` is the function parameter `sanitize`.
- Coordinator.Coordinator.HandleSupervisorEvt: the store's get, put and delete never fail, and spawning a worker never fails. The `?` error returns of these calls are not modelled.
- Coordinator.Coordinator.PostStart: the `unwrap` on the store scan and on each scanned record panics the coordinator when the store fails; the store never fails here. The `?` on each `start_download` would stop the remaining starts when a spawn fails; spawning never fails here.
- Coordinator.Coordinator.Handle: the `?` on `start_download` returns the spawn error from the handler; spawning never fails here, so that error path is not modelled.
- Coordinator.Coordinator.PostStart: the order in which the store scan yields records is not fixed. Any order is allowed, and the order used is returned as `started`.
- Integer widths: `u64` and `usize` counters are unbounded naturals. This covers progress, the window sums and the retry counts, and overflow is not modelled.
- The actor runtime (ractor): spawning, actor references, join handles, linking and `myself.stop`. Supervision events are inputs to `HandleSupervisorEvt`, with the worker's outcome deciding the event: `Completed` is a normal termination, and `NotFound` and `Interrupted` are panics. Actor ids are fresh naturals.
- Concurrency between workers: two workers for the same URL racing on one store key and one file. The model is sequential.
- The unused `concurrent_downloads` field, and all `tracing` logging.
- src/main.rs is not part of this model. That covers the HTTP front end, templates, authentication and speed formatting, and the store write that happens before a `StartDownload` message is sent. That write stores a record equal to `DefaultWith(url)` (src/main.rs:163-176), the record `FreshRecordForgetsWorkingFile` starts from.

## Findings

| source | as written | input that shows it | evidently intended | confidence | as-written member | corrected member |
|---|---|---|---|---|---|---|
| src/download_actor.rs:108-113 | the working file `.{ulid}.tmp` is stored only with the first snapshot, after more than 1000 ms of streaming, and the record a new request stores (src/main.rs) has no `target_file` | a worker whose stream fails within its first second: the retry finds no `target_file`, draws a new ulid, opens a different file and requests from offset 0; the first `.tmp` file stays on disk | the working file is recorded in the store before streaming starts, so every retry resumes the same file | not executed | Downloader.FreshRecordForgetsWorkingFile | Downloader.RecordedWorkingFileIsReused |
| src/download_actor.rs:145-146 | `total` is the reply's content length and `progress` starts at the size on disk; on a 206 the length counts only the remaining bytes, and a non-206 reply truncates the file but keeps the old offset in `progress` | 400 bytes on disk, then a 206 reply with content length 600: the snapshots carry total 600 and progress up to 1000, and `total - progress` on `u64` in src/main.rs:123-125 overflows | every snapshot has progress at most its total: the total counts the kept bytes as well, and progress starts at 0 when the file is truncated | not executed | Downloader.ResumeSnapshotExceedsTotal | Downloader.CorrectedSnapshotsWithinTotal |
