/**
 * The persisted per-URL download record (`Progress`) and its constructor
 * `default_with`. The store itself is a map from URL to record; its
 * persistence is not modelled.
 */
module Store {
  import opened Wrappers

  /**
   * The `speed` field. The source stores an `f64` computed as
   * `(window bytes / window milliseconds) / 1000.0`; the model keeps the two
   * integer sums of that division and leaves the floating point out.
   * `Zero` is the literal `0f64` written by `default_with`.
   */
  datatype Speed = Zero | Estimate(windowBytes: nat, windowMillis: nat)

  /** One download's persisted state, keyed by `url` in the store. */
  datatype Progress = Progress(
    targetFile: Option<string>,
    failed: bool,
    url: string,
    progress: nat,
    total: Option<nat>,
    speed: Speed
  )

  /** The store: URL to record. */
  type ProgressStore = map<string, Progress>

  /** A fresh record for `url`: nothing downloaded yet, not failed, no working file. */
  function DefaultWith(url: string): (p: Progress)
    ensures p.url == url
    ensures !p.failed
    ensures p.progress == 0 && p.total == None
    ensures p.targetFile == None
    ensures p.speed == Zero
  {
    Progress(None, false, url, 0, None, Zero)
  }

  /** `Progress { failed: true, ..p }`: the same record, marked as given up. */
  function MarkFailed(p: Progress): (r: Progress)
    ensures r.failed
    ensures r.targetFile == p.targetFile && r.url == p.url && r.progress == p.progress
    ensures r.total == p.total && r.speed == p.speed
  {
    p.(failed := true)
  }
}
