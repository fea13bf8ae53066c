/**
 * `Coordinator`: the supervisor that keeps one registration per spawned
 * download worker and applies the retry budget when a worker panics.
 *
 * The actor runtime is replaced by plain state: `children` maps an actor id
 * to its registration, `store` is the progress store keyed by URL, and
 * `nextId` hands out fresh actor ids. Supervision events are inputs.
 */
module Coordinator {
  import opened Wrappers
  import opened Store

  /** A panicked worker whose registration counts more retries than this is not restarted. */
  const MaxRetries: nat := 24

  /** A registration in `children`: the worker's id, its URL and its attempt count. */
  datatype DownloaderRef = DownloaderRef(id: nat, url: string, retries: nat)

  /** The one message the coordinator accepts. */
  datatype CoordinatorMsg = StartDownloadMsg(url: string)

  /** The supervision events the coordinator distinguishes; every other event is ignored. */
  datatype SupervisionEvent =
    | ActorTerminated(child: nat)
    | ActorPanicked(child: nat)
    | OtherEvent

  /**
   * What happens to a panicked worker with `retries` attempts: nothing more
   * past the budget, otherwise a new worker with one attempt more.
   */
  function NextAttempt(retries: nat): (next: Option<nat>)
    ensures next.None? <==> retries > MaxRetries
    ensures next.Some? ==> next.value == retries + 1 && next.value <= MaxRetries + 1
  {
    if retries > MaxRetries then None else Some(retries + 1)
  }

  /** The attempt count after `k` consecutive panics of a chain that started at `retries`, while it is still retried. */
  function AfterPanics(retries: nat, k: nat): Option<nat>
  {
    if k == 0 then Some(retries)
    else
      match AfterPanics(retries, k - 1)
      case None => None
      case Some(r) => NextAttempt(r)
  }

  /**
   * A download started with one attempt is restarted after each of its first
   * 24 panics, with the attempt count one higher each time, and given up at
   * the 25th: 25 attempts in all.
   */
  lemma {:induction false} RetryBudget(k: nat)
    ensures k <= MaxRetries ==> AfterPanics(1, k) == Some(1 + k)
    ensures k > MaxRetries ==> AfterPanics(1, k) == None
  {
    if k > 0 {
      RetryBudget(k - 1);
    }
  }

  /** The record written when a download is given up: the last stored one, or a fresh one, marked failed. */
  function FailedRecord(store: ProgressStore, url: string): (p: Progress)
    ensures p.failed && p.url == (if url in store then store[url].url else url)
    ensures url in store ==> p == store[url].(failed := true)
    ensures url !in store ==> p == DefaultWith(url).(failed := true)
  {
    MarkFailed(if url in store then store[url] else DefaultWith(url))
  }

  class Coordinator {
    var children: map<nat, DownloaderRef>
    var store: ProgressStore
    var nextId: nat

    /** Every registration sits under its own id, which was handed out already, and counts 1 to 25 attempts. */
    ghost predicate Valid()
      reads this
    {
      forall id :: id in children ==>
        id < nextId && children[id].id == id && 1 <= children[id].retries <= MaxRetries + 1
    }

    /** `pre_start`: no workers registered yet. */
    constructor (store: ProgressStore)
      ensures Valid()
      ensures children == map[] && this.store == store && nextId == 0
    {
      children := map[];
      this.store := store;
      nextId := 0;
    }

    /**
     * `start_download`: spawn a worker for `url` under a fresh id and register
     * it with one attempt more than `existingRetries`. The store is not written.
     */
    method StartDownload(url: string, existingRetries: nat) returns (id: nat)
      requires Valid()
      modifies this
      ensures existingRetries <= MaxRetries ==> Valid()
      ensures id == old(nextId) && nextId == old(nextId) + 1
      ensures id !in old(children)
      ensures children == old(children)[id := DownloaderRef(id, url, existingRetries + 1)]
      ensures store == old(store)
    {
      id := nextId;
      nextId := nextId + 1;
      children := children[id := DownloaderRef(id, url, existingRetries + 1)];
    }

    /**
     * `post_start`: start a worker with one attempt for the URL of every
     * stored record not marked failed, in the order the scan yields them
     * (`started` holds the keys of those records in that order).
     */
    method PostStart() returns (ghost started: seq<string>)
      requires Valid()
      modifies this
      ensures Valid()
      ensures store == old(store)
      ensures forall key :: key in started <==> key in store && !store[key].failed
      ensures forall j, k :: 0 <= j < k < |started| ==> started[j] != started[k]
      ensures nextId == old(nextId) + |started|
      ensures forall id :: id in children <==> id in old(children) || old(nextId) <= id < nextId
      ensures forall id :: id in old(children) ==> children[id] == old(children)[id]
      ensures forall j :: 0 <= j < |started| ==>
        old(nextId) + j in children &&
        children[old(nextId) + j] == DownloaderRef(old(nextId) + j, store[started[j]].url, 1)
    {
      var pending := set key | key in store && !store[key].failed;
      started := [];
      while pending != {}
        invariant Valid()
        invariant store == old(store)
        invariant forall key :: key in pending ==> key in store && !store[key].failed
        invariant forall key :: key in started <==> key in store && !store[key].failed && key !in pending
        invariant forall j, k :: 0 <= j < k < |started| ==> started[j] != started[k]
        invariant nextId == old(nextId) + |started|
        invariant forall id :: id in children <==> id in old(children) || old(nextId) <= id < nextId
        invariant forall id :: id in old(children) ==> children[id] == old(children)[id]
        invariant forall j :: 0 <= j < |started| ==>
          old(nextId) + j in children &&
          children[old(nextId) + j] == DownloaderRef(old(nextId) + j, store[started[j]].url, 1)
        decreases |pending|
      {
        var key :| key in pending;
        var _ := StartDownload(store[key].url, 0);
        started := started + [key];
        pending := pending - {key};
      }
    }

    /** `handle`: a `StartDownload` message starts a worker with one attempt; the store is not written. */
    method Handle(msg: CoordinatorMsg) returns (id: nat)
      requires Valid()
      modifies this
      ensures Valid()
      ensures id == old(nextId) && nextId == old(nextId) + 1
      ensures id !in old(children)
      ensures children == old(children)[id := DownloaderRef(id, msg.url, 1)]
      ensures store == old(store)
    {
      match msg {
        case StartDownloadMsg(url) =>
          id := StartDownload(url, 0);
      }
    }

    /**
     * `handle_supervisor_evt`. A worker that stopped normally has its store
     * record deleted and its registration removed. A panicked worker past the
     * retry budget has its record (or a fresh one) stored as failed and its
     * registration removed; otherwise a new worker for the same URL is
     * registered with one attempt more, and the panicked worker's
     * registration stays. `spawned` is the new worker's id, if any.
     */
    method HandleSupervisorEvt(evt: SupervisionEvent) returns (spawned: Option<nat>)
      requires Valid()
      requires !evt.OtherEvent? ==> evt.child in children
      modifies this
      ensures Valid()
      ensures evt.OtherEvent? ==>
        spawned == None && children == old(children) && store == old(store) && nextId == old(nextId)
      ensures evt.ActorTerminated? ==>
        && spawned == None
        && children == old(children) - {evt.child}
        && store == old(store) - {old(children)[evt.child].url}
        && nextId == old(nextId)
      ensures evt.ActorPanicked? && old(children)[evt.child].retries > MaxRetries ==>
        var url := old(children)[evt.child].url;
        && spawned == None
        && children == old(children) - {evt.child}
        && store == old(store)[url := FailedRecord(old(store), url)]
        && nextId == old(nextId)
      ensures evt.ActorPanicked? && old(children)[evt.child].retries <= MaxRetries ==>
        var c := old(children)[evt.child];
        && spawned == Some(old(nextId))
        && NextAttempt(c.retries) == Some(c.retries + 1)
        && children == old(children)[old(nextId) := DownloaderRef(old(nextId), c.url, c.retries + 1)]
        && store == old(store)
        && nextId == old(nextId) + 1
    {
      match evt {
        case ActorTerminated(child) =>
          var url := children[child].url;
          store := store - {url};
          children := children - {child};
          spawned := None;
        case ActorPanicked(child) =>
          var c := children[child];
          if c.retries > MaxRetries {
            store := store[c.url := FailedRecord(store, c.url)];
            children := children - {c.id};
            spawned := None;
          } else {
            var id := StartDownload(c.url, c.retries);
            spawned := Some(id);
          }
        case OtherEvent =>
          spawned := None;
      }
    }
  }

  /**
   * A download that panics every time: started once and restarted 24
   * times, it is stored as failed at the 25th panic. The registrations of
   * the 24 restarted attempts are never removed.
   */
  method RetriesUntilFailed(url: string) returns (c: Coordinator)
    ensures c.Valid()
    ensures c.store == map[url := FailedRecord(map[], url)]
    ensures c.nextId == MaxRetries + 1
    ensures forall id :: id in c.children <==> 0 <= id < MaxRetries
    ensures forall id :: id in c.children ==> c.children[id].url == url
  {
    c := new Coordinator(map[]);
    var id := c.Handle(StartDownloadMsg(url));
    for k := 0 to MaxRetries
      invariant c.Valid() && c.store == map[]
      invariant c.nextId == k + 1 && id == k
      invariant forall i :: i in c.children <==> 0 <= i <= k
      invariant forall i :: i in c.children ==> c.children[i].url == url
      invariant c.children[k].retries == k + 1
    {
      var spawned := c.HandleSupervisorEvt(ActorPanicked(id));
      id := spawned.value;
    }
    var spawned := c.HandleSupervisorEvt(ActorPanicked(id));
  }
}
