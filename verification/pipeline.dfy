/**
 * The stage wiring of the downloader (src/main.rs): chapter batches become
 * image jobs, each job's fetch hands its bytes on or is dropped with an error
 * message, and the materializer drains the hand-off channel into a worker
 * pool. Channels are the sequences of what passes through them, in order;
 * task scheduling is not modelled.
 */
module Pipeline {
  import opened Wrappers
  import opened Comic

  // ---------------------------------------------------------------------------
  // process_msgs: batches -> directory creation and the image-job stream

  /** What `process_msgs` does, in order. */
  datatype Event =
    | CreateDir(dir: Path)     // `create_dir_all` succeeded
    | ForwardJob(job: Message) // one job sent to the download stage
    | CloseJobs                // the job sender is dropped
    | AwaitDownload            // the download task is awaited

  /** The concatenation, in batch order, of every batch's jobs. */
  function FlattenAll(batches: seq<Messages>): seq<Message> {
    if batches == [] then []
    else FlattenAll(batches[..|batches| - 1]) + Flattened(batches[|batches| - 1])
  }

  function Dirs(batches: seq<Messages>): seq<Path> {
    seq(|batches|, b requires 0 <= b < |batches| => batches[b].savePath)
  }

  /** The jobs a log forwards, in order. */
  function Jobs(log: seq<Event>): seq<Message> {
    if log == [] then []
    else Jobs(log[..|log| - 1]) + (if log[|log| - 1].ForwardJob? then [log[|log| - 1].job] else [])
  }

  /** The directories a log creates, in order. */
  function CreatedDirs(log: seq<Event>): seq<Path> {
    if log == [] then []
    else CreatedDirs(log[..|log| - 1]) + (if log[|log| - 1].CreateDir? then [log[|log| - 1].dir] else [])
  }

  /** Every forwarded job's directory was created earlier in the log. */
  ghost predicate DirsPrecedeJobs(log: seq<Event>) {
    forall i | 0 <= i < |log| && log[i].ForwardJob? ::
      log[i].job.savePath != [] && CreateDir(Parent(log[i].job.savePath)) in log[..i]
  }

  /** Only directory creations and forwarded jobs. */
  predicate WhileReceiving(log: seq<Event>) {
    forall i | 0 <= i < |log| :: log[i].CreateDir? || log[i].ForwardJob?
  }

  /** The index of the first batch whose directory cannot be created, or the number of batches. */
  function FirstUnwritable(batches: seq<Messages>, unwritable: set<Path>): (k: nat)
    ensures k <= |batches|
    ensures forall b | 0 <= b < k :: batches[b].savePath !in unwritable
    ensures k < |batches| ==> batches[k].savePath in unwritable
  {
    if batches == [] then 0
    else if batches[0].savePath in unwritable then 0
    else 1 + FirstUnwritable(batches[1..], unwritable)
  }

  /** Appending one event to a log of `process_msgs`. */
  lemma LogExtend(log: seq<Event>, e: Event)
    requires DirsPrecedeJobs(log)
    requires e.ForwardJob? ==> e.job.savePath != [] && CreateDir(Parent(e.job.savePath)) in log
    ensures DirsPrecedeJobs(log + [e])
  {
    forall i | 0 <= i < |log|
      ensures (log + [e])[..i] == log[..i]
    {
    }
    assert (log + [e])[..|log|] == log;
  }

  /** The events that forward `jobs`, in order. */
  function ForwardEvents(jobs: seq<Message>): seq<Event> {
    seq(|jobs|, k requires 0 <= k < |jobs| => ForwardJob(jobs[k]))
  }

  /** What `process_msgs` does with one batch: create its directory, then forward its jobs. */
  function BatchLog(msgs: Messages): seq<Event> {
    [CreateDir(msgs.savePath)] + ForwardEvents(Flattened(msgs))
  }

  /** What `process_msgs` does with a sequence of batches, before it closes the job stream. */
  function ReceiveLog(batches: seq<Messages>): seq<Event> {
    if batches == [] then []
    else ReceiveLog(batches[..|batches| - 1]) + BatchLog(batches[|batches| - 1])
  }

  lemma {:induction false} JobsConcat(a: seq<Event>, b: seq<Event>)
    ensures Jobs(a + b) == Jobs(a) + Jobs(b)
    ensures CreatedDirs(a + b) == CreatedDirs(a) + CreatedDirs(b)
  {
    if b == [] {
      assert a + b == a;
    } else {
      var b' := b[..|b| - 1];
      assert (a + b)[..|a + b| - 1] == a + b';
      JobsConcat(a, b');
    }
  }

  lemma {:induction false} ForwardEventsFacts(jobs: seq<Message>)
    ensures Jobs(ForwardEvents(jobs)) == jobs
    ensures CreatedDirs(ForwardEvents(jobs)) == []
  {
    if jobs != [] {
      var n := |jobs| - 1;
      assert ForwardEvents(jobs)[..n] == ForwardEvents(jobs[..n]);
      ForwardEventsFacts(jobs[..n]);
      assert jobs[..n] + [jobs[n]] == jobs;
    }
  }

  /** A batch's events, appended to a log, keep every forwarded job behind its directory's creation. */
  lemma BatchLogPrecedes(log: seq<Event>, msgs: Messages)
    requires DirsPrecedeJobs(log) && WhileReceiving(log)
    ensures DirsPrecedeJobs(log + BatchLog(msgs)) && WhileReceiving(log + BatchLog(msgs))
  {
    var whole := log + BatchLog(msgs);
    var n := |log|;
    forall i | 0 <= i < |whole| && whole[i].ForwardJob?
      ensures whole[i].job.savePath != [] && CreateDir(Parent(whole[i].job.savePath)) in whole[..i]
    {
      if i < n {
        assert whole[..i] == log[..i];
      } else {
        assert whole[i] == ForwardJob(Flattened(msgs)[i - n - 1]);
        assert whole[..i][n] == CreateDir(msgs.savePath);
      }
    }
  }

  /** Creating `dir` and then forwarding `jobs` adds exactly those jobs and that directory. */
  lemma EventsProjections(log: seq<Event>, dir: Path, jobs: seq<Message>)
    ensures Jobs(log + ([CreateDir(dir)] + ForwardEvents(jobs))) == Jobs(log) + jobs
    ensures CreatedDirs(log + ([CreateDir(dir)] + ForwardEvents(jobs))) == CreatedDirs(log) + [dir]
  {
    var create, forward := [CreateDir(dir)], ForwardEvents(jobs);
    assert Jobs(create) == [] && CreatedDirs(create) == [dir] by {
      assert create[..0] == [];
    }
    ForwardEventsFacts(jobs);
    JobsConcat(create, forward);
    JobsConcat(log, create + forward);
  }

  /** A batch's events forward exactly its jobs and create exactly its directory. */
  lemma BatchLogProjections(log: seq<Event>, msgs: Messages)
    ensures Jobs(log + BatchLog(msgs)) == Jobs(log) + Flattened(msgs)
    ensures CreatedDirs(log + BatchLog(msgs)) == CreatedDirs(log) + [msgs.savePath]
  {
    EventsProjections(log, msgs.savePath, Flattened(msgs));
  }

  /** The log of the receiving phase forwards every batch's jobs in order and creates every batch's directory. */
  lemma {:induction false} ReceiveLogProjections(batches: seq<Messages>)
    ensures Jobs(ReceiveLog(batches)) == FlattenAll(batches)
    ensures CreatedDirs(ReceiveLog(batches)) == Dirs(batches)
  {
    if batches != [] {
      var init, last := batches[..|batches| - 1], batches[|batches| - 1];
      assert ReceiveLog(batches) == ReceiveLog(init) + BatchLog(last);
      assert FlattenAll(batches) == FlattenAll(init) + Flattened(last);
      assert Dirs(batches) == Dirs(init) + [last.savePath];
      ReceiveLogProjections(init);
      BatchLogProjections(ReceiveLog(init), last);
    }
  }

  /** In the log of the receiving phase, every job follows its directory's creation, and nothing else happens. */
  lemma {:induction false} ReceiveLogOrdered(batches: seq<Messages>)
    ensures DirsPrecedeJobs(ReceiveLog(batches)) && WhileReceiving(ReceiveLog(batches))
  {
    if batches != [] {
      var n := |batches| - 1;
      ReceiveLogOrdered(batches[..n]);
      BatchLogPrecedes(ReceiveLog(batches[..n]), batches[n]);
    }
  }

  /** How `process_msgs` ends: the sender is dropped, and the download task awaited only after a clean run. */
  function Closing(ok: bool): seq<Event> {
    if ok then [CloseJobs, AwaitDownload] else [CloseJobs]
  }

  /**
   * A whole log of `process_msgs`: the jobs it forwards are the concatenated
   * batches' jobs, it creates exactly the batches' directories, each before
   * any of its jobs, and only then drops the job sender (and, after a clean
   * run, awaits the download task).
   */
  lemma ProcessMsgsLogFacts(batches: seq<Messages>, ok: bool)
    ensures Jobs(ReceiveLog(batches) + Closing(ok)) == FlattenAll(batches)
    ensures CreatedDirs(ReceiveLog(batches) + Closing(ok)) == Dirs(batches)
    ensures DirsPrecedeJobs(ReceiveLog(batches) + Closing(ok))
    ensures WhileReceiving(ReceiveLog(batches))
  {
    var received := ReceiveLog(batches);
    ReceiveLogProjections(batches);
    ReceiveLogOrdered(batches);
    JobsConcat(received, Closing(ok));
    assert Jobs(Closing(ok)) == [] && CreatedDirs(Closing(ok)) == [] by {
      assert Closing(ok)[..|Closing(ok)| - 1] == (if ok then [CloseJobs] else []);
      assert [CloseJobs][..0] == [];
    }
    LogExtend(received, CloseJobs);
    if ok {
      LogExtend(received + [CloseJobs], AwaitDownload);
      assert received + Closing(ok) == received + [CloseJobs] + [AwaitDownload];
    }
  }

  /**
   * `process_msgs`: for each received batch, in order, create its directory,
   * flatten it and forward every job; once the batch stream is exhausted,
   * drop the job sender and await the download task. A directory that cannot
   * be created (`unwritable`) ends the function with an error; returning
   * drops the sender too, and the download task is not awaited.
   */
  method ProcessMsgs(batches: seq<Messages>, unwritable: set<Path>) returns (log: seq<Event>, ok: bool)
    ensures ok <==> FirstUnwritable(batches, unwritable) == |batches|
    ensures log == ReceiveLog(batches[..FirstUnwritable(batches, unwritable)]) + Closing(ok)
  {
    log := [];
    var i := 0;
    while i < |batches|
      invariant i <= |batches|
      invariant forall b | 0 <= b < i :: batches[b].savePath !in unwritable
      invariant log == ReceiveLog(batches[..i])
    {
      var msgs := batches[i];
      if msgs.savePath in unwritable {
        assert FirstUnwritable(batches, unwritable) == i;
        log := log + [CloseJobs];
        return log, false;
      }
      log := HandleBatch(log, msgs);
      assert batches[..i + 1][..i] == batches[..i];
      i := i + 1;
    }
    assert batches[..|batches|] == batches;
    log := log + [CloseJobs];
    log := log + [AwaitDownload];
    ok := true;
  }

  /** One batch in `process_msgs`: create its directory, flatten it, forward its jobs in order. */
  method HandleBatch(log0: seq<Event>, msgs: Messages) returns (log: seq<Event>)
    ensures log == log0 + BatchLog(msgs)
  {
    log := log0 + [CreateDir(msgs.savePath)];
    var jobs := FlattenMessage(msgs);
    log := ForwardJobs(log, jobs);
    assert log0 + [CreateDir(msgs.savePath)] + ForwardEvents(jobs) == log0 + BatchLog(msgs);
  }

  /** The inner loop of `process_msgs`: send every job of a flattened batch, in order. */
  method ForwardJobs(log0: seq<Event>, jobs: seq<Message>) returns (log: seq<Event>)
    ensures log == log0 + ForwardEvents(jobs)
  {
    log := log0;
    for k := 0 to |jobs|
      invariant log == log0 + ForwardEvents(jobs[..k])
    {
      log := log + [ForwardJob(jobs[k])];
      assert ForwardEvents(jobs[..k + 1]) == ForwardEvents(jobs[..k]) + [ForwardJob(jobs[k])];
    }
    assert jobs[..|jobs|] == jobs;
  }

  /** Every job of the stream writes into the directory of one of the batches. */
  lemma {:induction false} FlattenAllParents(batches: seq<Messages>, j: nat)
    requires j < |FlattenAll(batches)|
    ensures FlattenAll(batches)[j].savePath != []
    ensures Parent(FlattenAll(batches)[j].savePath) in Dirs(batches)
  {
    var init := batches[..|batches| - 1];
    var last := batches[|batches| - 1];
    if j < |FlattenAll(init)| {
      FlattenAllParents(init, j);
      assert Dirs(init) == Dirs(batches)[..|batches| - 1];
    } else {
      assert Dirs(batches)[|batches| - 1] == last.savePath;
    }
  }

  /** Batches in distinct directories give jobs that write distinct files. */
  lemma {:induction false} FlattenAllPathsDistinct(batches: seq<Messages>, i: nat, j: nat)
    requires forall a, b | 0 <= a < b < |batches| :: batches[a].savePath != batches[b].savePath
    requires i < j < |FlattenAll(batches)|
    ensures FlattenAll(batches)[i].savePath != FlattenAll(batches)[j].savePath
  {
    var init := batches[..|batches| - 1];
    var last := batches[|batches| - 1];
    var n := |FlattenAll(init)|;
    if j < n {
      FlattenAllPathsDistinct(init, i, j);
    } else if i >= n {
      FlattenedPathsDistinct(last, i - n, j - n);
    } else {
      FlattenAllParents(init, i);
      var d := Parent(FlattenAll(init)[i].savePath);
      assert d in Dirs(init);
      var a :| 0 <= a < |init| && Dirs(init)[a] == d;
      assert Parent(FlattenAll(batches)[j].savePath) == last.savePath;
    }
  }

  // ---------------------------------------------------------------------------
  // download_images: one fetch per job, forwarded only when it succeeds

  /**
   * The outcome of one job's fetch: the request fails, reading the body
   * fails, or the body arrives. A response with any HTTP status, an error
   * status included, is a successful request, so a 404 page is `Fetched`.
   */
  datatype Fetch = SendFailed | BodyFailed | Fetched(body: seq<bv8>)

  /** What the fetch stage hands to the materializer: the bytes and the file to write. */
  datatype Materialization = Materialization(bytes: seq<bv8>, savePath: Path)

  /** The fetch task's rule: forward `(bytes, save_path)` when both the request and the body read succeed. */
  function Forward(job: Message, fetch: Fetch): (r: Option<Materialization>)
    ensures r.Some? <==> fetch.Fetched?
    ensures r.Some? ==> r.value.bytes == fetch.body && r.value.savePath == job.savePath
  {
    if fetch.Fetched? then Some(Materialization(fetch.body, job.savePath)) else None
  }

  /** What reaches the hand-off channel, in job order. */
  function Delivered(jobs: seq<Message>, fetches: seq<Fetch>): seq<Materialization>
    requires |fetches| == |jobs|
  {
    if jobs == [] then []
    else
      var n := |jobs| - 1;
      Delivered(jobs[..n], fetches[..n]) + (if Forward(jobs[n], fetches[n]).Some? then [Forward(jobs[n], fetches[n]).value] else [])
  }

  /** The jobs whose failure is logged, in job order. */
  function Dropped(jobs: seq<Message>, fetches: seq<Fetch>): seq<Message>
    requires |fetches| == |jobs|
  {
    if jobs == [] then []
    else
      var n := |jobs| - 1;
      Dropped(jobs[..n], fetches[..n]) + (if Forward(jobs[n], fetches[n]).None? then [jobs[n]] else [])
  }

  function SavePaths(ms: seq<Materialization>): seq<Path> {
    seq(|ms|, i requires 0 <= i < |ms| => ms[i].savePath)
  }

  /**
   * `download_images`: for each received job, its fetch either forwards the
   * bytes with the job's save path or logs the URL and save path as an error.
   * The model runs the fetches in job order.
   */
  method DownloadImages(jobs: seq<Message>, fetches: seq<Fetch>) returns (handoff: seq<Materialization>, logged: seq<Message>)
    requires |fetches| == |jobs|
    ensures handoff == Delivered(jobs, fetches)
    ensures logged == Dropped(jobs, fetches)
    ensures |handoff| + |logged| == |jobs|
  {
    handoff, logged := [], [];
    for i := 0 to |jobs|
      invariant handoff == Delivered(jobs[..i], fetches[..i])
      invariant logged == Dropped(jobs[..i], fetches[..i])
      invariant |handoff| + |logged| == i
    {
      assert jobs[..i + 1][..i] == jobs[..i] && fetches[..i + 1][..i] == fetches[..i];
      var forwarded := Forward(jobs[i], fetches[i]);
      if forwarded.Some? {
        handoff := handoff + [forwarded.value];
      } else {
        logged := logged + [jobs[i]];
      }
    }
    assert jobs[..|jobs|] == jobs && fetches[..|jobs|] == fetches;
  }

  /**
   * A job's bytes reach the materializer exactly when its fetch succeeded;
   * a failed fetch is logged, and (when no two jobs share a file) its file
   * is the only one that goes missing.
   */
  lemma DeliveredExactly(jobs: seq<Message>, fetches: seq<Fetch>, i: nat)
    requires |fetches| == |jobs| && i < |jobs|
    requires forall a, b | 0 <= a < b < |jobs| :: jobs[a].savePath != jobs[b].savePath
    ensures fetches[i].Fetched? ==> Materialization(fetches[i].body, jobs[i].savePath) in Delivered(jobs, fetches)
    ensures !fetches[i].Fetched? <==> jobs[i].savePath !in SavePaths(Delivered(jobs, fetches))
    ensures !fetches[i].Fetched? <==> jobs[i] in Dropped(jobs, fetches)
  {
    var d := Delivered(jobs, fetches);
    if fetches[i].Fetched? {
      var k := DeliveredHas(jobs, fetches, i);
      assert SavePaths(d)[k] == jobs[i].savePath;
      if jobs[i] in Dropped(jobs, fetches) {
        var k' :| 0 <= k' < |Dropped(jobs, fetches)| && Dropped(jobs, fetches)[k'] == jobs[i];
        var a := DroppedSource(jobs, fetches, k');
      }
    } else {
      DroppedHas(jobs, fetches, i);
      if jobs[i].savePath in SavePaths(d) {
        var k :| 0 <= k < |SavePaths(d)| && SavePaths(d)[k] == jobs[i].savePath;
        var a := PathSource(jobs, fetches, k);
      }
    }
  }

  /** A successful fetch's bytes are delivered, at some position of the hand-off. */
  lemma {:induction false} DeliveredHas(jobs: seq<Message>, fetches: seq<Fetch>, i: nat) returns (k: nat)
    requires |fetches| == |jobs| && i < |jobs| && fetches[i].Fetched?
    ensures k < |Delivered(jobs, fetches)|
    ensures Delivered(jobs, fetches)[k] == Materialization(fetches[i].body, jobs[i].savePath)
  {
    var n := |jobs| - 1;
    if i < n {
      k := DeliveredHas(jobs[..n], fetches[..n], i);
    } else {
      k := |Delivered(jobs[..n], fetches[..n])|;
    }
  }

  /** A failed fetch's job is among the logged ones. */
  lemma {:induction false} DroppedHas(jobs: seq<Message>, fetches: seq<Fetch>, i: nat)
    requires |fetches| == |jobs| && i < |jobs| && !fetches[i].Fetched?
    ensures jobs[i] in Dropped(jobs, fetches)
  {
    var n := |jobs| - 1;
    if i < n {
      DroppedHas(jobs[..n], fetches[..n], i);
    }
  }

  /** Each delivered item comes from a job whose fetch succeeded. */
  lemma {:induction false} PathSource(jobs: seq<Message>, fetches: seq<Fetch>, k: nat) returns (a: nat)
    requires |fetches| == |jobs| && k < |Delivered(jobs, fetches)|
    ensures a < |jobs| && fetches[a].Fetched?
    ensures Delivered(jobs, fetches)[k] == Materialization(fetches[a].body, jobs[a].savePath)
  {
    var n := |jobs| - 1;
    if k < |Delivered(jobs[..n], fetches[..n])| {
      a := PathSource(jobs[..n], fetches[..n], k);
    } else {
      a := n;
    }
  }

  /** Each dropped job is a job whose fetch failed. */
  lemma {:induction false} DroppedSource(jobs: seq<Message>, fetches: seq<Fetch>, k: nat) returns (a: nat)
    requires |fetches| == |jobs| && k < |Dropped(jobs, fetches)|
    ensures a < |jobs| && !fetches[a].Fetched?
    ensures Dropped(jobs, fetches)[k] == jobs[a]
  {
    var n := |jobs| - 1;
    if k < |Dropped(jobs[..n], fetches[..n])| {
      a := DroppedSource(jobs[..n], fetches[..n], k);
    } else {
      a := n;
    }
  }

  // ---------------------------------------------------------------------------
  // process_image: draining the hand-off channel into the worker pool

  /** One `try_recv` on the hand-off channel. */
  datatype TryRecv = Received(item: Materialization) | Empty | Disconnected

  /** What the drain loop does with the pool. */
  datatype PoolEvent =
    | Execute(job: Materialization) // `pool.execute`: decode and re-encode as PNG
    | Backoff                       // the channel was empty: sleep and poll again
    | JoinPool                      // `pool.join`: wait for every executed job

  /** The items a sequence of polls receives, in order. */
  function Items(polls: seq<TryRecv>): seq<Materialization> {
    if polls == [] then []
    else Items(polls[..|polls| - 1]) + (if polls[|polls| - 1].Received? then [polls[|polls| - 1].item] else [])
  }

  /** The jobs a pool log executes, in order. */
  function Executed(log: seq<PoolEvent>): seq<Materialization> {
    if log == [] then []
    else Executed(log[..|log| - 1]) + (if log[|log| - 1].Execute? then [log[|log| - 1].job] else [])
  }

  /** The index of the first `Disconnected` poll, or the number of polls. */
  function FirstDisconnect(polls: seq<TryRecv>): (k: nat)
    ensures k <= |polls|
    ensures forall j | 0 <= j < k :: !polls[j].Disconnected?
    ensures k < |polls| ==> polls[k].Disconnected?
  {
    if polls == [] then 0
    else if polls[0].Disconnected? then 0
    else 1 + FirstDisconnect(polls[1..])
  }

  /**
   * `process_image`: poll the channel; a received item is handed to the pool,
   * an empty channel costs a sleep and another poll, and a disconnected one
   * ends the loop, after which the pool is joined. If the polls run out
   * before a disconnect, the real loop would keep polling; the model stops
   * without joining.
   */
  method ProcessImage(polls: seq<TryRecv>) returns (log: seq<PoolEvent>, joined: bool)
    ensures joined <==> Disconnected in polls
    ensures |log| == FirstDisconnect(polls) + (if joined then 1 else 0)
    ensures forall j | 0 <= j < FirstDisconnect(polls) ::
      log[j] == (if polls[j].Received? then Execute(polls[j].item) else Backoff)
    ensures Executed(log) == Items(polls[..FirstDisconnect(polls)])
    ensures joined ==> log[|log| - 1] == JoinPool
  {
    log := [];
    var i := 0;
    while true
      invariant i <= |polls|
      invariant forall j | 0 <= j < i :: !polls[j].Disconnected?
      invariant |log| == i
      invariant forall j | 0 <= j < i :: log[j] == (if polls[j].Received? then Execute(polls[j].item) else Backoff)
      invariant Executed(log) == Items(polls[..i])
      decreases |polls| - i
    {
      if i == |polls| {
        assert polls[..i] == polls;
        return log, false;
      }
      assert polls[..i + 1][..i] == polls[..i];
      if polls[i].Disconnected? {
        break;
      } else if polls[i].Received? {
        log := log + [Execute(polls[i].item)];
      } else {
        log := log + [Backoff];
      }
      i := i + 1;
    }
    log := log + [JoinPool];
    joined := true;
  }

  // ---------------------------------------------------------------------------
  // The browser proxy setting

  const HttpPrefix: string := "http://"

  /** The browser's manual proxy: the same host for plain and TLS traffic. */
  datatype ProxyConfig = Manual(httpProxy: Option<string>, sslProxy: Option<string>)

  datatype ProxyError = MissingHttpPrefix

  /**
   * The proxy set on the browser capabilities in `main`: no setting, no
   * proxy; otherwise the setting with its leading `http://` removed, used for
   * both slots. A setting without that prefix makes the `unwrap` panic.
   */
  function BrowserProxy(httpProxy: Option<string>): (r: Result<Option<ProxyConfig>, ProxyError>)
    ensures httpProxy.None? ==> r == Success(None)
    ensures r.Failure? ==> httpProxy.Some? && !(|httpProxy.value| >= |HttpPrefix| && httpProxy.value[..|HttpPrefix|] == HttpPrefix)
    ensures httpProxy.Some? && r.Success? ==>
      r.value.Some? && r.value.value.httpProxy.Some? && r.value.value.sslProxy == r.value.value.httpProxy &&
      HttpPrefix + r.value.value.httpProxy.value == httpProxy.value
  {
    match httpProxy
    case None => Success(None)
    case Some(p) =>
      if |p| >= |HttpPrefix| && p[..|HttpPrefix|] == HttpPrefix
      then Success(Some(Manual(Some(p[|HttpPrefix|..]), Some(p[|HttpPrefix|..]))))
      else Failure(MissingHttpPrefix)
  }

  /** Prefixing a host with `http://` and then configuring gives that host in both slots. */
  lemma BrowserProxyOfHost(host: string)
    ensures BrowserProxy(Some(HttpPrefix + host)) == Success(Some(Manual(Some(host), Some(host))))
  {
  }

  /** A configured proxy host put back behind `http://` gives the original setting; failure means the prefix was missing. */
  lemma BrowserProxyInverse(p: string)
    ensures BrowserProxy(Some(p)).Success? ==>
      BrowserProxy(Some(p)).value.Some? &&
      BrowserProxy(Some(p)).value.value.httpProxy == BrowserProxy(Some(p)).value.value.sslProxy &&
      HttpPrefix + BrowserProxy(Some(p)).value.value.httpProxy.value == p
    ensures BrowserProxy(Some(p)).Failure? <==> !(exists host: string :: p == HttpPrefix + host)
  {
  }

  // ---------------------------------------------------------------------------
  // Across stages

  function ChapterDirs(root: Path, comicName: string, items: seq<ChapterInfo>): seq<Path> {
    seq(|items|, c requires 0 <= c < |items| => ChapterDir(root, comicName, items[c]))
  }

  /** The batches a scan sends are addressed to the directories of the chapters scanned so far, in catalog order. */
  lemma SentDirs(root: Path, info: ComicInfo, pages: seq<ChapterPage>, sent: seq<Messages>, outcome: Outcome<ScanError>)
    requires |pages| == |info.items| && ScanReport(root, info, pages, sent, outcome)
    ensures Dirs(sent) == ChapterDirs(root, info.comicName, info.items[..|sent|])
    ensures outcome.Pass? ==> Dirs(sent) == ChapterDirs(root, info.comicName, info.items)
  {
  }

  /**
   * No image job of the run writes into the directory of the chapter that
   * stopped the scan, nor of any chapter after it (chapter names being
   * distinct, as directories must be).
   */
  lemma NoJobsFromFailedChapterOn(root: Path, info: ComicInfo, pages: seq<ChapterPage>, sent: seq<Messages>, outcome: Outcome<ScanError>, c: nat, j: nat)
    requires |pages| == |info.items| && ScanReport(root, info, pages, sent, outcome)
    requires forall a, b | 0 <= a < b < |info.items| :: info.items[a].chapterName != info.items[b].chapterName
    requires |sent| <= c < |info.items|
    requires j < |FlattenAll(sent)|
    ensures FlattenAll(sent)[j].savePath != []
    ensures Parent(FlattenAll(sent)[j].savePath) != ChapterDir(root, info.comicName, info.items[c])
  {
    FlattenAllParents(sent, j);
    SentDirs(root, info, pages, sent, outcome);
    var d := Parent(FlattenAll(sent)[j].savePath);
    var a :| 0 <= a < |sent| && Dirs(sent)[a] == d;
    assert d == ChapterDir(root, info.comicName, info.items[a]);
    assert ChapterDir(root, info.comicName, info.items[a])[|root| + 1] == info.items[a].chapterName;
    assert ChapterDir(root, info.comicName, info.items[c])[|root| + 1] == info.items[c].chapterName;
  }

  /**
   * Across the whole run, a fetch that fails costs exactly its own file: every
   * other image of every sent chapter still reaches the materializer.
   */
  lemma OneFailedFetchCostsOneFile(root: Path, info: ComicInfo, pages: seq<ChapterPage>, sent: seq<Messages>, outcome: Outcome<ScanError>, fetches: seq<Fetch>, i: nat)
    requires |pages| == |info.items| && ScanReport(root, info, pages, sent, outcome)
    requires forall a, b | 0 <= a < b < |info.items| :: info.items[a].chapterName != info.items[b].chapterName
    requires |fetches| == |FlattenAll(sent)| && i < |fetches|
    ensures !fetches[i].Fetched? <==> FlattenAll(sent)[i].savePath !in SavePaths(Delivered(FlattenAll(sent), fetches))
  {
    var jobs := FlattenAll(sent);
    SentDirs(root, info, pages, sent, outcome);
    forall a, b | 0 <= a < b < |sent|
      ensures sent[a].savePath != sent[b].savePath
    {
      assert sent[a].savePath == Dirs(sent)[a] == ChapterDir(root, info.comicName, info.items[a]);
      assert sent[b].savePath == Dirs(sent)[b] == ChapterDir(root, info.comicName, info.items[b]);
      assert ChapterDir(root, info.comicName, info.items[a])[|root| + 1] == info.items[a].chapterName;
      assert ChapterDir(root, info.comicName, info.items[b])[|root| + 1] == info.items[b].chapterName;
    }
    forall a, b | 0 <= a < b < |jobs|
      ensures jobs[a].savePath != jobs[b].savePath
    {
      FlattenAllPathsDistinct(sent, a, b);
    }
    DeliveredExactly(jobs, fetches, i);
  }
}
