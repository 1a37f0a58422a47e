# copymanga_downloader, modelled in Dafny

The downloader drives a browser through a comic's catalog page. It reads the
title and the chapter anchors. It then visits each chapter in catalog order,
scrolls until every page has loaded, collects the image URLs and checks them
against the declared page count. Each chapter that passes becomes a batch for
the directory `root/comic_name/chapter_name`.

A receiving stage creates each batch's directory and flattens the batch into
image jobs named `00001.png`, `00002.png`, … in page order. It then forwards
the jobs to a fetch stage. A fetch whose request and body read both succeed
hands `(bytes, save_path)` to a materializer, whatever the HTTP status. A
fetch whose request or body read fails is only logged. The materializer drains its
channel into a worker pool. It polls, backs off while the channel is empty,
stops once the channel is closed, and then joins the pool.

The model has four modules:

- `Wrappers` (`wrappers.dfy`): `Option`, `Result`, and `Outcome`, a result that carries nothing on success.
- `Format` (`format.dfy`): Rust's `format!("{n:05}")` for a `usize`, which is the shortest decimal padded with `'0'` to a *minimum* width. It also defines the inverse reading `Value` and the byte-wise order in which file names sort.
- `Comic` (`comic.dfy`, for `src/comic.rs`): the browser side.
  - Flattening a batch.
  - Assembling the catalog.
  - The scroll loop.
  - Collecting image sources.
  - The chapter scan.
- `Pipeline` (`pipeline.dfy`, for `src/main.rs`): the stage wiring.
  - `process_msgs`, as an event log.
  - The fetch rule of `download_images`.
  - The drain loop of `process_image`.
  - The browser proxy setting.
  - Properties that span stages.

Every browser, network or file-system call becomes an oracle value passed in.
Examples are a page that loads or not, an attribute that is present or
absent, successive index readings, and a fetch outcome. Channels are modelled
as the sequences of what passes through them. Each stage is a method whose
result is tied to a specification function, and the lemmas state what the
program promises about those functions.

Two loops in the program can run forever: scrolling that never reaches the
page count, and draining a channel that is never closed. For these the model
consumes a finite sequence of readings. It reports that the readings ran out
(`Stalled`, or `joined == false`) instead of looping.

Four behaviours of the code are easy to misread:

- A scan error (navigation, missing element, or a page-count mismatch) ends only the spawned scan task. Its `Result` is never awaited. The batch channel then closes, `process_msgs` ends normally, and the run exits successfully with the earlier chapters downloaded. The model reports the error as the scan's `Outcome` and shows that no job targets the failed chapter or any later one. It does not model a failing process exit.
- A decode or encode panic inside a pool worker does not end the process. The thread pool replaces the panicked worker and carries on. In any case, the worker's body is not modelled (see below).
- An HTTP error status is not a failed fetch. `send()` succeeds for any status, and `bytes()` reads the error page, so a 404 body is handed to the materializer like an image (`Fetch` calls it `Fetched`). The worker creates the file before decoding, and the decode `unwrap` then panics. A 404 therefore leaves an empty file, not a missing one. `OneFailedFetchCostsOneFile` speaks of request and body-read failures only.
- File names use a *minimum* width of five. Names sort in page order only for pages 1 to 99999 (`ImageFileNamesSorted`). Page 100000 is written `100000.png`, which sorts before `99999.png` (`ImageFileNamesUnsortedPastWidth`).

## Model

| member | source | states |
|---|---|---|
| Format.ZeroPad | src/comic.rs:28 | the rendering is at least `width` long and never shorter than the digits of `n`: it is exactly `width` long, or it is the digits of `n` unpadded (the width is a minimum and never truncates) |
| Format.Digits | src/comic.rs:28 | the decimal digits of `n` are all digits, non-empty, and have no leading `'0'` unless `n` is 0 |
| Format.ValueOfDigits | src/comic.rs:28 | reading the decimal rendering of `n` gives back `n` |
| Format.ValueOfZeroPad | src/comic.rs:28 | the padded rendering is all digits and reads back as `n`; padding does not change the number |
| Format.ZeroPadInjective | src/comic.rs:28 | distinct numbers never give the same padded rendering |
| Format.ZeroPadLength | src/comic.rs:28 | the padded rendering is at least `width` long, and exactly `width` long iff `n < 10^width`; the width is a minimum and never truncates |
| Format.ZeroPadOrdered | src/comic.rs:28 | below `10^width`, a smaller number's rendering sorts byte-wise before a larger one's |
| Comic.ImageFileName | src/comic.rs:28 | the file name is at least five digits followed by `.png` |
| Comic.ImageFileNameRoundTrip | src/comic.rs:28 | `{n:05}.png` parses back to `n` |
| Comic.ImageFileNameInjective | src/comic.rs:28 | different page numbers give different file names |
| Comic.ImageFileNamesSorted | src/comic.rs:24-30 | for page numbers `a < b < 100000`, the file name of `a` sorts before that of `b` |
| Comic.ImageFileNamesUnsortedPastWidth | src/comic.rs:28 | `100000.png` sorts before `99999.png`: past five digits, name order is not page order |
| Comic.FlattenMessage | src/comic.rs:22-33 | one job per URL, in URL order: the k-th job keeps the k-th URL and writes `save_path/{k+1:05}.png`; an empty batch gives no jobs |
| Comic.FlattenedNumbering | src/comic.rs:24-30 | every job's file is inside the batch directory, and its name reads back as its 1-based position (numbering starts at 1 with no gaps) |
| Comic.FlattenedPathsDistinct | src/comic.rs:24-30 | no two jobs of one batch write the same file |
| Comic.FlattenedNamesSorted | src/comic.rs:24-30 | in a batch of fewer than 100000 URLs, file names strictly increase with position |
| Comic.SetPath | src/comic.rs:68 | the new URL has the given path and keeps the scheme, host and query |
| Comic.ProcessCatalog | src/comic.rs:50-82 | a page that does not load fails with a navigation error, and a missing title or chapter list with an element error. Success happens iff every anchor has both `href` and `title`, and a missing one is an attribute error. On success there is one chapter per anchor, in anchor order, named by its `title`, and its URL is the catalog URL with only the path replaced by `href` |
| Comic.PagePrepare | src/comic.rs:125-142 | the loop ends iff the count is 0 or some reading equals it, and then returns the count. With a count of 0 no round runs. Otherwise at least one round runs, and the loop stops at the first reading equal to the count. If the readings run out, all of them were used |
| Comic.GetImageList | src/comic.rs:144-152 | succeeds iff every image has a `data-src`; the result lists them in document order, and a missing one is an error |
| Comic.ChapterResult | src/comic.rs:103-111 | a chapter that scans cleanly yields exactly its declared page count of URLs |
| Comic.ScanChapters | src/comic.rs:99-121 | the batches sent belong to the leading chapters that scanned cleanly, in catalog order, each for `root/comic_name/chapter_name`. The scan passes iff all chapters were sent; otherwise it reports the error of the first chapter not sent |
| Comic.SentBatchesConsistent | src/comic.rs:108-117 | every sent batch holds exactly the chapter's declared page count of URLs |
| Comic.MismatchStopsScan | src/comic.rs:108-111 | a chapter whose image count differs from its declared count is never sent, nor is any chapter after it. The scan fails, with the consistency error when it is the first bad chapter |
| Pipeline.FirstUnwritable | src/main.rs:91-92 | the first batch whose directory cannot be created; all earlier ones can |
| Pipeline.ProcessMsgs | src/main.rs:86-101 | the log is the batch-by-batch receive log up to the first unwritable directory, then the job sender is dropped. The download task is awaited iff no directory failed |
| Pipeline.HandleBatch | src/main.rs:92-96 | one batch appends the creation of its directory, then one forwarded event per flattened job, in order |
| Pipeline.ForwardJobs | src/main.rs:94-96 | the loop appends one forwarded event per job, in job order, and nothing else |
| Pipeline.ReceiveLogProjections | src/main.rs:91-96 | the receive log forwards exactly the concatenation, in batch order, of each batch's flattened jobs, and creates exactly the batches' directories in order |
| Pipeline.ReceiveLogOrdered | src/main.rs:91-96 | in the receive log, every forwarded job's directory was created earlier, and nothing but creations and forwards happens |
| Pipeline.ProcessMsgsLogFacts | src/main.rs:91-99 | the whole log of `process_msgs` forwards the concatenated jobs and creates the batch directories, each job after its directory. Closing the sender and awaiting come only after every batch |
| Pipeline.FlattenAllParents | src/main.rs:92-95 | every job of the stream writes into one of the batch directories |
| Pipeline.FlattenAllPathsDistinct | src/main.rs:91-96 | batches in distinct directories give a job stream in which no two jobs write the same file |
| Pipeline.Forward | src/main.rs:121-129 | a job is forwarded iff its request and body read succeeded, and what is forwarded is that body with the job's save path |
| Pipeline.DownloadImages | src/main.rs:116-133 | the hand-off receives, in job order, `(bytes, save_path)` for exactly the jobs whose fetch succeeded, and the log lists the others; each job goes to exactly one of the two |
| Pipeline.DeliveredExactly | src/main.rs:121-129 | a job's bytes reach the hand-off iff both the request and the body read succeeded; otherwise the job is logged, and (with distinct files) its file is the one missing from the hand-off |
| Pipeline.ProcessImage | src/main.rs:139-162 | each received item is executed exactly once, in receive order, and an empty poll only backs off. The loop stops at the first disconnect, and the pool is joined iff a disconnect came, as the last event |
| Pipeline.BrowserProxy | src/main.rs:49-56 | no setting gives no proxy. A setting that starts with `http://` gives one host in both the http and the ssl slot, and `http://` plus that host is the setting. Otherwise it fails, which is the `unwrap` panic |
| Pipeline.BrowserProxyOfHost | src/main.rs:49-56 | setting `http://host` puts `host` in both the http and the ssl proxy slots |
| Pipeline.BrowserProxyInverse | src/main.rs:49-56 | a successful configuration uses the same host in both slots, and putting `http://` back gives the setting. It fails (the `unwrap` panic) iff the setting does not start with `http://` |
| Pipeline.SentDirs | src/comic.rs:112-117 | the sent batches' directories are `root/comic_name/chapter_name` of the chapters scanned so far, in catalog order, and of all chapters when the scan passes |
| Pipeline.NoJobsFromFailedChapterOn | src/comic.rs:102-117 | with distinct chapter names, no image job of the run writes into the directory of the chapter that stopped the scan or of any later chapter |
| Pipeline.OneFailedFetchCostsOneFile | src/main.rs:121-129 | across the run, a job's file is missing from the hand-off iff its own request or body read failed; such a failure costs no other file (an HTTP error status is not such a failure) |

## Left out

- Starting and stopping the driver process (src/driver_helper.rs) and loading settings from a file (src/settings.rs) are not part of this model. The proxy setting is a parameter.
- A missing anchor `href` or `title` and a missing `data-src` are `unwrap` panics in the code. The model reports them as errors (`AnchorAttributeMissing`, `ImageSourceMissing`). The catalog panic ends the main task, and the image one ends the scan task.
- WebDriver calls are oracle values. Only these failures are modelled: a page that fails to load, a missing catalog element, a missing anchor attribute, a missing `data-src`, and scrolling that never reaches the count. Failing to find the index or count elements, text reads, key presses and `driver.quit` failing are not modelled.
- `Url::parse` of the catalog URL and the URL's string form are not modelled. The model takes the parsed URL. `set_path` replaces the path field as given. For `http` and `https` URLs the real `Url::set_path` also adds a leading `/` to a path that lacks one, and it percent-encodes; neither is modelled, nor is the fragment.
- Paths are lists of components, and `join` appends one. Absolute components and separators inside names are not modelled.
- Concurrency and scheduling: tokio tasks, the order in which fetch tasks finish, `spawn_blocking`, the thread pool, and the bounded capacity (30) of the hand-off channel. The model runs fetches in job order and treats each channel as the sequence of what passes through it.
- `tx.send` failing because a receiver was dropped is not modelled. Sends always succeed.
- Building the HTTP client and passing the full proxy string to it are not modelled. Neither are the requests themselves; each fetch is given as an outcome.
- Sleeps, the `SPEED` constant and the back-off duration are timing only.
- `.parse().unwrap()` of the page count and index texts: the readings are given as numbers, so unparsable text is not modelled.
- The worker body of `process_image` (creating the file, sniffing the format, decoding, re-encoding as PNG) and its panics are not modelled. `Execute` records the hand-over to the pool.
- Pipeline.ProcessImage: when the polls run out before a disconnect, the real loop would keep polling forever. The model stops and reports `joined == false`.
- Comic.PagePrepare: when the readings run out before one equals the count, the real loop would keep scrolling forever. The model reports `Stalled`.
- Logging and the commented-out legacy code are not modelled.
