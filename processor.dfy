/**
 * The batch processor: the background loop that drains the entry queue into
 * bounded batches, stamps them, sends them with bounded retry, persists a
 * batch whose send failed, and replays stored batches oldest-first after a
 * successful send.
 *
 * The network is an oracle: the k-th POST this processor makes succeeds
 * exactly when network(k). Deleting files is an oracle in the same way, and
 * every delay is recorded instead of waited for.
 */
module Processor {
  import opened LogEntries
  import opened NameOrder
  import opened FileStore
  import Options

  const MaxRetries := 3
  const InitialDelaySeconds := 2

  datatype Delay =
    | Backoff(seconds: int)   // between two attempts of one send
    | FlushWait(ticks: int)   // the flush interval after a loop pass

  /** What the processor reports about itself (written to standard error and,
      best-effort, posted as a single entry). */
  datatype Diagnostic =
    | AttemptFailed(attempt: nat, of: nat)   // error: a non-success status or a network error
    | SavedToFallback                        // warning: the batch went to the fallback store
    | LoopFailure                            // error: an exception escaped the loop body

  // ---------------------------------------------------------------------------
  // Specification of one send

  /** The index, counted from start, of the first of the MaxRetries attempts
      that succeeds, or MaxRetries when none does. */
  function FirstSuccess(network: nat -> bool, start: nat, i: nat): (k: nat)
    requires i <= MaxRetries
    ensures i <= k <= MaxRetries
    decreases MaxRetries - i
  {
    if i == MaxRetries then MaxRetries
    else if network(start + i) then i
    else FirstSuccess(network, start, i + 1)
  }

  /** The attempt FirstSuccess finds succeeds, and every attempt before it failed. */
  lemma {:induction false} FirstSuccessIsFirst(network: nat -> bool, start: nat, i: nat)
    requires i <= MaxRetries
    ensures var k := FirstSuccess(network, start, i);
      && (k < MaxRetries ==> network(start + k))
      && forall n :: start + i <= n < start + k ==> !network(n)
    decreases MaxRetries - i
  {
    if i < MaxRetries && !network(start + i) {
      FirstSuccessIsFirst(network, start, i + 1);
    }
  }

  /** The backoff delays that follow the first n failed attempts: the delay
      starts at InitialDelaySeconds and doubles, and no delay follows the last attempt. */
  function Backoffs(n: nat): (r: seq<Delay>)
    requires n < MaxRetries
    ensures |r| == n
  {
    if n == 0 then [] else Backoffs(n - 1) + [Backoff(InitialDelaySeconds * Pow2(n - 1))]
  }

  function Pow2(n: nat): nat {
    if n == 0 then 1 else 2 * Pow2(n - 1)
  }

  function Failures(n: nat): (r: seq<Diagnostic>)
    ensures |r| == n
    ensures forall j :: 0 <= j < n ==> r[j] == AttemptFailed(j + 1, MaxRetries)
  {
    if n == 0 then [] else Failures(n - 1) + [AttemptFailed(n, MaxRetries)]
  }

  /** The observable run of one send starting at POST number start. */
  datatype SendRun = SendRun(ok: bool, attempts: nat, delays: seq<Delay>, diagnostics: seq<Diagnostic>)

  function SendSpec(network: nat -> bool, start: nat): SendRun {
    var k := FirstSuccess(network, start, 0);
    if k < MaxRetries then SendRun(true, k + 1, Backoffs(k), Failures(k))
    else SendRun(false, MaxRetries, Backoffs(MaxRetries - 1), Failures(MaxRetries))
  }

  /** At most three attempts; the send succeeds exactly when one of them does,
      and it stops at the first that does. */
  lemma SendAttemptsBounded(network: nat -> bool, start: nat)
    ensures var run := SendSpec(network, start);
      && 1 <= run.attempts <= MaxRetries
      && (run.ok <==> exists n :: start <= n < start + MaxRetries && network(n))
      && (run.ok ==> network(start + run.attempts - 1))
      && (forall n :: start <= n < start + run.attempts - 1 ==> !network(n))
      && (!run.ok ==> run.attempts == MaxRetries)
  {
    var k := FirstSuccess(network, start, 0);
    FirstSuccessIsFirst(network, start, 0);
    if exists n :: start <= n < start + MaxRetries && network(n) {
      var n :| start <= n < start + MaxRetries && network(n);
      assert k <= n - start;
    }
  }

  /** The delays of a failing send are exactly 2 s then 4 s; a send that
      succeeds at attempt n has waited the first n - 1 of them. */
  lemma SendBackoffSchedule(network: nat -> bool, start: nat)
    ensures var run := SendSpec(network, start);
      && (!run.ok ==> run.delays == [Backoff(2), Backoff(4)])
      && (run.ok ==> run.delays == [Backoff(2), Backoff(4)][..run.attempts - 1])
      && |run.diagnostics| == (if run.ok then run.attempts - 1 else MaxRetries)
  {
    assert Backoffs(1) == [Backoff(2)];
    assert Backoffs(2) == [Backoff(2), Backoff(4)];
  }

  /** Two runs one after the other: the POSTs, delays and errors of both, and
      success when both succeeded. */
  function Chain(a: SendRun, b: SendRun): SendRun {
    SendRun(a.ok && b.ok, a.attempts + b.attempts, a.delays + b.delays, a.diagnostics + b.diagnostics)
  }

  const NoSends := SendRun(true, 0, [], [])

  // ---------------------------------------------------------------------------
  // The flush wait

  const TicksPerMillisecond := 10_000

  /** The largest timeout a timer accepts, in milliseconds. */
  const MaxDelayMilliseconds := 0xFFFF_FFFE

  /** A TimeSpan's TotalMilliseconds cast to a long: truncated toward zero. */
  function WholeMilliseconds(ticks: int): int {
    if ticks >= 0 then ticks / TicksPerMillisecond else -((-ticks) / TicksPerMillisecond)
  }

  /** Task.Delay accepts an interval of -1 ms (wait until cancelled) up to the
      largest timeout, and throws for any other. */
  predicate DelayAccepts(ticks: int) {
    -1 <= WholeMilliseconds(ticks) <= MaxDelayMilliseconds
  }

  /** A positive interval up to the largest timeout is waited; an interval of
      -2 ms or less, which an unvalidated configuration can hold, is refused,
      and so is one beyond the largest timeout. */
  lemma DelayRange(ticks: int)
    ensures 0 <= ticks < (MaxDelayMilliseconds + 1) * TicksPerMillisecond ==> DelayAccepts(ticks)
    ensures ticks <= -2 * TicksPerMillisecond ==> !DelayAccepts(ticks)
    ensures ticks >= (MaxDelayMilliseconds + 1) * TicksPerMillisecond ==> !DelayAccepts(ticks)
  {
  }

  // ---------------------------------------------------------------------------
  // Specification of one replay pass

  /** Replay material: the batch a file loads as, when it loads as a non-empty batch. */
  function Replayable(files: map<string, FileContent>, name: string): (r: Option<Batch>)
    ensures r.Some? <==> name in files && DecodeBatch(files[name]).Some? && DecodeBatch(files[name]).value != []
    ensures r.Some? ==> DecodeBatch(files[name]) == r
  {
    if name in files then
      match DecodeBatch(files[name])
      case Some(b) => if b != [] then Some(b) else None
      case None => None
    else None
  }

  /** The batches delivered by replaying names in order, all sends succeeding. */
  function Replayed(files: map<string, FileContent>, names: seq<string>): seq<Batch> {
    if names == [] then []
    else
      var last := names[|names| - 1];
      Replayed(files, names[..|names| - 1])
        + (if Replayable(files, last).Some? then [Replayable(files, last).value] else [])
  }

  /** The names among the first ones that the deletion oracle lets go; the
      j-th name gets delete call number first + j. */
  function Deleted(names: seq<string>, first: nat, removable: nat -> bool): (r: set<string>)
    ensures forall n :: n in r ==> n in names
  {
    if names == [] then {}
    else
      Deleted(names[..|names| - 1], first, removable)
        + (if removable(first + |names| - 1) then {names[|names| - 1]} else {})
  }

  /** The sends of replaying names in order from POST number start: one send
      per file that loads as a non-empty batch; ok says all of them succeeded. */
  function PassSends(network: nat -> bool, files: map<string, FileContent>, names: seq<string>,
                     start: nat): SendRun
    decreases |names|
  {
    if names == [] then NoSends
    else
      var before := PassSends(network, files, names[..|names| - 1], start);
      if Replayable(files, names[|names| - 1]).Some?
      then Chain(before, SendSpec(network, start + before.attempts))
      else before
  }

  /** The sends of a pass that handled the first handled names of pending; a
      pass cut short by a send ends with the failed send of the next file. */
  function PassRun(network: nat -> bool, files: map<string, FileContent>, pending: seq<string>,
                   handled: nat, cut: bool, start: nat): SendRun
    requires handled <= |pending|
  {
    var done := PassSends(network, files, pending[..handled], start);
    if cut then Chain(done, SendSpec(network, start + done.attempts)) else done
  }

  /** A pass over one more name: the sends so far, then the last file's, if it has one. */
  lemma PassSendsLast(network: nat -> bool, files: map<string, FileContent>, names: seq<string>,
                      start: nat)
    requires names != []
    ensures var before := PassSends(network, files, names[..|names| - 1], start);
      PassSends(network, files, names, start) ==
        if Replayable(files, names[|names| - 1]).Some?
        then Chain(before, SendSpec(network, start + before.attempts)) else before
  {
  }

  lemma PassSendsSnoc(network: nat -> bool, files: map<string, FileContent>, names: seq<string>,
                      i: nat, start: nat)
    requires i < |names|
    ensures var before := PassSends(network, files, names[..i], start);
      PassSends(network, files, names[..i + 1], start) ==
        if Replayable(files, names[i]).Some?
        then Chain(before, SendSpec(network, start + before.attempts)) else before
  {
    var prefix := names[..i + 1];
    assert prefix[..|prefix| - 1] == names[..i] && prefix[|prefix| - 1] == names[i];
    PassSendsLast(network, files, prefix, start);
  }

  /** The send of the i-th file of a pass, if it has one, succeeded. */
  predicate SendOkAt(network: nat -> bool, files: map<string, FileContent>, names: seq<string>,
                     start: nat, i: nat)
    requires i < |names|
  {
    Replayable(files, names[i]).Some? ==>
      SendSpec(network, start + PassSends(network, files, names[..i], start).attempts).ok
  }

  /** One more file keeps a pass successful exactly when its send, if any, succeeds. */
  lemma PassSendsOkSnoc(network: nat -> bool, files: map<string, FileContent>, names: seq<string>,
                        start: nat)
    requires names != []
    ensures PassSends(network, files, names, start).ok <==>
      PassSends(network, files, names[..|names| - 1], start).ok
      && SendOkAt(network, files, names, start, |names| - 1)
  {
  }

  /** Looking at a longer pass does not change whether an earlier send succeeded. */
  lemma SendOkAtPrefix(network: nat -> bool, files: map<string, FileContent>, names: seq<string>,
                       start: nat, m: nat, i: nat)
    requires i < m <= |names|
    ensures SendOkAt(network, files, names[..m], start, i) == SendOkAt(network, files, names, start, i)
  {
    assert names[..m][..i] == names[..i];
  }

  /** The sends of a pass all succeeded exactly when the send of each file
      that loads as a non-empty batch did. */
  lemma {:induction false} PassSendsOk(network: nat -> bool, files: map<string, FileContent>,
                                       names: seq<string>, start: nat)
    ensures PassSends(network, files, names, start).ok <==>
      forall i :: 0 <= i < |names| ==> SendOkAt(network, files, names, start, i)
    decreases |names|
  {
    if names != [] {
      var m := |names| - 1;
      PassSendsOk(network, files, names[..m], start);
      PassSendsOkSnoc(network, files, names, start);
      forall i | 0 <= i < m
        ensures SendOkAt(network, files, names[..m], start, i) == SendOkAt(network, files, names, start, i)
      {
        SendOkAtPrefix(network, files, names, start, m, i);
      }
    }
  }

  /** Every batch a successful pass delivers took one to MaxRetries POSTs. */
  lemma {:induction false} PassSendsBounded(network: nat -> bool, files: map<string, FileContent>,
                                            names: seq<string>, start: nat)
    ensures var run := PassSends(network, files, names, start);
      && run.attempts <= MaxRetries * |Replayed(files, names)|
      && (run.ok ==> |Replayed(files, names)| <= run.attempts)
    decreases |names|
  {
    if names != [] {
      var prefix := names[..|names| - 1];
      PassSendsBounded(network, files, prefix, start);
      SendAttemptsBounded(network, start + PassSends(network, files, prefix, start).attempts);
    }
  }

  lemma ReplayedSnoc(files: map<string, FileContent>, names: seq<string>, i: nat)
    requires i < |names|
    ensures Replayed(files, names[..i + 1]) == Replayed(files, names[..i])
      + (if Replayable(files, names[i]).Some? then [Replayable(files, names[i]).value] else [])
  {
    assert names[..i + 1][..i] == names[..i];
  }

  lemma DeletedSnoc(names: seq<string>, i: nat, first: nat, removable: nat -> bool)
    requires i < |names|
    ensures Deleted(names[..i + 1], first, removable) ==
      Deleted(names[..i], first, removable) + (if removable(first + i) then {names[i]} else {})
  {
    assert names[..i + 1][..i] == names[..i];
  }

  /** In a pass over distinct names, the next name has not been deleted yet. */
  lemma NotYetDeleted(names: seq<string>, i: nat, first: nat, removable: nat -> bool)
    requires StrictlySorted(names) && i < |names|
    ensures names[i] !in Deleted(names[..i], first, removable)
  {
    forall j | 0 <= j < i ensures names[j] != names[i] {
      SortedDistinct(names, j, i);
    }
  }

  lemma ReplayableAfterDeletes(files: map<string, FileContent>, gone: set<string>, name: string)
    requires name !in gone
    ensures Replayable(files - gone, name) == Replayable(files, name)
  {
  }

  lemma MinusUnion(files: map<string, FileContent>, gone: set<string>, name: string)
    ensures (files - gone) - {name} == files - (gone + {name})
  {
  }

  // ---------------------------------------------------------------------------
  // Where an entry can be: in the batch in memory, delivered, or in a stored
  // file that reads back as a batch holding it

  ghost function Entries(batches: seq<Batch>): set<LogEntry> {
    set k, e | 0 <= k < |batches| && e in batches[k] :: e
  }

  ghost function StoredEntries(files: map<string, FileContent>): set<LogEntry> {
    set n, e | n in files && DecodeBatch(files[n]).Some? && e in DecodeBatch(files[n]).value :: e
  }

  ghost function Holding(batch: Batch, delivered: seq<Batch>, files: map<string, FileContent>): set<LogEntry> {
    (set e | e in batch) + Entries(delivered) + StoredEntries(files)
  }

  lemma EntriesAppend(a: seq<Batch>, b: seq<Batch>)
    ensures Entries(a + b) == Entries(a) + Entries(b)
  {
    forall e | e in Entries(a + b) ensures e in Entries(a) + Entries(b) {
      var k :| 0 <= k < |a + b| && e in (a + b)[k];
      if k >= |a| { assert e in b[k - |a|]; }
    }
    forall e | e in Entries(a) ensures e in Entries(a + b) {
      var k :| 0 <= k < |a| && e in a[k];
      assert e in (a + b)[k];
    }
    forall e | e in Entries(b) ensures e in Entries(a + b) {
      var k :| 0 <= k < |b| && e in b[k];
      assert e in (a + b)[|a| + k];
    }
  }

  /** A replayed pass delivers the batch of every file it holds readable. */
  lemma {:induction false} ReplayedHolds(files: map<string, FileContent>, names: seq<string>, n: string)
    requires n in names && Replayable(files, n).Some?
    ensures Replayable(files, n).value in Replayed(files, names)
    decreases |names|
  {
    var last := names[|names| - 1];
    if n != last {
      assert names == names[..|names| - 1] + [last];
      ReplayedHolds(files, names[..|names| - 1], n);
    }
  }

  /** Replaying loses nothing: an entry of a file the pass deleted was delivered. */
  lemma ReplayKeeps(files: map<string, FileContent>, names: seq<string>, first: nat, removable: nat -> bool)
    ensures StoredEntries(files) <=
      StoredEntries(files - Deleted(names, first, removable)) + Entries(Replayed(files, names))
  {
    var gone := Deleted(names, first, removable);
    forall e | e in StoredEntries(files)
      ensures e in StoredEntries(files - gone) + Entries(Replayed(files, names))
    {
      var n :| n in files && DecodeBatch(files[n]).Some? && e in DecodeBatch(files[n]).value;
      if n in gone {
        var b := DecodeBatch(files[n]).value;
        assert Replayable(files, n) == Some(b);
        ReplayedHolds(files, names, n);
        var k :| 0 <= k < |Replayed(files, names)| && Replayed(files, names)[k] == b;
        assert e in Replayed(files, names)[k];
        assert e in Entries(Replayed(files, names));
      } else {
        assert n in files - gone && (files - gone)[n] == files[n];
        assert e in StoredEntries(files - gone);
      }
    }
  }

  /** A new file loses no stored entry, and a readable one adds its batch's entries. */
  lemma AddFileKeeps(files: map<string, FileContent>, name: string, content: FileContent)
    requires name !in files
    ensures StoredEntries(files) <= StoredEntries(files[name := content])
    ensures DecodeBatch(content).Some? ==>
      (set e | e in DecodeBatch(content).value) <= StoredEntries(files[name := content])
  {
    var after := files[name := content];
    forall e | e in StoredEntries(files) ensures e in StoredEntries(after) {
      var n :| n in files && DecodeBatch(files[n]).Some? && e in DecodeBatch(files[n]).value;
      assert n in after && after[n] == files[n];
    }
    if DecodeBatch(content).Some? {
      forall e | e in DecodeBatch(content).value ensures e in StoredEntries(after) {
        assert name in after && after[name] == content;
      }
    }
  }

  /** Adding entries to the batch holds them too. */
  lemma HoldingGrows(b: Batch, extra: Batch, delivered: seq<Batch>, files: map<string, FileContent>)
    ensures Holding(b, delivered, files) + (set e | e in extra) == Holding(b + extra, delivered, files)
  {
  }

  /** Moving the next queued entry into the batch. */
  lemma DrainStep(q: seq<LogEntry>, b: seq<LogEntry>, i: nat, d: Deployment)
    requires i < |q|
    ensures q[i..][0] == q[i] && q[i..][1..] == q[i + 1..]
    ensures b + StampAll(q[..i + 1], d) == b + StampAll(q[..i], d) + [Stamp(q[i], d)]
  {
    StampAllSnoc(q, i, d);
  }

  /** Removing names from a directory leaves every other file as it was. */
  lemma MinusKeeps(files: map<string, FileContent>, gone: set<string>)
    ensures forall n :: n in files - gone ==> n in files && (files - gone)[n] == files[n]
  {
  }

  // ---------------------------------------------------------------------------
  // Steps of the loop, as relations between observed states

  /** What can be observed of the processor and its store: the directory, the
      delete calls, the delivered batches, the POSTs, the delays and the
      reported diagnostics. */
  datatype Observed = Observed(files: map<string, FileContent>, deletes: nat, delivered: seq<Batch>,
                               posts: nat, delays: seq<Delay>, diagnostics: seq<Diagnostic>)

  /** The state after sending batch b from state s: delivered when the send
      succeeds, with the send's POSTs, delays and errors. */
  function AfterSend(network: nat -> bool, s: Observed, b: Batch): Observed {
    var send := SendSpec(network, s.posts);
    s.(delivered := s.delivered + (if send.ok then [b] else []),
       posts := s.posts + send.attempts,
       delays := s.delays + send.delays,
       diagnostics := s.diagnostics + send.diagnostics)
  }

  /** The state after the wait that ends a pass: nothing once cancellation was
      requested; otherwise the flush interval, or the error Task.Delay raises
      for an interval it refuses. */
  function AfterWait(s: Observed, ticks: int, stopping: bool): Observed {
    if stopping then s
    else if DelayAccepts(ticks) then s.(delays := s.delays + [FlushWait(ticks)])
    else s.(diagnostics := s.diagnostics + [LoopFailure])
  }

  /** s1 is where a replay pass over names that started in s0 is after its
      first i files: each was deleted if the deletion oracle allowed it, each
      non-empty batch among them was sent successfully and delivered. */
  ghost predicate PassAt(network: nat -> bool, removable: nat -> bool, s0: Observed, s1: Observed,
                         names: seq<string>, i: nat)
  {
    && i <= |names|
    && s1.deletes == s0.deletes + i
    && s1.files == s0.files - Deleted(names[..i], s0.deletes, removable)
    && s1.delivered == s0.delivered + Replayed(s0.files, names[..i])
    && var run := PassSends(network, s0.files, names[..i], s0.posts);
       && run.ok
       && s1.posts == s0.posts + run.attempts
       && s1.delays == s0.delays + run.delays
       && s1.diagnostics == s0.diagnostics + run.diagnostics
  }

  /** s1 is what a whole replay pass that started in s0 left. It walked the
      batch files of the directory, pending, in ascending name order and
      handled the first handled of them; cut says that the pass ended at a
      file whose batch could not be sent. */
  ghost predicate PassDone(network: nat -> bool, removable: nat -> bool, s0: Observed, s1: Observed,
                           pending: seq<string>, handled: nat, cut: bool)
  {
    && handled <= |pending|
    && StrictlySorted(pending)
    && (forall n :: n in pending <==> n in s0.files && MatchesPattern(n))
    // every handled file got one delete call; nothing else was removed or changed
    && s1.deletes == s0.deletes + handled
    && s1.files == s0.files - Deleted(pending[..handled], s0.deletes, removable)
    // every handled file with a non-empty batch was sent successfully and delivered, in order
    && s1.delivered == s0.delivered + Replayed(s0.files, pending[..handled])
    && PassSends(network, s0.files, pending[..handled], s0.posts).ok
    // a pass cut short stopped at a non-empty batch whose send failed
    && (cut ==> handled < |pending| && Replayable(s0.files, pending[handled]).Some?)
    && var run := PassRun(network, s0.files, pending, handled, cut, s0.posts);
       && (run.ok <==> !cut)
       && s1.posts == s0.posts + run.attempts
       && s1.delays == s0.delays + run.delays
       && s1.diagnostics == s0.diagnostics + run.diagnostics
  }

  /** Handling the next file of a pass without a failed send, one delete call
      included, extends the pass by that file. */
  lemma PassAtNext(network: nat -> bool, removable: nat -> bool, s0: Observed, s1: Observed,
                   s2: Observed, names: seq<string>, i: nat)
    requires PassAt(network, removable, s0, s1, names, i) && i < |names|
    requires names[i] !in Deleted(names[..i], s0.deletes, removable)
    requires s2.deletes == s1.deletes + 1
    requires s2.files == if removable(s1.deletes) then s1.files - {names[i]} else s1.files
    requires var r := Replayable(s0.files, names[i]);
      var sent := if r.Some? then AfterSend(network, s1, r.value) else s1;
      && (r.Some? ==> SendSpec(network, s1.posts).ok)
      && s2.delivered == sent.delivered && s2.posts == sent.posts
      && s2.delays == sent.delays && s2.diagnostics == sent.diagnostics
    ensures PassAt(network, removable, s0, s2, names, i + 1)
  {
    PassAtNextFiles(removable, s0, s1.files, s2.files, names, i);
    ReplayedSnoc(s0.files, names, i);
    PassSendsSnoc(network, s0.files, names, i, s0.posts);
    var r := Replayable(s0.files, names[i]);
    var before := PassSends(network, s0.files, names[..i], s0.posts);
    if r.Some? {
      ExtendRun(s0, s1, s2, before, SendSpec(network, s1.posts), Replayed(s0.files, names[..i]), [r.value]);
    } else {
      ExtendRun(s0, s1, s2, before, NoSends, Replayed(s0.files, names[..i]), []);
    }
  }

  /** A run followed by a successful one is a successful run that took both. */
  lemma ExtendRun(s0: Observed, s1: Observed, s2: Observed, run: SendRun, next: SendRun,
                  done: seq<Batch>, more: seq<Batch>)
    requires run.ok && next.ok
    requires s1.delivered == s0.delivered + done && s1.posts == s0.posts + run.attempts
    requires s1.delays == s0.delays + run.delays && s1.diagnostics == s0.diagnostics + run.diagnostics
    requires s2.delivered == s1.delivered + more && s2.posts == s1.posts + next.attempts
    requires s2.delays == s1.delays + next.delays && s2.diagnostics == s1.diagnostics + next.diagnostics
    ensures var both := Chain(run, next);
      && both.ok && s2.delivered == s0.delivered + (done + more) && s2.posts == s0.posts + both.attempts
      && s2.delays == s0.delays + both.delays && s2.diagnostics == s0.diagnostics + both.diagnostics
  {
    ChainAssoc(s0.delays, run.delays, next.delays);
    ChainAssoc(s0.diagnostics, run.diagnostics, next.diagnostics);
    ChainAssoc(s0.delivered, done, more);
  }

  lemma ChainAssoc<T>(a: seq<T>, b: seq<T>, c: seq<T>)
    ensures a + b + c == a + (b + c)
  {
  }

  lemma PassAtNextFiles(removable: nat -> bool, s0: Observed, files1: map<string, FileContent>,
                        files2: map<string, FileContent>, names: seq<string>, i: nat)
    requires i < |names|
    requires files1 == s0.files - Deleted(names[..i], s0.deletes, removable)
    requires files2 == if removable(s0.deletes + i) then files1 - {names[i]} else files1
    ensures files2 == s0.files - Deleted(names[..i + 1], s0.deletes, removable)
  {
    DeletedSnoc(names, i, s0.deletes, removable);
    MinusUnion(s0.files, Deleted(names[..i], s0.deletes, removable), names[i]);
  }

  /** A pass that ends after its first i files without a failed send. */
  lemma PassEnds(network: nat -> bool, removable: nat -> bool, s0: Observed, s1: Observed,
                 names: seq<string>, i: nat)
    requires StrictlySorted(names) && forall n :: n in names <==> n in s0.files && MatchesPattern(n)
    requires PassAt(network, removable, s0, s1, names, i)
    ensures PassDone(network, removable, s0, s1, names, i, false)
  {
  }

  /** A pass that ends at its i-th file because that file's batch could not be sent. */
  lemma PassCut(network: nat -> bool, removable: nat -> bool, s0: Observed, s1: Observed, s2: Observed,
                names: seq<string>, i: nat)
    requires StrictlySorted(names) && forall n :: n in names <==> n in s0.files && MatchesPattern(n)
    requires PassAt(network, removable, s0, s1, names, i) && i < |names|
    requires Replayable(s0.files, names[i]).Some? && !SendSpec(network, s1.posts).ok
    requires s2 == AfterSend(network, s1, Replayable(s0.files, names[i]).value)
    ensures PassDone(network, removable, s0, s2, names, i, true)
  {
    var done := PassSends(network, s0.files, names[..i], s0.posts);
    var next := SendSpec(network, s1.posts);
    assert PassRun(network, s0.files, names, i, true, s0.posts) == Chain(done, next);
    ChainAssoc(s0.delays, done.delays, next.delays);
    ChainAssoc(s0.diagnostics, done.diagnostics, next.diagnostics);
  }

  /** A pass that handled no file, as a cancelled one, changed nothing. */
  lemma EmptyPassChangesNothing(network: nat -> bool, removable: nat -> bool, s0: Observed, s1: Observed,
                                pending: seq<string>)
    requires PassDone(network, removable, s0, s1, pending, 0, false)
    ensures s1 == s0
  {
    assert pending[..0] == [];
  }

  /** A delivered batch and the replay pass after it lose no entry. */
  lemma DeliveredKeeps(network: nat -> bool, removable: nat -> bool, s0: Observed, logs: Batch,
                       s1: Observed, pending: seq<string>, handled: nat, cut: bool)
    requires SendSpec(network, s0.posts).ok
    requires PassDone(network, removable, AfterSend(network, s0, logs), s1, pending, handled, cut)
    ensures Holding(logs, s0.delivered, s0.files) <= Holding([], s1.delivered, s1.files)
  {
    var replayed := Replayed(s0.files, pending[..handled]);
    var gone := Deleted(pending[..handled], s0.deletes, removable);
    assert s1.delivered == (s0.delivered + [logs]) + replayed;
    MinusKeeps(s0.files, gone);
    ReplayKeeps(s0.files, pending[..handled], s0.deletes, removable);
    EntriesAppend(s0.delivered + [logs], replayed);
    EntriesAppend(s0.delivered, [logs]);
    assert (set e | e in logs) <= Entries([logs]) by {
      forall e | e in logs ensures e in Entries([logs]) {
        assert e in [logs][0];
      }
    }
  }

  // ---------------------------------------------------------------------------

  class LogProcessor {
    const options: Options.LoggerOptions
    const deployment: Deployment
    const network: nat -> bool
    const removable: nat -> bool
    const store: Store

    /** The entries producers have written and the loop has not read yet. */
    var queue: seq<LogEntry>
    var batch: seq<LogEntry>
    /** The cancellation token has been signalled. */
    var stopping: bool
    /** POSTs made so far, and the batches the endpoint accepted, in order. */
    var posts: nat
    var delivered: seq<Batch>
    /** File deletions attempted so far. */
    var deletes: nat
    var delays: seq<Delay>
    var diagnostics: seq<Diagnostic>

    ghost predicate Valid()
      reads this, store
    {
      && store.Valid()
      && (|batch| <= options.batchSize || batch == [])
    }

    /** The observable state now. */
    ghost function Now(): Observed
      reads this, store
    {
      Observed(store.files, deletes, delivered, posts, delays, diagnostics)
    }

    constructor (options: Options.LoggerOptions, environmentNames: map<int, string>,
                 machineName: string, ipAddress: string,
                 network: nat -> bool, removable: nat -> bool,
                 tempPath: string, invalidFileNameChars: set<char>,
                 existing: map<string, FileContent>)
      ensures Valid() && fresh(store)
      ensures this.options == options && this.network == network && this.removable == removable
      ensures deployment == Deployment(options.projectName,
                                       Options.EnvironmentName(options.environment, environmentNames),
                                       machineName, ipAddress)
      ensures store.present && store.files == existing
      ensures store.directory == [tempPath, DirectoryName, SanitizeName(options.projectName, invalidFileNameChars)]
      ensures queue == [] && batch == [] && !stopping
      ensures posts == 0 && deletes == 0 && delivered == [] && delays == [] && diagnostics == []
    {
      this.options := options;
      deployment := Deployment(options.projectName,
                               Options.EnvironmentName(options.environment, environmentNames),
                               machineName, ipAddress);
      this.network := network;
      this.removable := removable;
      store := new Store(tempPath, options.projectName, invalidFileNameChars, existing);
      queue, batch, stopping := [], [], false;
      posts, deletes, delivered, delays, diagnostics := 0, 0, [], [], [];
    }

    /** A producer's non-blocking write to the open channel. */
    method Enqueue(e: LogEntry)
      modifies this
      ensures queue == old(queue) + [e]
      ensures batch == old(batch) && stopping == old(stopping) && posts == old(posts)
      ensures deletes == old(deletes) && delivered == old(delivered)
      ensures delays == old(delays) && diagnostics == old(diagnostics)
    {
      queue := queue + [e];
    }

    /** The host signals the cancellation token. */
    method RequestStop()
      modifies this
      ensures stopping
      ensures queue == old(queue) && batch == old(batch) && posts == old(posts)
      ensures deletes == old(deletes) && delivered == old(delivered)
      ensures delays == old(delays) && diagnostics == old(diagnostics)
    {
      stopping := true;
    }

    /** Sends a batch with up to MaxRetries attempts and doubling backoff. */
    method SendLogs(logs: Batch) returns (ok: bool)
      modifies this
      ensures var run := SendSpec(network, old(posts));
        && ok == run.ok
        && posts == old(posts) + run.attempts
        && delays == old(delays) + run.delays
        && diagnostics == old(diagnostics) + run.diagnostics
        && delivered == old(delivered) + (if ok then [logs] else [])
      ensures queue == old(queue) && batch == old(batch) && stopping == old(stopping)
      ensures deletes == old(deletes)
    {
      var delaySeconds := InitialDelaySeconds;
      var i := 0;
      while i < MaxRetries
        invariant 0 <= i <= MaxRetries
        invariant posts == old(posts) + i
        invariant forall n :: old(posts) <= n < posts ==> !network(n)
        invariant delaySeconds == InitialDelaySeconds * Pow2(if i < MaxRetries then i else MaxRetries - 1)
        invariant delays == old(delays) + Backoffs(if i < MaxRetries then i else MaxRetries - 1)
        invariant diagnostics == old(diagnostics) + Failures(i)
        invariant delivered == old(delivered)
        invariant queue == old(queue) && batch == old(batch) && stopping == old(stopping)
        invariant deletes == old(deletes)
      {
        var success := network(posts);
        posts := posts + 1;
        if success {
          delivered := delivered + [logs];
          assert FirstSuccess(network, old(posts), 0) == i;
          return true;
        }
        diagnostics := diagnostics + [AttemptFailed(i + 1, MaxRetries)];
        if i < MaxRetries - 1 {
          delays := delays + [Backoff(delaySeconds)];
          delaySeconds := delaySeconds * 2;
        }
        i := i + 1;
      }
      assert FirstSuccess(network, old(posts), 0) == MaxRetries;
      ok := false;
    }

    /** Deletes a stored file through the store, best-effort. */
    method RemoveFile(name: string)
      requires Valid()
      modifies this, store
      ensures Valid() && store.present == old(store.present)
      ensures deletes == old(deletes) + 1
      ensures store.files ==
        if store.present && removable(old(deletes)) then old(store.files) - {name} else old(store.files)
      ensures queue == old(queue) && batch == old(batch) && stopping == old(stopping)
      ensures posts == old(posts) && delivered == old(delivered)
      ensures delays == old(delays) && diagnostics == old(diagnostics)
    {
      store.DeleteBatch(name, removable(deletes));
      deletes := deletes + 1;
    }

    /** Replays one stored file: a file that does not load as a non-empty batch
        is deleted; otherwise its batch is sent and the file deleted on success.
        stop reports the failed send that ends the pass. */
    method ReplayFile(file: string) returns (stop: bool)
      requires Valid()
      modifies this, store
      ensures Valid() && store.present == old(store.present)
      ensures var r := Replayable(old(store.files), file);
        // a file with a batch gets one send, which stops the pass exactly when it fails
        && (r.Some? ==> (stop <==> !SendSpec(network, old(posts)).ok))
        && (r.None? ==> !stop)
        && (stop ==> posts == old(posts) + MaxRetries && forall n :: old(posts) <= n < posts ==> !network(n))
        // the new state: the send, then, unless it failed, one delete call
        && var sent := if r.Some? then AfterSend(network, old(Now()), r.value) else old(Now());
           Now() == if stop then sent
                    else sent.(deletes := old(deletes) + 1,
                               files := if store.present && removable(old(deletes))
                                        then old(store.files) - {file} else old(store.files))
      ensures queue == old(queue) && batch == old(batch) && stopping == old(stopping)
    {
      var logs := store.LoadBatch(file);
      if logs.None? || logs.value == [] {
        RemoveFile(file);
        return false;
      }
      var ok := SendLogs(logs.value);
      if !ok {
        SendAttemptsBounded(network, old(posts));
        return true;
      }
      RemoveFile(file);
      stop := false;
    }

    /** Replays the i-th file of a pass that started in s0, extending the pass
        by it unless the file's batch could not be sent. */
    method ReplayStep(file: string, ghost s0: Observed, ghost names: seq<string>, ghost i: nat)
      returns (stop: bool)
      requires Valid() && store.present
      requires StrictlySorted(names) && i < |names| && file == names[i]
      requires PassAt(network, removable, s0, Now(), names, i)
      modifies this, store
      ensures Valid() && store.present
      ensures !stop ==> PassAt(network, removable, s0, Now(), names, i + 1)
      ensures stop ==>
        && Replayable(s0.files, file).Some?
        && !SendSpec(network, old(posts)).ok
        && Now() == AfterSend(network, old(Now()), Replayable(s0.files, file).value)
      ensures queue == old(queue) && batch == old(batch) && stopping == old(stopping)
    {
      NotYetDeleted(names, i, s0.deletes, removable);
      ReplayableAfterDeletes(s0.files, Deleted(names[..i], s0.deletes, removable), file);
      stop := ReplayFile(file);
      if !stop {
        PassAtNext(network, removable, s0, old(Now()), Now(), names, i);
      }
    }

    /** One replay pass over the stored batches, oldest name first. It stops at
        the first batch it cannot send, and when cancellation is requested. */
    method FlushStoredLogs() returns (ghost pending: seq<string>, ghost handled: nat)
      requires Valid()
      modifies this, store
      ensures Valid() && store.present == old(store.present)
      ensures PassDone(network, removable, old(Now()), Now(), pending, handled,
                       handled < |pending| && !stopping)
      ensures stopping ==> handled == 0
      ensures queue == old(queue) && batch == old(batch) && stopping == old(stopping)
    {
      ghost var s0 := Now();
      var names := store.GetPendingFiles();
      pending := names;
      var i := 0;
      assert names[..0] == [];
      while i < |names|
        invariant Valid() && store.present == old(store.present)
        invariant names != [] ==> store.present
        invariant PassAt(network, removable, s0, Now(), names, i)
        invariant queue == old(queue) && batch == old(batch) && stopping == old(stopping)
        invariant stopping ==> i == 0
      {
        if stopping {
          break;
        }
        ghost var before := Now();
        var stop := ReplayStep(names[i], s0, names, i);
        if stop {
          PassCut(network, removable, s0, before, Now(), names, i);
          handled := i;
          return;
        }
        i := i + 1;
      }
      PassEnds(network, removable, s0, Now(), names, i);
      handled := i;
    }

    /** Reads entries while the batch has room and the queue has entries,
        stamping each with the deployment metadata. */
    method Drain() returns (ghost taken: nat)
      requires Valid()
      modifies this
      ensures Valid()
      ensures taken <= |old(queue)| && queue == old(queue)[taken..]
      ensures batch == old(batch) + StampAll(old(queue)[..taken], deployment)
      ensures taken > 0 ==> |batch| <= options.batchSize
      ensures queue != [] ==> |batch| >= options.batchSize
      ensures stopping == old(stopping) && posts == old(posts) && deletes == old(deletes)
      ensures delivered == old(delivered) && delays == old(delays) && diagnostics == old(diagnostics)
    {
      taken := 0;
      ghost var q0, b0 := queue, batch;
      while |batch| < options.batchSize && queue != []
        invariant Valid()
        invariant taken <= |q0| && queue == q0[taken..]
        invariant batch == b0 + StampAll(q0[..taken], deployment)
        invariant taken > 0 ==> |batch| <= options.batchSize
        invariant stopping == old(stopping) && posts == old(posts) && deletes == old(deletes)
        invariant delivered == old(delivered) && delays == old(delays) && diagnostics == old(diagnostics)
        decreases |queue|
      {
        var log := queue[0];
        DrainStep(q0, b0, taken, deployment);
        queue := queue[1..];
        batch := batch + [Stamp(log, deployment)];
        taken := taken + 1;
      }
    }

    /** s1 is what dispatching the non-empty batch b from state s0 leaves, name
        being the fresh fallback file name: the batch is sent; after a
        successful send the stored batches are replayed, after a failed one the
        batch is saved to the fallback file. threw reports the save's exception. */
    ghost predicate Dispatched(s0: Observed, b: Batch, s1: Observed, name: string, fault: SaveFault,
                               sent: bool, threw: bool, pending: seq<string>, handled: nat)
      reads this`batch, this`stopping, store`present
    {
      var sending := AfterSend(network, s0, b);
      && (sent <==> SendSpec(network, s0.posts).ok)
      // delivered: the batch is the next one the endpoint accepted, then a replay pass runs
      && (sent ==> !threw && batch == []
                   && PassDone(network, removable, sending, s1, pending, handled, handled < |pending| && !stopping)
                   // a cancelled service replays nothing
                   && (stopping ==> handled == 0))
      // not delivered: the batch goes to exactly one new file
      && (!sent ==> (threw <==> !store.present || fault != NoFault))
      && (!sent && !threw ==>
            && batch == []
            && s1 == sending.(files := s0.files[name := EncodeBatch(b)],
                              diagnostics := sending.diagnostics + [SavedToFallback]))
      // the save threw: the batch is kept for the next pass, at most a truncated file remains
      && (threw ==>
            && batch == b
            && s1 == sending.(files := if store.present && fault == WriteFails
                                       then s0.files[name := Unreadable] else s0.files,
                              diagnostics := sending.diagnostics + [LoopFailure]))
    }

    /** What happens to a non-empty batch. */
    method Dispatch(stamp: string, unique: string, fault: SaveFault)
      returns (ghost sent: bool, threw: bool, ghost pending: seq<string>, ghost handled: nat)
      requires Valid() && batch != []
      requires BatchFileName(stamp, unique) !in store.files
      modifies this, store
      ensures Valid() && store.present == old(store.present)
      ensures queue == old(queue) && stopping == old(stopping)
      ensures Dispatched(old(Now()), old(batch), Now(), BatchFileName(stamp, unique), fault,
                         sent, threw, pending, handled)
      // a saved batch reads back as the batch
      ensures !sent && !threw ==> DecodeBatch(store.files[BatchFileName(stamp, unique)]) == Some(old(batch))
      // no entry is lost: what was held before is held now
      ensures Holding(old(batch), old(delivered), old(store.files)) <= Holding(batch, delivered, store.files)
    {
      ghost var logs := batch;
      var ok := SendLogs(batch);
      assert Now() == AfterSend(network, old(Now()), logs);
      sent, threw := ok, false;
      pending, handled := [], 0;
      if ok {
        pending, handled := FlushStoredLogs();
        DeliveredKeeps(network, removable, old(Now()), logs, Now(), pending, handled,
                       handled < |pending| && !stopping);
        assert Holding(old(batch), old(delivered), old(store.files)) <= Holding([], delivered, store.files);
        batch := [];
      } else {
        assert delivered == old(delivered) && store.files == old(store.files) && batch == old(batch);
        threw := Fallback(stamp, unique, fault);
      }
    }

    /** Saves the batch to a fresh fallback file and reports it; a save that
        throws is reported as a loop failure and the batch is kept. */
    method Fallback(stamp: string, unique: string, fault: SaveFault) returns (threw: bool)
      requires Valid()
      requires BatchFileName(stamp, unique) !in store.files
      modifies this, store
      ensures Valid() && store.present == old(store.present)
      ensures queue == old(queue) && stopping == old(stopping) && posts == old(posts)
      ensures delivered == old(delivered) && delays == old(delays) && deletes == old(deletes)
      ensures threw <==> !store.present || fault != NoFault
      ensures Holding(old(batch), old(delivered), old(store.files)) <= Holding(batch, delivered, store.files)
      ensures !threw ==>
        && batch == []
        && store.files == old(store.files)[BatchFileName(stamp, unique) := EncodeBatch(old(batch))]
        && DecodeBatch(store.files[BatchFileName(stamp, unique)]) == Some(old(batch))
        && diagnostics == old(diagnostics) + [SavedToFallback]
      ensures threw ==>
        && batch == old(batch)
        && store.files == (if store.present && fault == WriteFails
                           then old(store.files)[BatchFileName(stamp, unique) := Unreadable]
                           else old(store.files))
        && diagnostics == old(diagnostics) + [LoopFailure]
    {
      ghost var files := store.files;
      var name := BatchFileName(stamp, unique);
      threw := store.Save(batch, stamp, unique, fault);
      if threw {
        if store.present && fault == WriteFails {
          AddFileKeeps(files, name, Unreadable);
        }
        diagnostics := diagnostics + [LoopFailure];
        return;
      }
      BatchRoundTrip(batch);
      AddFileKeeps(files, name, EncodeBatch(batch));
      diagnostics := diagnostics + [SavedToFallback];
      batch := [];
    }

    /** The wait that ends a pass unless cancellation was requested. Task.Delay
        throws for an interval it refuses, and the loop reports that. */
    method AwaitFlushInterval() returns (refused: bool)
      requires Valid()
      modifies this`delays, this`diagnostics
      ensures Valid()
      ensures refused <==> !stopping && !DelayAccepts(options.flushInterval)
      ensures Now() == AfterWait(old(Now()), options.flushInterval, stopping)
    {
      refused := false;
      if !stopping {
        if DelayAccepts(options.flushInterval) {
          delays := delays + [FlushWait(options.flushInterval)];
        } else {
          refused := true;
          diagnostics := diagnostics + [LoopFailure];
        }
      }
    }

    /** The first part of a pass of the loop body: drain the queue into the
        batch and dispatch a non-empty batch. The new file's name is fresh, as
        a clock stamp plus a new GUID makes it. */
    method DrainAndDispatch(stamp: string, unique: string, fault: SaveFault)
      returns (ghost taken: nat, ghost sent: bool, threw: bool,
               ghost pending: seq<string>, ghost handled: nat)
      requires Valid()
      requires BatchFileName(stamp, unique) !in store.files
      modifies this, store
      ensures Valid() && store.present == old(store.present) && stopping == old(stopping)
      // the drain: entries are taken in order, stamped, up to the batch size
      ensures taken <= |old(queue)| && queue == old(queue)[taken..]
      ensures var drained := old(batch) + StampAll(old(queue)[..taken], deployment);
        && (taken > 0 ==> |drained| <= options.batchSize)
        && (queue != [] ==> |drained| >= options.batchSize)
        // an empty batch is neither sent nor saved
        && (drained == [] ==> !sent && !threw && batch == [] && Now() == old(Now()))
        // a non-empty one is sent, then the stored batches are replayed or it is saved
        && (drained != [] ==>
              Dispatched(old(Now()), drained, Now(), BatchFileName(stamp, unique), fault,
                         sent, threw, pending, handled))
      ensures !threw ==> batch == []
      // every entry read from the queue, and every entry held before, is still
      // in the batch, delivered, or in a stored file that reads back
      ensures Holding(old(batch), old(delivered), old(store.files))
                + (set e | e in StampAll(old(queue)[..taken], deployment))
              <= Holding(batch, delivered, store.files)
    {
      taken := Drain();
      assert Now() == old(Now());
      HoldingGrows(old(batch), StampAll(old(queue)[..taken], deployment), delivered, store.files);
      sent, threw, pending, handled := false, false, [], 0;
      if batch != [] {
        sent, threw, pending, handled := Dispatch(stamp, unique, fault);
      }
    }

    /** One pass of the loop body: drain and dispatch, then wait the flush
        interval unless cancellation was requested. A save that throws skips
        the clearing of the batch and the wait. dispatched is the state before
        the wait. */
    method LoopBody(stamp: string, unique: string, fault: SaveFault)
      returns (ghost taken: nat, ghost sent: bool, threw: bool,
               ghost pending: seq<string>, ghost handled: nat, ghost dispatched: Observed)
      requires Valid()
      requires BatchFileName(stamp, unique) !in store.files
      modifies this, store
      ensures Valid() && store.present == old(store.present) && stopping == old(stopping)
      // the drain: entries are taken in order, stamped, up to the batch size
      ensures taken <= |old(queue)| && queue == old(queue)[taken..]
      ensures var drained := old(batch) + StampAll(old(queue)[..taken], deployment);
        && (taken > 0 ==> |drained| <= options.batchSize)
        && (queue != [] ==> |drained| >= options.batchSize)
        // an empty batch is neither sent nor saved
        && (drained == [] ==> !sent && !threw && batch == [] && dispatched == old(Now()))
        // a non-empty one is sent, then the stored batches are replayed or it is saved
        && (drained != [] ==>
              Dispatched(old(Now()), drained, dispatched, BatchFileName(stamp, unique), fault,
                         sent, threw, pending, handled))
      // then the flush wait, unless the save threw
      ensures Now() == if threw then dispatched else AfterWait(dispatched, options.flushInterval, stopping)
      ensures !threw ==> batch == []
      // every entry read from the queue, and every entry held before, is still
      // in the batch, delivered, or in a stored file that reads back
      ensures Holding(old(batch), old(delivered), old(store.files))
                + (set e | e in StampAll(old(queue)[..taken], deployment))
              <= Holding(batch, delivered, store.files)
    {
      taken, sent, threw, pending, handled := DrainAndDispatch(stamp, unique, fault);
      dispatched := Now();
      if threw {
        return;
      }
      var refused := AwaitFlushInterval();
    }
  }
}
