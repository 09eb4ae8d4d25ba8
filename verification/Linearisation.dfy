/** Runs of the in-memory store over many loops, with retries, rejections and injected crashes: each loop is the fold of
    its accepted commands, in the order of their expected revisions. */
module Linearisation {
  import opened Base
  import opened Records
  import opened Commands
  import opened StoreModel
  import opened MemoryStore

  /** What the store relies on: a reducer accepts only commands with a valid request digest, and steps the revision. */
  ghost predicate Counts(core: Core) {
    forall s, c :: core.reduce(s, c).Ok? ==>
                     && c.command.sealed
                     && core.reduce(s, c).value.snapshot.loopRevision == c.command.request.expectedRevision + 1
  }

  // Runs -------------------------------------------------------------------------------------------------------

  datatype Call = Apply(input: Input, fault: Option<Boundary>) | PutBlob(content: string)

  function Called(core: Core, m: MemState, call: Call): MemState {
    match call
    case Apply(c, fault) => MemApply(core, m, c, fault).0
    case PutBlob(content) => m.(blobs := m.blobs[BlobDigest(content) := content])
  }

  function MemAfter(core: Core, calls: seq<Call>): MemState {
    if calls == [] then EMPTY else Called(core, MemAfter(core, calls[..|calls| - 1]), calls[|calls| - 1])
  }

  /** The command a call commits, if it does. */
  function Commits(core: Core, m: MemState, call: Call): seq<Input> {
    if call.Apply? && Called(core, m, call).commits != m.commits then [call.input] else []
  }

  /** All committed commands of a run, in the order of their commits. */
  function Committed(core: Core, calls: seq<Call>): seq<Input> {
    if calls == [] then []
    else
      var front := calls[..|calls| - 1];
      Committed(core, front) + Commits(core, MemAfter(core, front), calls[|calls| - 1])
  }

  function OfLoop(log: seq<Input>, loop: Str): seq<Input> {
    if log == [] then []
    else OfLoop(log[..|log| - 1], loop) + if log[|log| - 1].command.request.loop == loop then [log[|log| - 1]] else []
  }

  // The sequential meaning of a history ------------------------------------------------------------------------

  function Folded(core: Core, h: seq<Input>): Option<Snapshot> {
    if h == [] then None
    else
      match core.reduce(Folded(core, h[..|h| - 1]), h[|h| - 1])
      case Ok(t) => Some(t.snapshot)
      case Err(_) => Folded(core, h[..|h| - 1])
  }

  function Produced(core: Core, h: seq<Input>): seq<Event> {
    if h == [] then []
    else
      Produced(core, h[..|h| - 1]) +
      match core.reduce(Folded(core, h[..|h| - 1]), h[|h| - 1]) case Ok(t) => t.events case Err(_) => []
  }

  /** Each command of the history was accepted on the fold of the ones before it, and expected its position. */
  predicate Linear(core: Core, h: seq<Input>) {
    forall i :: 0 <= i < |h| ==>
      h[i].command.request.expectedRevision == i && Attempted(core, Folded(core, h[..i]), h[i]).Ok?
  }

  /** The stored result of the i-th command of a history. */
  function ResultAt(core: Core, h: seq<Input>, i: nat): Applied
    requires i < |h| && Attempted(core, Folded(core, h[..i]), h[i]).Ok?
  {
    ResultOf(h[i], Attempted(core, Folded(core, h[..i]), h[i]).value)
  }

  function KeysOf(h: seq<Input>): set<(Str, Str)> { set i | 0 <= i < |h| :: Key(h[i]) }

  predicate ResultsStored(core: Core, m: MemState, h: seq<Input>)
    requires Linear(core, h)
  {
    forall i :: 0 <= i < |h| ==>
      Key(h[i]) in m.accepted && m.accepted[Key(h[i])] == (h[i].command.request, ResultAt(core, h, i))
  }

  /** One accepted operation per command. */
  predicate KeysMatch(keys: set<(Str, Str)>, loop: Str, h: seq<Input>) {
    InLoop(keys, loop) == KeysOf(h) && |KeysOf(h)| == |h|
  }

  /** The store's view of one loop is the sequential meaning of its history. */
  predicate LoopIs(core: Core, m: MemState, loop: Str, h: seq<Input>) {
    && Linear(core, h)
    && (forall i :: 0 <= i < |h| ==> h[i].command.request.loop == loop && h[i].command.sealed)
    && Find(m.snapshots, loop) == Folded(core, h)
    && EventsOf(m, loop) == Sequenced(0, Produced(core, h))
    && KeysMatch(m.accepted.Keys, loop, h)
    && ResultsStored(core, m, h)
    && RevisionNow(Folded(core, h)) == |h|
    && (Folded(core, h).Some? ==> core.encode(Folded(core, h).value).Pass?)
  }

  ghost predicate StoreIs(core: Core, m: MemState, log: seq<Input>) {
    && (forall loop :: LoopIs(core, m, loop, OfLoop(log, loop)))
    && (forall d :: d in m.blobs ==> BlobDigest(m.blobs[d]) == d)
  }

  // One call ---------------------------------------------------------------------------------------------------

  /** At most one rejection is recorded, for an operation that had no outcome. */
  predicate RejectsNew(m: MemState, m': MemState, k: (Str, Str)) {
    || m'.rejected == m.rejected
    || (k !in m.accepted && k !in m.rejected && k in m'.rejected && m'.rejected == m.rejected[k := m'.rejected[k]])
  }

  /** A call commits exactly when the command is new, decided, and not crashed before the commit. */
  lemma CallCommits(core: Core, m: MemState, c: Input, fault: Option<Boundary>)
    ensures var m' := MemApply(core, m, c, fault).0;
            || (m'.commits != m.commits && c.command.unencodable.None? && Key(c) !in m.accepted && Key(c) !in m.rejected
                && Attempted(core, Find(m.snapshots, c.command.request.loop), c).Ok?
                && m' == MemCommit(m, c, Attempted(core, Find(m.snapshots, c.command.request.loop), c).value))
            || (m' == m.(rejected := m'.rejected) && RejectsNew(m, m', Key(c)))
  {
    hide MemFirst;
    var m' := MemApply(core, m, c, fault).0;
    if c.command.unencodable.Some? || Key(c) in m.accepted || Key(c) in m.rejected {
      assert m' == m;
    } else {
      FirstCommits(core, m, c, fault);
    }
  }

  lemma FirstCommits(core: Core, m: MemState, c: Input, fault: Option<Boundary>)
    requires Key(c) !in m.accepted && Key(c) !in m.rejected
    ensures var m' := MemFirst(core, m, c, fault).0;
            || (Attempted(core, Find(m.snapshots, c.command.request.loop), c).Ok?
                && m' == MemCommit(m, c, Attempted(core, Find(m.snapshots, c.command.request.loop), c).value))
            || (m' == m.(rejected := m'.rejected) && RejectsNew(m, m', Key(c)))
  {
    forall failure ensures OnlyRejects(m, MemReject(m, c, failure).0, Key(c)) { RejectionOnlyRejects(m, c, failure); }
    hide MemCommit, MemReject, Admit;
  }

  predicate OnlyRejects(m: MemState, m': MemState, k: (Str, Str)) {
    m' == m.(rejected := m'.rejected) && RejectsNew(m, m', k)
  }

  lemma RejectionOnlyRejects(m: MemState, c: Input, failure: Failure)
    requires Key(c) !in m.accepted && Key(c) !in m.rejected
    ensures OnlyRejects(m, MemReject(m, c, failure).0, Key(c))
  {
  }

  lemma OtherLoopKeeps(core: Core, m: MemState, c: Input, t: Reduced, loop: Str, h: seq<Input>)
    requires LoopIs(core, m, loop, h) && loop != c.command.request.loop
    ensures LoopIs(core, MemCommit(m, c, t), loop, h)
  {
    var m' := MemCommit(m, c, t);
    hide Sequenced;
    assert InLoop(m'.accepted.Keys, loop) == InLoop(m.accepted.Keys, loop);
    forall i | 0 <= i < |h|
      ensures Key(h[i]) in m'.accepted && m'.accepted[Key(h[i])] == (h[i].command.request, ResultAt(core, h, i))
    {
      assert Key(h[i]) != Key(c);
    }
  }

  lemma LinearExtends(core: Core, h: seq<Input>, c: Input)
    requires Linear(core, h) && RevisionNow(Folded(core, h)) == |h| && Attempted(core, Folded(core, h), c).Ok?
    ensures Linear(core, h + [c])
    ensures Folded(core, h + [c]) == Some(Attempted(core, Folded(core, h), c).value.snapshot)
    ensures Produced(core, h + [c]) == Produced(core, h) + Attempted(core, Folded(core, h), c).value.events
    ensures core.encode(Folded(core, h + [c]).value).Pass?
  {
    var g := h + [c];
    assert g[..|h|] == h;
    forall i | 0 <= i < |g|
      ensures g[i].command.request.expectedRevision == i && Attempted(core, Folded(core, g[..i]), g[i]).Ok?
    {
      if i < |h| { assert g[..i] == h[..i]; }
    }
  }

  lemma ResultsExtend(core: Core, m: MemState, h: seq<Input>, c: Input)
    requires Linear(core, h) && Linear(core, h + [c]) && ResultsStored(core, m, h) && Key(c) !in m.accepted
    requires Attempted(core, Folded(core, h), c).Ok?
    ensures ResultsStored(core, MemCommit(m, c, Attempted(core, Folded(core, h), c).value), h + [c])
  {
    var t := Attempted(core, Folded(core, h), c).value;
    var m', g := MemCommit(m, c, t), h + [c];
    hide Linear, Folded, Attempted, Sequenced;
    forall i | 0 <= i < |g|
      ensures Key(g[i]) in m'.accepted && m'.accepted[Key(g[i])] == (g[i].command.request, ResultAt(core, g, i))
    {
      if i < |h| { assert g[..i] == h[..i] && g[i] == h[i]; } else { assert g[..i] == h; }
    }
  }

  lemma KeysExtend(keys: set<(Str, Str)>, h: seq<Input>, c: Input)
    requires KeysMatch(keys, c.command.request.loop, h) && Key(c) !in keys
    ensures KeysMatch(keys + {Key(c)}, c.command.request.loop, h + [c])
  {
    var g := h + [c];
    assert KeysOf(g) == KeysOf(h) + {Key(c)} by {
      assert forall i :: 0 <= i < |h| ==> g[i] == h[i];
      assert g[|h|] == c;
    }
    assert Key(c) !in InLoop(keys, c.command.request.loop);
    assert InLoop(keys + {Key(c)}, c.command.request.loop) == InLoop(keys, c.command.request.loop) + {Key(c)};
  }

  /** What a commit leaves in the dictionaries. */
  lemma CommitFacts(m: MemState, c: Input, t: Reduced)
    ensures var m' := MemCommit(m, c, t); var loop := c.command.request.loop;
            && Find(m'.snapshots, loop) == Some(t.snapshot)
            && EventsOf(m', loop) == EventsOf(m, loop) + Sequenced(|EventsOf(m, loop)|, t.events)
            && m'.accepted.Keys == m.accepted.Keys + {Key(c)}
  {
    hide Sequenced;
  }

  lemma MembersExtend(core: Core, m: MemState, c: Input, h: seq<Input>)
    requires Counts(core) && LoopIs(core, m, c.command.request.loop, h) && Attempted(core, Folded(core, h), c).Ok?
    ensures forall i :: 0 <= i < |h + [c]| ==>
              (h + [c])[i].command.request.loop == c.command.request.loop && (h + [c])[i].command.sealed
    ensures Attempted(core, Folded(core, h), c).value.snapshot.loopRevision == |h| + 1
    ensures EventsOf(m, c.command.request.loop) == Sequenced(0, Produced(core, h))
    ensures Linear(core, h) && ResultsStored(core, m, h)
    ensures KeysMatch(m.accepted.Keys, c.command.request.loop, h) && RevisionNow(Folded(core, h)) == |h|
  {
    hide Linear, Folded, Produced, KeysMatch, ResultsStored, Sequenced;
  }

  lemma CommittedLoopIs(core: Core, m: MemState, c: Input, h: seq<Input>)
    requires Counts(core) && LoopIs(core, m, c.command.request.loop, h)
    requires Key(c) !in m.accepted && Attempted(core, Folded(core, h), c).Ok?
    ensures LoopIs(core, MemCommit(m, c, Attempted(core, Folded(core, h), c).value), c.command.request.loop, h + [c])
  {
    var t := Attempted(core, Folded(core, h), c).value;
    MembersExtend(core, m, c, h);
    hide Attempted, Counts, Linear, Folded, Produced, ResultsStored, KeysMatch, Sequenced, MemCommit;
    CommitFacts(m, c, t);
    LinearExtends(core, h, c);
    ResultsExtend(core, m, h, c);
    KeysExtend(m.accepted.Keys, h, c);
    SequencedAppend(Produced(core, h), t.events);
  }

  lemma CommitKeepsLoop(core: Core, m: MemState, c: Input, log: seq<Input>, loop: Str)
    requires Counts(core) && LoopIs(core, m, loop, OfLoop(log, loop))
    requires LoopIs(core, m, c.command.request.loop, OfLoop(log, c.command.request.loop))
    requires Key(c) !in m.accepted && Attempted(core, Find(m.snapshots, c.command.request.loop), c).Ok?
    ensures LoopIs(core, MemCommit(m, c, Attempted(core, Find(m.snapshots, c.command.request.loop), c).value), loop,
                   OfLoop(log + [c], loop))
  {
    assert (log + [c])[..|log|] == log;
    assert Find(m.snapshots, c.command.request.loop) == Folded(core, OfLoop(log, c.command.request.loop));
    hide LoopIs, Counts, Attempted, Folded, MemCommit;
    var t := Attempted(core, Find(m.snapshots, c.command.request.loop), c).value;
    if loop == c.command.request.loop {
      CommittedLoopIs(core, m, c, OfLoop(log, loop));
    } else {
      OtherLoopKeeps(core, m, c, t, loop, OfLoop(log, loop));
      assert OfLoop(log, loop) + [] == OfLoop(log, loop);
    }
  }

  lemma CommitKeepsStore(core: Core, m: MemState, c: Input, log: seq<Input>)
    requires Counts(core) && StoreIs(core, m, log)
    requires Key(c) !in m.accepted && Attempted(core, Find(m.snapshots, c.command.request.loop), c).Ok?
    ensures StoreIs(core, MemCommit(m, c, Attempted(core, Find(m.snapshots, c.command.request.loop), c).value), log + [c])
  {
    hide LoopIs, Counts, Attempted;
    var m' := MemCommit(m, c, Attempted(core, Find(m.snapshots, c.command.request.loop), c).value);
    forall loop ensures LoopIs(core, m', loop, OfLoop(log + [c], loop)) {
      assert LoopIs(core, m, loop, OfLoop(log, loop));
      assert LoopIs(core, m, c.command.request.loop, OfLoop(log, c.command.request.loop));
      CommitKeepsLoop(core, m, c, log, loop);
    }
  }

  lemma QuietCallKeepsStore(core: Core, m: MemState, m': MemState, log: seq<Input>)
    requires StoreIs(core, m, log) && m' == m.(rejected := m'.rejected, blobs := m'.blobs)
    requires forall d :: d in m'.blobs ==> BlobDigest(m'.blobs[d]) == d
    ensures StoreIs(core, m', log)
  {
    hide LoopIs;
    forall loop ensures LoopIs(core, m', loop, OfLoop(log, loop)) {
      assert LoopIs(core, m, loop, OfLoop(log, loop));
      QuietCallKeeps(core, m, m', loop, OfLoop(log, loop));
    }
  }

  lemma CallKeepsStore(core: Core, m: MemState, call: Call, log: seq<Input>)
    requires Counts(core) && StoreIs(core, m, log)
    ensures StoreIs(core, Called(core, m, call), log + Commits(core, m, call))
  {
    var m' := Called(core, m, call);
    hide MemApply, Attempted, Counts, LoopIs;
    if call.Apply? && m'.commits != m.commits {
      CallCommits(core, m, call.input, call.fault);
      CommitKeepsStore(core, m, call.input, log);
    } else {
      if call.Apply? { CallCommits(core, m, call.input, call.fault); }
      assert log + [] == log;
      QuietCallKeepsStore(core, m, m', log);
    }
  }

  lemma QuietCallKeeps(core: Core, m: MemState, m': MemState, loop: Str, h: seq<Input>)
    requires LoopIs(core, m, loop, h) && m' == m.(rejected := m'.rejected, blobs := m'.blobs)
    ensures LoopIs(core, m', loop, h)
  {
    hide Linear, Folded, Produced, KeysMatch, Sequenced;
  }

  lemma {:induction false} RunKeepsStore(core: Core, calls: seq<Call>)
    requires Counts(core)
    ensures StoreIs(core, MemAfter(core, calls), Committed(core, calls))
  {
    if calls == [] {
      forall loop ensures LoopIs(core, EMPTY, loop, OfLoop([], loop)) { EmptyLoopIs(core, loop); }
    } else {
      var front := calls[..|calls| - 1];
      RunKeepsStore(core, front);
      hide Counts, StoreIs, Called, Commits;
      CallKeepsStore(core, MemAfter(core, front), calls[|calls| - 1], Committed(core, front));
    }
  }

  lemma EmptyLoopIs(core: Core, loop: Str)
    ensures LoopIs(core, EMPTY, loop, [])
  {
    assert KeysOf([]) == {};
    assert InLoop(EMPTY.accepted.Keys, loop) == {};
  }

  // The theorems -----------------------------------------------------------------------------------------------

  /** After any run each loop's accepted commands expected exactly the revisions 0..n-1, its snapshot is their fold, its
      events are theirs in that order, numbered from 1, and their results are stored. */
  lemma Linearised(core: Core, calls: seq<Call>, loop: Str)
    requires Counts(core)
    ensures LoopIs(core, MemAfter(core, calls), loop, OfLoop(Committed(core, calls), loop))
  {
    RunKeepsStore(core, calls);
    hide LoopIs, MemAfter, Committed;
  }

  /** An exact retry of an accepted command returns the stored result and changes nothing; a different request, or a
      different claimed digest, under the same operation id is an idempotency conflict. */
  lemma RetryReplays(core: Core, calls: seq<Call>, loop: Str, i: nat, c: Input, fault: Option<Boundary>)
    requires Counts(core) && i < |OfLoop(Committed(core, calls), loop)|
    requires var d := OfLoop(Committed(core, calls), loop)[i];
             Key(c) == Key(d) && c.command.unencodable.None?
    ensures var m := MemAfter(core, calls); var h := OfLoop(Committed(core, calls), loop);
            && Linear(core, h)
            && MemApply(core, m, c, fault)
               == (m, if c.command.request == h[i].command.request && c.command.sealed
                      then Accepted(ResultAt(core, h, i).(replayed := true)) else Refused(IdempotencyConflict))
  {
    Linearised(core, calls, loop);
    hide MemAfter, Committed, Linear, Folded, Produced, KeysMatch, Sequenced;
  }

  /** `verify_integrity` never raises. */
  lemma AlwaysIntact(core: Core, calls: seq<Call>)
    requires Counts(core)
    ensures Intact(core, MemAfter(core, calls))
  {
    RunKeepsStore(core, calls);
    var m := MemAfter(core, calls);
    hide MemAfter, Committed;
    forall loop | loop in m.snapshots ensures LoopIntact(core, m, loop) {
      LoopIsIntact(core, m, loop, OfLoop(Committed(core, calls), loop));
    }
  }

  lemma LoopIsIntact(core: Core, m: MemState, loop: Str, h: seq<Input>)
    requires LoopIs(core, m, loop, h) && loop in m.snapshots
    ensures LoopIntact(core, m, loop)
  {
    hide Linear, Folded, Produced, KeysOf, ResultsStored, InLoop;
  }

  /** Every operation keeps the first outcome it was given. */
  predicate Settled(m: MemState, m': MemState) {
    && (forall k :: k in m.accepted ==> k in m'.accepted && m'.accepted[k] == m.accepted[k])
    && (forall k :: k in m.rejected ==> k in m'.rejected && m'.rejected[k] == m.rejected[k])
  }

  lemma CallSettles(core: Core, m: MemState, call: Call)
    requires m.accepted.Keys !! m.rejected.Keys
    ensures Settled(m, Called(core, m, call)) && Called(core, m, call).accepted.Keys !! Called(core, m, call).rejected.Keys
  {
    if call.Apply? {
      hide MemApply, Attempted, MemCommit;
      var c := call.input;
      CallCommits(core, m, c, call.fault);
      if Called(core, m, call).commits != m.commits {
        CommitSettles(m, c, Attempted(core, Find(m.snapshots, c.command.request.loop), c).value);
      }
    }
  }

  lemma CommitSettles(m: MemState, c: Input, t: Reduced)
    requires Key(c) !in m.accepted && Key(c) !in m.rejected && m.accepted.Keys !! m.rejected.Keys
    ensures Settled(m, MemCommit(m, c, t)) && MemCommit(m, c, t).accepted.Keys !! MemCommit(m, c, t).rejected.Keys
  {
    hide ResultOf, EventsOf, Sequenced;
  }

  lemma {:induction false} OperationsStaySettled(core: Core, calls: seq<Call>, k: nat)
    requires k <= |calls|
    ensures MemAfter(core, calls).accepted.Keys !! MemAfter(core, calls).rejected.Keys
    ensures Settled(MemAfter(core, calls[..k]), MemAfter(core, calls))
  {
    hide Called;
    if k == |calls| {
      assert calls[..k] == calls;
      if calls != [] { OperationsStaySettled(core, calls[..|calls| - 1], |calls| - 1); SettlesFront(core, calls); }
    } else {
      var front := calls[..|calls| - 1];
      assert front[..k] == calls[..k];
      OperationsStaySettled(core, front, k);
      SettlesFront(core, calls);
    }
  }

  lemma SettlesFront(core: Core, calls: seq<Call>)
    requires calls != []
    requires var m := MemAfter(core, calls[..|calls| - 1]); m.accepted.Keys !! m.rejected.Keys
    ensures var m, m' := MemAfter(core, calls[..|calls| - 1]), MemAfter(core, calls);
            Settled(m, m') && m'.accepted.Keys !! m'.rejected.Keys
  {
    hide Called;
    CallSettles(core, MemAfter(core, calls[..|calls| - 1]), calls[|calls| - 1]);
  }
}
