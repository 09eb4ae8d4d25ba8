/** The reference in-memory store: one atomic commit object per loop, with idempotent operation ids. */
module MemoryStore {
  import opened Base
  import opened Records
  import opened Commands
  import opened StoreModel

  datatype Boundary = BeforeReduce | AfterReduceBeforeCommit | AfterCommitBeforeResponse

  /** The store's dictionaries and counter. */
  datatype MemState = MemState(
    snapshots: map<Str, Snapshot>, events: map<Str, seq<Numbered>>, accepted: map<(Str, Str), (Request, Applied)>,
    rejected: map<(Str, Str), (Request, ErrorCode)>, blobs: Blobs, commits: nat)

  const EMPTY := MemState(map[], map[], map[], map[], map[], 0)

  function EventsOf(m: MemState, loop: Str): seq<Numbered> { if loop in m.events then m.events[loop] else [] }

  /** The rejection recorded for an operation, or nothing when the failure escapes the store. */
  function MemReject(m: MemState, c: Input, failure: Failure): (MemState, Answer) {
    match failure
    case Rejected(code) => (m.(rejected := m.rejected[Key(c) := (c.command.request, code)]), Refused(code))
    case Fault => (m, Died)
  }

  function MemCommit(m: MemState, c: Input, t: Reduced): MemState {
    var loop := c.command.request.loop;
    m.(snapshots := m.snapshots[loop := t.snapshot],
       events := m.events[loop := EventsOf(m, loop) + Sequenced(|EventsOf(m, loop)|, t.events)],
       accepted := m.accepted[Key(c) := (c.command.request, ResultOf(c, t))],
       commits := m.commits + 1)
  }

  /** A command whose operation id is new. */
  function MemFirst(core: Core, m: MemState, c: Input, fault: Option<Boundary>): (MemState, Answer) {
    var current := Find(m.snapshots, c.command.request.loop);
    var admitted := Admit(core, current, c);
    if admitted.Stop? then MemReject(m, c, admitted.failure)
    else if fault == Some(BeforeReduce) then (m, Crashed)
    else if core.reduce(current, c).Err? then MemReject(m, c, core.reduce(current, c).failure)
    else if fault == Some(AfterReduceBeforeCommit) then (m, Crashed)
    else
      var t := core.reduce(current, c).value;
      if core.encode(t.snapshot).Stop? then MemReject(m, c, core.encode(t.snapshot).failure)
      else (MemCommit(m, c, t), if fault == Some(AfterCommitBeforeResponse) then Crashed else Accepted(ResultOf(c, t)))
  }

  /** `InMemoryStore.apply` */
  function MemApply(core: Core, m: MemState, c: Input, fault: Option<Boundary>): (MemState, Answer) {
    if c.command.unencodable.Some? then (m, Refused(CodeOf(c.command.unencodable.value)))
    else if Key(c) in m.accepted then
      var (digest, applied) := m.accepted[Key(c)];
      (m, if digest != c.command.request || !c.command.sealed then Refused(IdempotencyConflict)
          else Accepted(applied.(replayed := true)))
    else if Key(c) in m.rejected then
      var (digest, code) := m.rejected[Key(c)];
      (m, if digest != c.command.request || !c.command.sealed then Refused(IdempotencyConflict) else Refused(code))
    else MemFirst(core, m, c, fault)
  }

  // Integrity --------------------------------------------------------------------------------------------------

  predicate Contiguous(events: seq<Numbered>) { forall i :: 0 <= i < |events| ==> events[i].sequence == i + 1 }

  /** The operation keys of one loop. */
  function InLoop(keys: set<(Str, Str)>, loop: Str): set<(Str, Str)> { set k | k in keys && k.0 == loop }

  lemma InLoopWithout(keys: set<(Str, Str)>, loop: Str, k: (Str, Str))
    requires k in keys
    ensures |InLoop(keys, loop)| == |InLoop(keys - {k}, loop)| + if k.0 == loop then 1 else 0
  {
    assert InLoop(keys, loop) == InLoop(keys - {k}, loop) + if k.0 == loop then {k} else {};
  }

  predicate LoopIntact(core: Core, m: MemState, loop: Str)
    requires loop in m.snapshots
  {
    && Contiguous(EventsOf(m, loop))
    && m.snapshots[loop].loopRevision == |InLoop(m.accepted.Keys, loop)|
    && core.encode(m.snapshots[loop]).Pass?
  }

  /** What `verify_integrity` demands. */
  predicate Intact(core: Core, m: MemState) {
    && (forall d :: d in m.blobs ==> BlobDigest(m.blobs[d]) == d)
    && (forall loop :: loop in m.snapshots ==> LoopIntact(core, m, loop))
  }

  // The store --------------------------------------------------------------------------------------------------

  /** `authority` is the registry in force, which a caller may replace between calls. */
  class InMemoryStore {
    const core: Core
    var authority: Context
    var snapshots: map<Str, Snapshot>
    var events: map<Str, seq<Numbered>>
    var accepted: map<(Str, Str), (Request, Applied)>
    var rejected: map<(Str, Str), (Request, ErrorCode)>
    var blobs: Blobs
    var commitCount: nat

    ghost function State(): MemState
      reads this
    {
      MemState(snapshots, events, accepted, rejected, blobs, commitCount)
    }

    constructor (core: Core, authority: Context)
      ensures this.core == core && this.authority == authority && State() == EMPTY
    {
      this.core, this.authority := core, authority;
      snapshots, events, accepted, rejected, blobs, commitCount := map[], map[], map[], map[], map[], 0;
    }

    method Reject(c: Input, failure: Failure) returns (answer: Answer)
      modifies this`rejected
      ensures (State(), answer) == MemReject(old(State()), c, failure)
    {
      match failure {
        case Rejected(code) =>
          rejected := rejected[Key(c) := (c.command.request, code)];
          answer := Refused(code);
        case Fault =>
          answer := Died;
      }
    }

    /** Applies one command, crashing at the given boundary if it gets there. */
    method Apply(command: Command, fault: Option<Boundary>) returns (answer: Answer)
      modifies this`snapshots, this`events, this`accepted, this`rejected, this`commitCount
      ensures (State(), answer) == MemApply(core, old(State()), Input(command, authority), fault)
    {
      var c := Input(command, authority);
      if c.command.unencodable.Some? { return Refused(CodeOf(c.command.unencodable.value)); }
      var loop := c.command.request.loop;
      if Key(c) in accepted {
        var (digest, applied) := accepted[Key(c)];
        if digest != c.command.request || !c.command.sealed { return Refused(IdempotencyConflict); }
        return Accepted(applied.(replayed := true));
      }
      if Key(c) in rejected {
        var (digest, code) := rejected[Key(c)];
        if digest != c.command.request || !c.command.sealed { return Refused(IdempotencyConflict); }
        return Refused(code);
      }
      var current := Find(snapshots, loop);
      var admitted := Admit(core, current, c);
      if admitted.Stop? { answer := Reject(c, admitted.failure); return; }
      if fault == Some(BeforeReduce) { return Crashed; }
      var reduced := core.reduce(current, c);
      if reduced.Err? { answer := Reject(c, reduced.failure); return; }
      if fault == Some(AfterReduceBeforeCommit) { return Crashed; }
      var existing := if loop in events then events[loop] else [];
      var candidate := reduced.value;
      var sequenced := Sequenced(|existing|, candidate.events);
      var digest := core.encode(candidate.snapshot);
      if digest.Stop? { answer := Reject(c, digest.failure); return; }
      var result := ResultOf(c, candidate);
      snapshots := snapshots[loop := candidate.snapshot];
      events := events[loop := existing + sequenced];
      accepted := accepted[Key(c) := (c.command.request, result)];
      commitCount := commitCount + 1;
      if fault == Some(AfterCommitBeforeResponse) { return Crashed; }
      answer := Accepted(result);
    }

    /** Stores an immutable blob under its digest; a different content under the same digest is refused. */
    method PutBlob(content: string) returns (digest: Str, stored: bool)
      modifies this`blobs
      ensures digest == BlobDigest(content)
      ensures stored <==> (digest in old(blobs) ==> old(blobs)[digest] == content)
      ensures blobs == if stored then old(blobs)[digest := content] else old(blobs)
    {
      digest := BlobDigest(content);
      stored := digest !in blobs || blobs[digest] == content;
      if stored { blobs := blobs[digest := content]; }
    }

    /** The count of accepted operations of one loop. */
    method CountAccepted(loop: Str) returns (n: nat)
      ensures n == |InLoop(accepted.Keys, loop)|
    {
      n := 0;
      var rest := accepted.Keys;
      while rest != {}
        invariant rest <= accepted.Keys && n + |InLoop(rest, loop)| == |InLoop(accepted.Keys, loop)|
        decreases |rest|
      {
        var k :| k in rest;
        InLoopWithout(rest, loop, k);
        if k.0 == loop { n := n + 1; }
        rest := rest - {k};
      }
    }

    method VerifyBlobs() returns (sound: bool)
      ensures sound <==> forall d :: d in blobs ==> BlobDigest(blobs[d]) == d
    {
      var rest := blobs.Keys;
      while rest != {}
        invariant rest <= blobs.Keys
        invariant forall d :: d in blobs && d !in rest ==> BlobDigest(blobs[d]) == d
        decreases |rest|
      {
        var d :| d in rest;
        if BlobDigest(blobs[d]) != d { return false; }
        rest := rest - {d};
      }
      sound := true;
    }

    /** `verify_integrity`, answering whether it returns instead of raising. */
    method VerifyIntegrity() returns (intact: bool)
      ensures intact <==> Intact(core, State())
    {
      intact := VerifyBlobs();
      if !intact { return; }
      var rest := snapshots.Keys;
      while rest != {}
        invariant rest <= snapshots.Keys
        invariant forall loop :: loop in snapshots && loop !in rest ==> LoopIntact(core, State(), loop)
        decreases |rest|
      {
        var loop :| loop in rest;
        var log := if loop in events then events[loop] else [];
        var numbers := seq(|log|, i requires 0 <= i < |log| => log[i].sequence);
        if numbers != seq(|log|, i => i + 1) {
          assert !Contiguous(log);
          return false;
        }
        assert Contiguous(log) by {
          forall i | 0 <= i < |log| ensures log[i].sequence == i + 1 { assert numbers[i] == log[i].sequence; }
        }
        var count := CountAccepted(loop);
        if snapshots[loop].loopRevision != count || core.encode(snapshots[loop]).Stop? { return false; }
        rest := rest - {loop};
      }
    }
  }
}
