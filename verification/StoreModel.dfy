/** What both stores share: the reducer they drive, the answers they give, and the numbering of events. */
module StoreModel {
  import opened Base
  import opened Records
  import opened Commands

  type Blobs = map<Str, string>

  /** A content-addressed blob's key. */
  function BlobDigest(content: string): Str { Digest(BlobContent(content)) }

  /** A provider payload, the corruption of blobs that are missing or inconsistent, or the protocol rejection of a payload
      that has no canonical encoding. */
  datatype Wire = Materialised(payload: string) | Missing | Refusing

  /** The reducer as a store sees it. `admit` is storage-mode classification followed, on the content route, by
      `validate_command`; `reduce` the reducer of the selected route; `encode` the digest step, which refuses a
      snapshot that has no canonical encoding; `wire` materialises the provider payload of an attempt from the blobs;
      `sorted` is the order Python sorts strings
      by. */
  datatype Core = Core(
    admit: (Option<Snapshot>, Command) -> Check,
    reduce: (Option<Snapshot>, Input) -> Result<Reduced>,
    encode: Snapshot -> Check,
    wire: (Blobs, Attempt) -> Wire,
    sorted: set<Str> -> seq<Str>)

  /** `sorted` enumerates a set, each element once. */
  ghost predicate Sorts(core: Core) {
    && (forall names, n :: n in core.sorted(names) <==> n in names)
    && (forall names :: NoRepeats(core.sorted(names)))
  }

  /** `ApplyResult`; the snapshot stands for its digest, the events for their types. */
  datatype Applied = Applied(
    operationId: Str, loop: Str, revision: nat, events: seq<Event>, response: Response, digest: Snapshot, replayed: bool)

  datatype Answer =
    | Accepted(applied: Applied)
    | Refused(code: ErrorCode)
    /** an injected crash */
    | Crashed
    /** an uncaught lookup error in the reducer */
    | Died
    /** `PersistenceCorruption` */
    | Corrupt
    /** an error of SQLite that nothing catches */
    | Escaped
    /** the connection already has an open transaction */
    | Unavailable

  datatype Numbered = Numbered(sequence: nat, event: Event)

  function Key(c: Input): (Str, Str) { (c.command.request.loop, c.command.request.operationId) }

  function RevisionNow(s: Option<Snapshot>): nat { if s.Some? then s.value.loopRevision else 0 }

  /** Admission and the compare-and-set on the loop revision. */
  function Admit(core: Core, s: Option<Snapshot>, c: Input): Check {
    var admitted := core.admit(s, c.command);
    if admitted.Stop? then admitted else Need(RevisionNow(s) == c.command.request.expectedRevision, StaleLoopRevision)
  }

  /** Everything that decides whether a command commits, without faults. */
  function Attempted(core: Core, s: Option<Snapshot>, c: Input): Result<Reduced> {
    if Admit(core, s, c).Stop? then Err(Admit(core, s, c).failure)
    else if core.reduce(s, c).Err? then core.reduce(s, c)
    else if core.encode(core.reduce(s, c).value.snapshot).Stop? then
      Err(core.encode(core.reduce(s, c).value.snapshot).failure)
    else core.reduce(s, c)
  }

  /** Numbers events after `start` existing ones. */
  function Sequenced(start: nat, events: seq<Event>): (r: seq<Numbered>)
    ensures |r| == |events|
    ensures forall i :: 0 <= i < |r| ==> r[i] == Numbered(start + i + 1, events[i])
  {
    seq(|events|, i requires 0 <= i < |events| => Numbered(start + i + 1, events[i]))
  }

  function ResultOf(c: Input, t: Reduced): Applied {
    var r := c.command.request;
    Applied(r.operationId, r.loop, t.snapshot.loopRevision, t.events, t.response, t.snapshot, false)
  }

  lemma SequencedAppend(a: seq<Event>, b: seq<Event>)
    ensures Sequenced(0, a + b) == Sequenced(0, a) + Sequenced(|a|, b)
  {
  }
}
