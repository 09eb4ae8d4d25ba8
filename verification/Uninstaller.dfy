/** The transactional uninstaller: a journal, an atomic rename, and a deletion that any later run can finish.

    A process may die before or after every single change of the file system, part-way through a tree deletion and
    inside recovery: `steps` is how many changes it still lives to make. */
module Uninstaller {
  import opened Base

  type Path = string

  datatype Node = Directory | File(executable: bool, digest: string)

  type Tree = map<Path, Node>

  datatype Config = Config(existed: bool, digest: string)

  /** `active-transaction.json`; the installer writes journals of another kind. */
  datatype Journal = Journal(ours: bool, receipt: string, receiptDigest: string, transaction: string, config: Config)

  /** The active install receipt. */
  datatype ReceiptFile = ReceiptFile(name: string, digest: string, stem: string, entries: Tree)

  /** A directory below the staging root; `installed` is the withdrawn tree. */
  datatype Staged = Staged(installed: Option<Tree>)

  datatype FaultPoint = BeforeWithdrawn | AfterWithdrawn | AfterConfigVerified | AfterCommit

  /** What the surroundings do to one invocation: when the process dies, whether the operating system refuses a rename,
      a new directory or a deletion after some removals, which fault is injected, and what the configuration looks
      like at each reading (nothing when it is not a regular file). */
  datatype Surroundings = Surroundings(
    steps: nat, renameFails: bool, mkdirFails: bool, removable: Option<nat>, fault: Option<FaultPoint>,
    validated: Option<Config>, start: Option<Config>, middle: Option<Config>, last: Option<Config>)

  datatype Problem =
    | JournalMissing | OtherTransactionActive | JournalReceiptMismatch | TransactionAmbiguous | TransactionConflict
    | GcPending | ConfigChanged | ConfigInvalid | InstallDrift | Injected | OsError

  datatype Ending = Recovered(transactions: nat) | AlreadyUninstalled | Uninstalled | Raised(problem: Problem) | Died

  datatype Deletion = Deleted | Stuck | Cut

  /** What is left of a tree while it is being deleted. */
  predicate PartOf(t: Tree, whole: Tree) { forall p :: p in t ==> p in whole && t[p] == whole[p] }

  /** Nothing goes wrong, and nobody touches the configuration. */
  predicate Smooth(s: Surroundings) {
    && !s.renameFails && !s.mkdirFails && s.removable.None? && s.fault.None?
    && s.validated.Some? && s.start.Some? && s.middle == s.start && s.last == s.start
  }

  class Installation {
    const original: Tree
    const receipt: ReceiptFile
    const ignored: Path -> bool
    var target: Option<Tree>
    var journal: Option<Journal>
    var staging: map<string, Staged>
    var steps: nat

    function TransactionName(): string { "loopskill4-" + receipt.stem }

    function Inventory(t: Tree): Tree { map p | p in t && !ignored(p) :: t[p] }

    /** The live install is the original tree or absent; a staging directory exists only under the journal that names
        it; what was withdrawn is no longer live. */
    ghost predicate Valid()
      reads this
    {
      && (target == None || target == Some(original))
      && staging.Keys <= {TransactionName()}
      && (journal.Some? ==>
            && journal.value.ours && journal.value.receipt == receipt.name
            && journal.value.receiptDigest == receipt.digest && journal.value.transaction == TransactionName())
      && (TransactionName() in staging ==> journal.Some?)
      && (forall n :: n in staging && staging[n].installed.Some? ==>
            target.None? && PartOf(staging[n].installed.value, original))
    }

    ghost predicate Clean()
      reads this
    {
      journal.None? && staging == map[]
    }

    /** The whole original tree is still there, withdrawn. */
    ghost predicate WithdrawnWhole()
      reads this
    {
      TransactionName() in staging && staging[TransactionName()].installed == Some(original)
    }

    /** The changes that finishing the interrupted transaction, if any, takes. */
    ghost function Work(): nat
      reads this
    {
      if journal.None? then 0
      else
        (if TransactionName() in staging && staging[TransactionName()].installed.Some?
         then |staging[TransactionName()].installed.value| + 1 else 0) + |staging| + 1
    }

    constructor (original: Tree, receipt: ReceiptFile, ignored: Path -> bool)
      ensures Valid() && Clean() && target == Some(original)
      ensures this.original == original && this.receipt == receipt && this.ignored == ignored
    {
      this.original, this.receipt, this.ignored := original, receipt, ignored;
      target, journal, staging, steps := Some(original), None, map[], 0;
    }

    /** Whether the process lives to make its next change. */
    method Step() returns (alive: bool)
      modifies this`steps
      ensures alive <==> old(steps) > 0
      ensures steps == if alive then old(steps) - 1 else 0
    {
      alive := steps > 0;
      if alive { steps := steps - 1; }
    }

    /** `shutil.rmtree`: removes entries one at a time, then the directory. */
    method DeleteTree(name: string, removable: Option<nat>) returns (end: Deletion)
      requires name in staging && staging[name].installed.Some?
      modifies this`staging, this`steps
      ensures end.Deleted? ==> staging == old(staging)[name := Staged(None)]
      ensures !end.Deleted? ==>
                && name in staging && staging[name].installed.Some?
                && staging == old(staging)[name := staging[name]]
                && PartOf(staging[name].installed.value, old(staging)[name].installed.value)
      ensures end.Stuck? ==> removable.Some?
      ensures removable.None? && old(steps) > |old(staging)[name].installed.value| ==>
                end.Deleted? && steps == old(steps) - |old(staging)[name].installed.value| - 1
    {
      ghost var whole := staging[name].installed.value;
      var removed := 0;
      while staging[name].installed.value != map[]
        invariant name in staging && staging[name].installed.Some?
        invariant staging == old(staging)[name := staging[name]]
        invariant PartOf(staging[name].installed.value, whole)
        invariant steps - |staging[name].installed.value| == old(steps) - |whole|
        decreases |staging[name].installed.value|
      {
        if removable == Some(removed) { return Stuck; }
        var alive := Step();
        if !alive { return Cut; }
        var tree := staging[name].installed.value;
        var p :| p in tree;
        assert |tree - {p}| == |tree| - 1 by { assert (tree - {p}).Keys == tree.Keys - {p}; assert |tree.Keys| == |tree|; }
        staging := staging[name := Staged(Some(tree - {p}))];
        removed := removed + 1;
      }
      if removable == Some(removed) { return Stuck; }
      var alive := Step();
      if !alive { return Cut; }
      staging := staging[name := Staged(None)];
      end := Deleted;
    }

    /** `transaction.rmdir()` and `journal_path.unlink()`, in that order. */
    method Discard(name: string) returns (alive: bool)
      requires Valid() && journal.Some? && name == TransactionName()
      requires name in staging ==> staging[name].installed.None?
      modifies this`staging, this`journal, this`steps
      ensures Valid() && (alive ==> Clean() && steps == old(steps) - |old(staging)| - 1)
      ensures !alive ==> journal == old(journal) && (staging == old(staging) || staging == map[])
      ensures alive <== old(steps) > |old(staging)| || old(steps) >= 2
    {
      if name in staging {
        assert staging.Keys == {name} && |staging| == |staging.Keys| == 1;
        alive := Step();
        if !alive { return; }
        staging := staging - {name};
      }
      assert staging == map[];
      alive := Step();
      if !alive { return; }
      journal := None;
    }

    /** `_recover_uninstall_transaction`: rolls back before the rename, finishes the deletion after it. The live install
        is never touched, and of all the problems the program checks for only an unfinished deletion can occur. */
    method Recover(removable: Option<nat>) returns (end: Ending)
      requires Valid()
      modifies this`staging, this`journal, this`steps
      ensures Valid() && target == old(target)
      ensures end in {Recovered(0), Recovered(1), Raised(GcPending), Died}
      ensures end.Recovered? ==> Clean()
      ensures end == Recovered(0) <==> old(journal).None?
      ensures end == Recovered(0) ==> staging == old(staging) && journal == old(journal) && steps == old(steps)
      ensures end == Raised(GcPending) ==> removable.Some?
      ensures end.Died? ==> old(journal).Some? && journal.Some?
      ensures removable.None? && old(steps) >= old(Work()) ==> end.Recovered? && steps >= old(steps) - old(Work())
    {
      if journal.None? {
        if staging != map[] { return Raised(JournalMissing); }
        return Recovered(0);
      }
      var j := journal.value;
      if !j.ours { return Raised(OtherTransactionActive); }
      if j.receipt != receipt.name || j.receiptDigest != receipt.digest { return Raised(JournalReceiptMismatch); }
      var transaction := j.transaction;
      if staging != map[] && staging.Keys != {transaction} { return Raised(TransactionAmbiguous); }
      var withdrawn := transaction in staging && staging[transaction].installed.Some?;
      if target.Some? && withdrawn { return Raised(TransactionAmbiguous); }
      if target.Some? {
        if transaction in staging && staging[transaction].installed.Some? { return Raised(TransactionAmbiguous); }
        var alive := Discard(transaction);
        return if alive then Recovered(1) else Died;
      }
      if withdrawn {
        var deletion := DeleteTree(transaction, removable);
        if deletion.Cut? { return Died; }
        if deletion.Stuck? { return Raised(GcPending); }
      }
      var alive := Discard(transaction);
      return if alive then Recovered(1) else Died;
    }

    /** The handler of an exception before the rename: back to the exact state before the transaction. */
    method Abort(name: string, problem: Problem) returns (end: Ending)
      requires Valid() && journal.Some? && name == TransactionName() && name in staging && target.Some?
      modifies this`staging, this`journal, this`steps
      ensures Valid() && end in {Raised(problem), Died} && (end.Raised? ==> Clean())
    {
      if staging[name].installed.Some? { return Raised(TransactionAmbiguous); }
      var alive := Discard(name);
      end := if alive then Raised(problem) else Died;
    }

    /** Opens the transaction and withdraws the live install; nothing is returned once the rename has committed. */
    method Withdraw(name: string, s: Surroundings, start: Config) returns (end: Option<Ending>)
      requires Valid() && Clean() && target.Some? && name == TransactionName()
      modifies this
      ensures Valid()
      ensures end.None? ==> target.None? && name in staging && staging[name].installed == Some(original)
      ensures end.Some? ==> target == old(target)
      ensures end.Some? ==> end.value in {Died, Raised(Injected), Raised(OsError)}
      ensures end == Some(Raised(Injected)) ==> s.fault == Some(BeforeWithdrawn) && Clean()
      ensures s.renameFails || s.fault == Some(BeforeWithdrawn) ==> end.Some?
      ensures Smooth(s) && old(steps) >= 3 ==> end.None? && steps == old(steps) - 3
    {
      var alive := Step();
      if !alive { return Some(Died); }
      journal := Some(Journal(true, receipt.name, receipt.digest, name, start));
      if s.mkdirFails { return Some(Raised(OsError)); }
      alive := Step();
      if !alive { return Some(Died); }
      staging := staging[name := Staged(None)];
      if s.fault == Some(BeforeWithdrawn) { var aborted := Abort(name, Injected); return Some(aborted); }
      if s.renameFails { var aborted := Abort(name, OsError); return Some(aborted); }
      alive := Step();
      if !alive { return Some(Died); }
      staging, target := staging[name := Staged(target)], None;
      end := None;
    }

    /** What follows the rename, until only the empty directory and the journal are left. */
    method Collect(name: string, s: Surroundings, start: Config) returns (end: Option<Ending>)
      requires Valid() && name == TransactionName() && name in staging && staging[name].installed.Some?
      requires s.start == Some(start)
      modifies this`staging, this`steps
      ensures Valid()
      ensures end.None? ==> name in staging && staging[name].installed.None?
      ensures end.None? ==> s.middle == Some(start) && s.last == Some(start)
      ensures s.middle != Some(start) ==> staging == old(staging)
      ensures Smooth(s) && old(steps) > |old(staging)[name].installed.value| ==>
                end.None? && steps == old(steps) - |old(staging)[name].installed.value| - 1
      ensures end.Some? ==> end.value in {Died, Raised(Injected), Raised(ConfigInvalid), Raised(ConfigChanged), Raised(GcPending)}
    {
      if s.fault == Some(AfterWithdrawn) { return Some(Raised(Injected)); }
      if s.middle.None? { return Some(Raised(ConfigInvalid)); }
      if s.middle.value != start { return Some(Raised(ConfigChanged)); }
      if s.fault == Some(AfterConfigVerified) { return Some(Raised(Injected)); }
      var deletion := DeleteTree(name, s.removable);
      if deletion.Cut? { return Some(Died); }
      if deletion.Stuck? { return Some(Raised(GcPending)); }
      if s.fault == Some(AfterCommit) { return Some(Raised(Injected)); }
      if s.last.None? { return Some(Raised(ConfigInvalid)); }
      if s.last.value != start { return Some(Raised(ConfigChanged)); }
      end := None;
    }

    /** The transaction proper, from the journal to its removal. */
    method Remove(s: Surroundings, start: Config) returns (end: Ending)
      requires Valid() && Clean() && target.Some? && s.start == Some(start)
      modifies this
      ensures Valid() && (target == old(target) || target == None)
      ensures end in {Uninstalled, Died} || (end.Raised? && end.problem in {Injected, OsError, ConfigInvalid, ConfigChanged, GcPending})
      ensures end.Uninstalled? ==> target == None && Clean() && s.middle == Some(start) && s.last == Some(start)
      ensures s.middle != Some(start) ==> target == old(target) || WithdrawnWhole()
      ensures end == Raised(OsError) ==> target == old(target)
      ensures end.Raised? && (s.renameFails || s.fault == Some(BeforeWithdrawn)) ==> target == old(target)
      ensures end == Raised(Injected) && s.fault == Some(BeforeWithdrawn) ==> Clean()
      ensures Smooth(s) && old(steps) >= |original| + 6 ==> end.Uninstalled?
    {
      var name := TransactionName();
      var stopped := Withdraw(name, s, start);
      if stopped.Some? { return stopped.value; }
      var failed := Collect(name, s, start);
      if failed.Some? { return failed.value; }
      var alive := Discard(name);
      end := if alive then Uninstalled else Died;
    }

    /** `uninstall`: the live install ends as the exact original tree or absent, whatever happens on the way. */
    method Uninstall(s: Surroundings) returns (end: Ending)
      requires Valid()
      modifies this
      ensures Valid() && (target == old(target) || target == None)
      ensures end in {Uninstalled, AlreadyUninstalled} ==> target == None && Clean()
      ensures end == AlreadyUninstalled ==> old(target) == None
      ensures end == Uninstalled ==> old(target) == Some(original)
      ensures end.Raised? ==> end.problem !in {JournalMissing, OtherTransactionActive, JournalReceiptMismatch,
                                              TransactionAmbiguous, TransactionConflict}
      ensures end.Raised? && end.problem in {InstallDrift, OsError} ==> target == old(target)
      ensures end == Raised(InstallDrift) ==> Inventory(original) != receipt.entries
      ensures Inventory(original) != receipt.entries || s.validated.None? || s.start.None? ==> target == old(target)
      ensures end == Uninstalled ==>
                Inventory(original) == receipt.entries && s.validated.Some? && s.start.Some? && s.middle == s.start == s.last
      ensures s.middle != s.start ==> target == old(target) || WithdrawnWhole()
      ensures Smooth(s) && s.steps >= old(Work()) && old(target).Some? && Inventory(original) != receipt.entries ==>
                end == Raised(InstallDrift)
      ensures end.Raised? && (s.renameFails || s.fault == Some(BeforeWithdrawn)) ==> target == old(target)
      ensures end == Raised(Injected) && s.fault == Some(BeforeWithdrawn) ==> Clean()
      ensures Smooth(s) && s.steps >= old(Work()) + |original| + 6 && Inventory(original) == receipt.entries ==>
                end == if old(target).Some? then Uninstalled else AlreadyUninstalled
    {
      steps := s.steps;
      end := Recover(s.removable);
      if !end.Recovered? { return; }
      if s.validated.None? { return Raised(ConfigInvalid); }
      if target.None? { return AlreadyUninstalled; }
      if Inventory(target.value) != receipt.entries { return Raised(InstallDrift); }
      if s.start.None? { return Raised(ConfigInvalid); }
      if TransactionName() in staging || journal.Some? { return Raised(TransactionConflict); }
      end := Remove(s, s.start.value);
    }
  }

  // Runs -------------------------------------------------------------------------------------------------------

  datatype Invocation = RunUninstall(surroundings: Surroundings) | RunCheck(steps: nat, removable: Option<nat>)

  /** Any sequence of invocations, each of which may die anywhere: the live install is always the exact original tree or
      absent, once it is gone it stays gone, and one that differs from the receipt is never removed. */
  method RunAll(home: Installation, invocations: seq<Invocation>) returns (gone: bool)
    requires home.Valid()
    modifies home
    ensures home.Valid() && (home.target == old(home.target) || home.target == None)
    ensures gone <==> home.target == None
    ensures home.Inventory(home.original) != home.receipt.entries ==> home.target == old(home.target)
  {
    var i := 0;
    while i < |invocations|
      invariant 0 <= i <= |invocations|
      invariant home.Valid() && (home.target == old(home.target) || home.target == None)
      invariant home.Inventory(home.original) != home.receipt.entries ==> home.target == old(home.target)
    {
      match invocations[i] {
        case RunUninstall(s) => var end := home.Uninstall(s);
        case RunCheck(n, removable) =>
          home.steps := n;
          var end := home.Recover(removable);
      }
      i := i + 1;
    }
    gone := home.target.None?;
  }

  /** After anything, one recovery that is not interrupted leaves no journal and no transaction directory, and a second
      one has nothing to do. */
  method RecoverTwice(home: Installation, invocations: seq<Invocation>, steps: nat) returns (first: Ending, second: Ending)
    requires home.Valid()
    modifies home
    ensures home.Valid() && (home.target == old(home.target) || home.target == None)
    ensures first in {Recovered(0), Recovered(1), Died}
    ensures first.Recovered? ==> home.Clean() && second == Recovered(0)
  {
    var gone := RunAll(home, invocations);
    home.steps := steps;
    first := home.Recover(None);
    if first.Died? { return first, first; }
    second := home.Recover(None);
  }
}
