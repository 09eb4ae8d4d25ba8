/** The difference between two captured file trees: a patch that goes both ways. */
module ArtifactDelta {
  import opened Base
  import opened ArtifactPaths

  type Digest = string

  /** Captured files: the blob digest of each path. */
  type Files = map<string, Digest>

  datatype Status = Added | Deleted | Modified

  datatype Change = Change(path: string, before: Option<Digest>, after: Option<Digest>, status: Status)

  datatype Delta = Delta(manifest: seq<Change>, blobs: map<Digest, string>)

  // The manifest -----------------------------------------------------------------------------------------------

  /** The entry for one path, if its digest changed. */
  function Compare(path: string, before: Files, after: Files): seq<Change> {
    var was, now := Find(before, path), Find(after, path);
    if was == now then []
    else [Change(path, was, now, if was.None? then Added else if now.None? then Deleted else Modified)]
  }

  function ManifestOf(paths: seq<string>, before: Files, after: Files): seq<Change> {
    if paths == [] then []
    else ManifestOf(paths[..|paths| - 1], before, after) + Compare(paths[|paths| - 1], before, after)
  }

  /** The entry says what happened to its path: it is new, gone, or has another content. */
  predicate Tells(c: Change, before: Files, after: Files) {
    && c.before == Find(before, c.path) && c.after == Find(after, c.path)
    && match c.status
       case Added => c.path !in before && c.path in after
       case Deleted => c.path in before && c.path !in after
       case Modified => c.path in before && c.path in after && before[c.path] != after[c.path]
  }

  predicate Lists(manifest: seq<Change>, p: string) { exists c :: c in manifest && c.path == p }

  /** A manifest lists exactly the paths whose content differs, and tells what happened to each. */
  lemma {:induction false} ManifestTells(paths: seq<string>, before: Files, after: Files)
    ensures forall c :: c in ManifestOf(paths, before, after) ==> Tells(c, before, after)
    ensures forall p :: p in paths && Find(before, p) != Find(after, p) ==>
              Lists(ManifestOf(paths, before, after), p)
  {
    if paths != [] {
      var front, last := paths[..|paths| - 1], paths[|paths| - 1];
      ManifestTells(front, before, after);
      var m, more := ManifestOf(front, before, after), Compare(last, before, after);
      assert ManifestOf(paths, before, after) == m + more;
      forall p | p in paths && Find(before, p) != Find(after, p) ensures Lists(m + more, p) {
        if p == last {
          assert more[0] in m + more;
        } else {
          assert p in front;
          var c :| c in m && c.path == p;
          assert c in m + more;
        }
      }
    }
  }

  // Patching ---------------------------------------------------------------------------------------------------

  function Patched(files: Files, c: Change): Files {
    if c.after.Some? then files[c.path := c.after.value] else files - {c.path}
  }

  function Patch(files: Files, manifest: seq<Change>): Files {
    if manifest == [] then files
    else Patched(Patch(files, manifest[..|manifest| - 1]), manifest[|manifest| - 1])
  }

  function Inverse(c: Change): Change {
    Change(c.path, c.after, c.before, match c.status case Added => Deleted case Deleted => Added case Modified => Modified)
  }

  /** The same changes undone, last one first. */
  function Reversal(manifest: seq<Change>): seq<Change> {
    if manifest == [] then []
    else [Inverse(manifest[|manifest| - 1])] + Reversal(manifest[..|manifest| - 1])
  }

  lemma {:induction false} PatchAppends(files: Files, a: seq<Change>, b: seq<Change>)
    ensures Patch(files, a + b) == Patch(Patch(files, a), b)
  {
    if b == [] {
      assert a + b == a;
    } else {
      assert (a + b)[..|a + b| - 1] == a + b[..|b| - 1];
      PatchAppends(files, a, b[..|b| - 1]);
    }
  }

  /** One more path, patched: it is as after, and all others as they were. */
  lemma PatchOne(files: Files, last: string, before: Files, after: Files, p: string)
    requires Find(files, last) in {Find(before, last), Find(after, last)}
    ensures Find(Patch(files, Compare(last, before, after)), p) == if p == last then Find(after, last) else Find(files, p)
  {
    var more := Compare(last, before, after);
    if more != [] {
      assert more[..0] == [];
      assert Patch(files, more) == Patched(files, more[0]);
    }
  }

  lemma ManifestSplits(paths: seq<string>, before: Files, after: Files)
    requires paths != []
    ensures ManifestOf(paths, before, after)
            == ManifestOf(paths[..|paths| - 1], before, after) + Compare(paths[|paths| - 1], before, after)
  {
    hide Compare;
  }

  /** After patching, listed paths are as after and all others as before. */
  lemma {:induction false} PatchAt(paths: seq<string>, before: Files, after: Files, p: string)
    ensures Find(Patch(before, ManifestOf(paths, before, after)), p)
            == if p in paths then Find(after, p) else Find(before, p)
  {
    if paths != [] {
      hide Patch, ManifestOf, Compare;
      var front, last := paths[..|paths| - 1], paths[|paths| - 1];
      assert p in paths <==> p in front || p == last by { assert paths == front + [last]; }
      PatchAt(front, before, after, p);
      PatchAt(front, before, after, last);
      ManifestSplits(paths, before, after);
      PatchAppends(before, ManifestOf(front, before, after), Compare(last, before, after));
      PatchOne(Patch(before, ManifestOf(front, before, after)), last, before, after, p);
    }
  }

  predicate Covers(paths: seq<string>, before: Files, after: Files) {
    forall p :: p in before.Keys + after.Keys ==> p in paths
  }

  /** Applying the manifest to the files before gives exactly the files after. */
  lemma PatchGivesAfter(paths: seq<string>, before: Files, after: Files)
    requires Covers(paths, before, after)
    ensures Patch(before, ManifestOf(paths, before, after)) == after
  {
    var patched := Patch(before, ManifestOf(paths, before, after));
    forall p ensures Find(patched, p) == Find(after, p) { PatchAt(paths, before, after, p); }
    assert patched.Keys == after.Keys by {
      forall p ensures p in patched <==> p in after { assert Find(patched, p) == Find(after, p); }
    }
    forall p | p in after ensures patched[p] == after[p] { assert Find(patched, p) == Find(after, p); }
  }

  function Backwards(paths: seq<string>): seq<string> {
    if paths == [] then [] else [paths[|paths| - 1]] + Backwards(paths[..|paths| - 1])
  }

  lemma {:induction false} BackwardsMembers(paths: seq<string>, p: string)
    ensures p in Backwards(paths) <==> p in paths
  {
    if paths != [] {
      BackwardsMembers(paths[..|paths| - 1], p);
      assert paths == paths[..|paths| - 1] + [paths[|paths| - 1]];
    }
  }

  lemma {:induction false} ManifestAppends(a: seq<string>, b: seq<string>, before: Files, after: Files)
    ensures ManifestOf(a + b, before, after) == ManifestOf(a, before, after) + ManifestOf(b, before, after)
  {
    if b == [] {
      assert a + b == a;
    } else {
      assert (a + b)[..|a + b| - 1] == a + b[..|b| - 1];
      ManifestAppends(a, b[..|b| - 1], before, after);
    }
  }

  lemma {:induction false} ReversalAppends(a: seq<Change>, b: seq<Change>)
    ensures Reversal(a + b) == Reversal(b) + Reversal(a)
  {
    if b == [] {
      assert a + b == a;
    } else {
      assert (a + b)[..|a + b| - 1] == a + b[..|b| - 1];
      ReversalAppends(a, b[..|b| - 1]);
    }
  }

  /** Undoing a manifest is the manifest of the opposite difference. */
  lemma {:induction false} ReversalIsManifest(paths: seq<string>, before: Files, after: Files)
    ensures Reversal(ManifestOf(paths, before, after)) == ManifestOf(Backwards(paths), after, before)
  {
    if paths != [] {
      var front, last := paths[..|paths| - 1], paths[|paths| - 1];
      ReversalIsManifest(front, before, after);
      ReversalAppends(ManifestOf(front, before, after), Compare(last, before, after));
      ManifestAppends([last], Backwards(front), after, before);
      assert ManifestOf([last], after, before) == Compare(last, after, before) by {
        assert [last][..0] == [];
      }
      assert Reversal(Compare(last, before, after)) == Compare(last, after, before);
    }
  }

  /** Reversing the manifest takes the files after back to exactly the files before. */
  lemma ReversalGivesBefore(paths: seq<string>, before: Files, after: Files)
    requires Covers(paths, before, after)
    ensures Patch(after, Reversal(ManifestOf(paths, before, after))) == before
  {
    ReversalIsManifest(paths, before, after);
    forall p | p in after.Keys + before.Keys ensures p in Backwards(paths) { BackwardsMembers(paths, p); }
    PatchGivesAfter(Backwards(paths), after, before);
  }

  lemma {:induction false} ManifestEntries(paths: seq<string>, before: Files, after: Files, c: Change)
    ensures c in ManifestOf(paths, before, after) <==> c.path in paths && [c] == Compare(c.path, before, after)
  {
    if paths != [] {
      var front, last := paths[..|paths| - 1], paths[|paths| - 1];
      assert paths == front + [last];
      ManifestEntries(front, before, after, c);
    }
  }

  /** The manifest is empty exactly when nothing changed. */
  lemma EmptyMeansEqual(paths: seq<string>, before: Files, after: Files)
    requires Covers(paths, before, after)
    ensures ManifestOf(paths, before, after) == [] <==> before == after
  {
    if ManifestOf(paths, before, after) == [] { PatchGivesAfter(paths, before, after); }
    if before == after { NothingToCompare(paths, before); }
  }

  lemma {:induction false} NothingToCompare(paths: seq<string>, files: Files)
    ensures ManifestOf(paths, files, files) == []
  {
    if paths != [] { NothingToCompare(paths[..|paths| - 1], files); }
  }

  /** Entries are in path order, each path once and no two equal up to case. */
  lemma {:induction false} ManifestIsDistinguished(paths: seq<string>, before: Files, after: Files, fold: string -> string)
    requires Distinguished(paths, fold)
    ensures var m := ManifestOf(paths, before, after);
            forall i, j :: 0 <= i < j < |m| ==>
              AtMost(m[i].path, m[j].path) && m[i].path != m[j].path && fold(m[i].path) != fold(m[j].path)
  {
    if paths != [] {
      var front, last := paths[..|paths| - 1], paths[|paths| - 1];
      ManifestIsDistinguished(front, before, after, fold);
      var m := ManifestOf(front, before, after);
      forall i | 0 <= i < |m|
        ensures AtMost(m[i].path, last) && m[i].path != last && fold(m[i].path) != fold(last)
      {
        ManifestEntries(front, before, after, m[i]);
        assert m[i] in m;
        var k :| 0 <= k < |front| && front[k] == m[i].path;
        assert paths[k] == front[k];
      }
    }
  }

  // The capture ------------------------------------------------------------------------------------------------

  /** The blob of every added or modified file, and nothing else. */
  predicate BlobsCover(manifest: seq<Change>, contents: map<Digest, string>, blobs: map<Digest, string>) {
    && (forall c :: c in manifest && c.after.Some? ==>
          c.after.value in blobs && c.after.value in contents && blobs[c.after.value] == contents[c.after.value])
    && (forall d :: d in blobs ==> exists c :: c in manifest && c.after == Some(d))
  }

  method PathsOf(known: set<string>) returns (paths: seq<string>)
    ensures multiset(paths) == multiset(known)
  {
    paths := [];
    var rest := known;
    while rest != {}
      invariant rest <= known && multiset(paths) == multiset(known - rest)
      decreases |rest|
    {
      var p :| p in rest;
      paths := paths + [p];
      assert known - (rest - {p}) == (known - rest) + {p};
      rest := rest - {p};
    }
    assert known - rest == known;
  }

  lemma PathsAreUnique(paths: seq<string>, known: set<string>)
    requires multiset(paths) == multiset(known)
    ensures forall p :: p in paths <==> p in known
    ensures forall i, j :: 0 <= i < j < |paths| ==> paths[i] != paths[j]
  {
    forall p ensures p in paths <==> p in known { assert p in paths <==> p in multiset(paths); }
    forall i, j | 0 <= i < j < |paths| ensures paths[i] != paths[j] {
      if paths[i] == paths[j] { TwiceCounts(paths, i, j); }
    }
  }

  /** Captured paths are normal: normalising them again keeps them. */
  predicate Captured(files: Files) { forall p :: p in files ==> Normal(p) }

  lemma NormalPaths(paths: seq<string>)
    requires forall i :: 0 <= i < |paths| ==> Normal(paths[i])
    ensures AllNormalize(paths) && Normalized(paths) == paths
  {
  }

  /** The paths of both trees differ in more than case. */
  predicate CaseDistinct(known: set<string>, fold: string -> string) {
    forall p, q :: p in known && q in known && p != q ==> fold(p) != fold(q)
  }

  /** The loop that compares path by path and collects the blobs. */
  method ComparePaths(paths: seq<string>, before: Files, after: Files, contents: map<Digest, string>) returns (delta: Delta)
    requires forall p :: p in paths ==> p in before || p in after
    requires forall p :: p in after ==> after[p] in contents
    ensures delta.manifest == ManifestOf(paths, before, after) && BlobsCover(delta.manifest, contents, delta.blobs)
  {
    var manifest: seq<Change> := [];
    var blobs: map<Digest, string> := map[];
    for i := 0 to |paths|
      invariant manifest == ManifestOf(paths[..i], before, after) && BlobsCover(manifest, contents, blobs)
    {
      var path := paths[i];
      assert path in paths;
      assert paths[..i + 1] == paths[..i] + [path] && (paths[..i] + [path])[..i] == paths[..i];
      var was, now := Find(before, path), Find(after, path);
      var status;
      if was.None? {
        status := Added;
      } else if now.None? {
        status := Deleted;
      } else if was != now {
        status := Modified;
      } else {
        continue;
      }
      var change := Change(path, was, now, status);
      assert Compare(path, before, after) == [change];
      ghost var blobsBefore := blobs;
      if now.Some? { blobs := blobs[now.value := contents[now.value]]; }
      BlobsGrow(manifest, change, contents, blobsBefore, blobs);
      manifest := manifest + [change];
    }
    assert paths[..|paths|] == paths;
    delta := Delta(manifest, blobs);
  }

  lemma BlobsGrow(manifest: seq<Change>, c: Change, contents: map<Digest, string>, blobs: map<Digest, string>,
                  more: map<Digest, string>)
    requires BlobsCover(manifest, contents, blobs) && (c.after.Some? ==> c.after.value in contents)
    requires more == if c.after.Some? then blobs[c.after.value := contents[c.after.value]] else blobs
    ensures BlobsCover(manifest + [c], contents, more)
  {
    var all := manifest + [c];
    assert all[|manifest|] == c;
    forall d | d in more ensures exists e :: e in all && e.after == Some(d) {
      if c.after == Some(d) {
        assert c in all;
      } else {
        var e :| e in manifest && e.after == Some(d);
        assert e in all;
      }
    }
  }

  /** The paths of two trees in order, unless some of them differ only in case. */
  method CapturedPaths(known: set<string>, fold: string -> string) returns (paths: Option<seq<string>>)
    requires forall p :: p in known ==> Normal(p)
    ensures paths.Some? <==> CaseDistinct(known, fold)
    ensures paths.Some? ==>
              && (forall p :: p in paths.value <==> p in known) && Distinguished(paths.value, fold)
              && (forall i, j :: 0 <= i < j < |paths.value| ==> paths.value[i] != paths.value[j])
  {
    var listed := PathsOf(known);
    PathsAreUnique(listed, known);
    assert forall i :: 0 <= i < |listed| ==> listed[i] in known;
    NormalPaths(listed);
    CollisionsOfKnown(listed, known, fold);
    paths := RejectCasefoldCollisions(listed, fold);
    if paths.None? { return; }
    assert multiset(paths.value) == multiset(known);
    PathsAreUnique(paths.value, known);
  }

  /** `capture_non_git_delta` on two captured trees: nothing when two paths collide, and otherwise a manifest that
      patches the one tree into the other and back, and tells of every path that differs what happened to it. */
  method CaptureDelta(before: Files, after: Files, contents: map<Digest, string>, fold: string -> string)
    returns (delta: Option<Delta>)
    requires Captured(before) && Captured(after) && forall p :: p in after ==> after[p] in contents
    ensures delta.Some? <==> CaseDistinct(before.Keys + after.Keys, fold)
    ensures delta.Some? ==>
              var m := delta.value.manifest;
              && Patch(before, m) == after && Patch(after, Reversal(m)) == before
              && (m == [] <==> before == after)
              && (forall i, j :: 0 <= i < j < |m| ==>
                    AtMost(m[i].path, m[j].path) && m[i].path != m[j].path && fold(m[i].path) != fold(m[j].path))
              && BlobsCover(m, contents, delta.value.blobs)
              && (forall c :: c in m ==> Tells(c, before, after))
              && (forall p :: p in before.Keys + after.Keys && Find(before, p) != Find(after, p) ==> Lists(m, p))
  {
    hide ManifestOf, Patch, Reversal, Tells, Lists, BlobsCover, CaseDistinct;
    var paths := CapturedPaths(before.Keys + after.Keys, fold);
    if paths.None? { return None; }
    var found := ComparePaths(paths.value, before, after, contents);
    PatchGivesAfter(paths.value, before, after);
    ReversalGivesBefore(paths.value, before, after);
    EmptyMeansEqual(paths.value, before, after);
    ManifestIsDistinguished(paths.value, before, after, fold);
    ManifestTells(paths.value, before, after);
    delta := Some(found);
  }

  lemma CollisionsOfKnown(listed: seq<string>, known: set<string>, fold: string -> string)
    requires (forall p :: p in listed <==> p in known) && forall i, j :: 0 <= i < j < |listed| ==> listed[i] != listed[j]
    ensures NoCollision(listed, fold) <==> CaseDistinct(known, fold)
  {
    if NoCollision(listed, fold) {
      forall p, q | p in known && q in known && p != q ensures fold(p) != fold(q) {
        var i :| 0 <= i < |listed| && listed[i] == p;
        var j :| 0 <= j < |listed| && listed[j] == q;
        assert i < j || j < i;
      }
    }
  }
}
