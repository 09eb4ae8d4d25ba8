/** Relative artifact paths: normalisation, code-point order, and case-fold collisions. */
module ArtifactPaths {
  import opened Base

  const CONTROL_PREFIXES := {".codex-loop", ".git"}

  // Components -------------------------------------------------------------------------------------------------

  /** `text.split("/")` */
  function Split(text: string): (parts: seq<string>)
    ensures parts != []
  {
    if text == "" then [""]
    else if text[0] == '/' then [""] + Split(text[1..])
    else
      var rest := Split(text[1..]);
      [[text[0]] + rest[0]] + rest[1..]
  }

  /** `"/".join(parts)` */
  function Join(parts: seq<string>): string {
    if parts == [] then "" else if |parts| == 1 then parts[0] else parts[0] + "/" + Join(parts[1..])
  }

  /** The parts `PurePosixPath` keeps: neither empty nor ".". */
  function Kept(parts: seq<string>): seq<string> {
    if parts == [] then []
    else (if parts[0] == "" || parts[0] == "." then [] else [parts[0]]) + Kept(parts[1..])
  }

  /** A component of a normal path. */
  predicate Plain(part: string) { part != "" && part != "." && '/' !in part }

  lemma {:induction false} SplitParts(text: string)
    ensures forall i :: 0 <= i < |Split(text)| ==> '/' !in Split(text)[i]
  {
    if text != "" { SplitParts(text[1..]); }
  }

  lemma {:induction false} KeptParts(parts: seq<string>)
    requires forall i :: 0 <= i < |parts| ==> '/' !in parts[i]
    ensures forall i :: 0 <= i < |Kept(parts)| ==> Plain(Kept(parts)[i]) && Kept(parts)[i] in parts
  {
    if parts != [] { KeptParts(parts[1..]); }
  }

  lemma {:induction false} KeptIsStable(parts: seq<string>)
    requires forall i :: 0 <= i < |parts| ==> Plain(parts[i])
    ensures Kept(parts) == parts
  {
    if parts != [] { KeptIsStable(parts[1..]); }
  }

  lemma {:induction false} SplitComponent(part: string, rest: string)
    requires '/' !in part
    ensures Split(part + "/" + rest) == [part] + Split(rest)
    ensures Split(part) == [part]
  {
    if part == "" {
      assert part + "/" + rest == "/" + rest;
      assert ("/" + rest)[1..] == rest;
    } else {
      assert part[0] in part && part == [part[0]] + part[1..];
      SplitComponent(part[1..], rest);
      assert (part + "/" + rest)[1..] == part[1..] + "/" + rest;
    }
  }

  /** Splitting what was joined gives the parts back. */
  lemma {:induction false} SplitJoin(parts: seq<string>)
    requires parts != [] && forall i :: 0 <= i < |parts| ==> '/' !in parts[i]
    ensures Split(Join(parts)) == parts
  {
    if |parts| == 1 {
      SplitComponent(parts[0], "");
    } else {
      SplitJoin(parts[1..]);
      SplitComponent(parts[0], Join(parts[1..]));
    }
  }

  // Normalisation ----------------------------------------------------------------------------------------------

  /** `normalize_relative_path`; nothing for a confinement violation. */
  function Normalize(relative: string): Option<string> {
    if relative == "" || '\0' in relative || '\\' in relative then None
    else
      var parts := Kept(Split(relative));
      if relative[0] == '/' || ".." in parts then None
      else if parts == [] || parts[0] in CONTROL_PREFIXES then None
      else Some(Join(parts))
  }

  predicate Normal(path: string) { Normalize(path) == Some(path) }

  lemma {:induction false} JoinCharacters(parts: seq<string>, c: char)
    ensures c in Join(parts) ==> c == '/' || exists i :: 0 <= i < |parts| && c in parts[i]
  {
    if |parts| > 1 {
      JoinCharacters(parts[1..], c);
      if c in Join(parts[1..]) && c != '/' {
        var i :| 0 <= i < |parts[1..]| && c in parts[1..][i];
        assert c in parts[i + 1];
      }
    }
  }

  lemma {:induction false} SplitCharacters(text: string, c: char)
    ensures (exists i :: 0 <= i < |Split(text)| && c in Split(text)[i]) ==> c in text
  {
    if text != "" {
      SplitCharacters(text[1..], c);
      if i :| 0 <= i < |Split(text)| && c in Split(text)[i] {
        if text[0] == '/' {
          assert i > 0 && Split(text)[i] == Split(text[1..])[i - 1];
        } else if i == 0 {
          if c != text[0] { assert c in Split(text[1..])[0]; }
        } else {
          assert Split(text)[i] == Split(text[1..])[i];
        }
      }
    }
  }

  lemma NormalCharacters(relative: string, c: char)
    requires c !in relative && c != '/'
    ensures c !in Join(Kept(Split(relative)))
  {
    var parts := Kept(Split(relative));
    SplitParts(relative);
    KeptParts(Split(relative));
    if c in Join(parts) {
      JoinCharacters(parts, c);
      var i :| 0 <= i < |parts| && c in parts[i];
      var j :| 0 <= j < |Split(relative)| && Split(relative)[j] == parts[i];
      SplitCharacters(relative, c);
    }
  }

  lemma JoinStart(parts: seq<string>)
    requires parts != [] && forall i :: 0 <= i < |parts| ==> Plain(parts[i])
    ensures Join(parts) != "" && Join(parts)[0] != '/'
  {
    assert parts[0] != "" && parts[0][0] in parts[0];
  }

  /** An accepted path is normal: relative, with plain components only, none of them "..", not under a control
      directory; so normalising it again changes nothing. */
  lemma NormalizeIsIdempotent(relative: string)
    requires Normalize(relative).Some?
    ensures Normal(Normalize(relative).value)
    ensures var parts := Split(Normalize(relative).value);
            (forall i :: 0 <= i < |parts| ==> Plain(parts[i]) && parts[i] != "..") && parts[0] !in CONTROL_PREFIXES
  {
    var parts := Kept(Split(relative));
    SplitParts(relative);
    KeptParts(Split(relative));
    SplitJoin(parts);
    KeptIsStable(parts);
    NormalCharacters(relative, '\0');
    NormalCharacters(relative, '\\');
    JoinStart(parts);
  }

  // Order ------------------------------------------------------------------------------------------------------

  /** Code-point order. */
  predicate AtMost(a: string, b: string) {
    a == "" || (b != "" && (a[0] < b[0] || (a[0] == b[0] && AtMost(a[1..], b[1..]))))
  }

  lemma {:induction false} OrderIsTotal(a: string, b: string)
    ensures AtMost(a, b) || AtMost(b, a)
    ensures AtMost(a, b) && AtMost(b, a) ==> a == b
  {
    if a != "" && b != "" && a[0] == b[0] { OrderIsTotal(a[1..], b[1..]); }
  }

  lemma {:induction false} OrderIsTransitive(a: string, b: string, c: string)
    requires AtMost(a, b) && AtMost(b, c)
    ensures AtMost(a, c)
  {
    if a != "" && a[0] == b[0] && b[0] == c[0] { OrderIsTransitive(a[1..], b[1..], c[1..]); }
  }

  predicate InOrder(s: seq<string>) { forall i, j :: 0 <= i < j < |s| ==> AtMost(s[i], s[j]) }

  /** `sorted`, one insertion at a time. */
  function Insert(s: seq<string>, x: string): (r: seq<string>)
    ensures multiset(r) == multiset(s) + multiset{x}
  {
    if s == [] || AtMost(x, s[0]) then [x] + s
    else
      assert s == [s[0]] + s[1..];
      [s[0]] + Insert(s[1..], x)
  }

  function Sorted(s: seq<string>): (r: seq<string>)
    ensures multiset(r) == multiset(s)
  {
    if s == [] then []
    else
      assert s == s[..|s| - 1] + [s[|s| - 1]];
      Insert(Sorted(s[..|s| - 1]), s[|s| - 1])
  }

  lemma {:induction false} InsertKeepsOrder(s: seq<string>, x: string)
    requires InOrder(s)
    ensures InOrder(Insert(s, x))
  {
    if s == [] {
    } else if AtMost(x, s[0]) {
      forall i, j | 0 <= i < j < |s| + 1 ensures AtMost(([x] + s)[i], ([x] + s)[j]) {
        if i == 0 && j > 1 { OrderIsTransitive(x, s[0], s[j - 1]); }
      }
    } else {
      InsertKeepsOrder(s[1..], x);
      OrderIsTotal(x, s[0]);
      var rest := Insert(s[1..], x);
      forall j | 0 <= j < |rest| ensures AtMost(s[0], rest[j]) {
        assert rest[j] in multiset(rest);
        assert rest[j] in s[1..] || rest[j] == x;
      }
    }
  }

  lemma {:induction false} SortedIsInOrder(s: seq<string>)
    ensures InOrder(Sorted(s))
  {
    if s != [] {
      SortedIsInOrder(s[..|s| - 1]);
      InsertKeepsOrder(Sorted(s[..|s| - 1]), s[|s| - 1]);
    }
  }

  // Collisions -------------------------------------------------------------------------------------------------

  /** Strictly ascending, and no two paths that differ only in case. */
  predicate Distinguished(paths: seq<string>, fold: string -> string) {
    && InOrder(paths)
    && (forall i, j :: 0 <= i < j < |paths| ==> paths[i] != paths[j] && fold(paths[i]) != fold(paths[j]))
  }

  predicate AllNormalize(paths: seq<string>) { forall i :: 0 <= i < |paths| ==> Normalize(paths[i]).Some? }

  function Normalized(paths: seq<string>): (r: seq<string>)
    requires AllNormalize(paths)
    ensures |r| == |paths|
  {
    seq(|paths|, i requires 0 <= i < |paths| => Normalize(paths[i]).value)
  }

  predicate NoCollision(paths: seq<string>, fold: string -> string) {
    forall i, j :: 0 <= i < j < |paths| ==> paths[i] != paths[j] && fold(paths[i]) != fold(paths[j])
  }

  lemma {:induction false} RepeatsShrink(s: seq<string>)
    ensures |Members(s)| <= |s|
    ensures |Members(s)| == |s| <==> forall i, j :: 0 <= i < j < |s| ==> s[i] != s[j]
  {
    if s != [] {
      var front, last := s[..|s| - 1], s[|s| - 1];
      RepeatsShrink(front);
      assert Members(s) == Members(front) + {last};
      if last in front {
        var i :| 0 <= i < |front| && front[i] == last;
        assert s[i] == s[|s| - 1];
      } else if |Members(front)| == |front| {
        forall i, j | 0 <= i < j < |s| ensures s[i] != s[j] {
          if j == |s| - 1 { assert s[i] == front[i]; } else { assert s[i] == front[i] && s[j] == front[j]; }
        }
      } else {
        var i, j :| 0 <= i < j < |front| && front[i] == front[j];
        assert s[i] == s[j];
      }
    }
  }

  function Members(s: seq<string>): set<string> { set i | 0 <= i < |s| :: s[i] }

  /** Sorting moves no collision in or out. */
  lemma SortedCollides(paths: seq<string>, fold: string -> string)
    ensures NoCollision(paths, fold) <==> NoCollision(Sorted(paths), fold)
  {
    if NoCollision(paths, fold) { CollisionMoves(Sorted(paths), paths, fold); } else { Collides(paths, fold); }
    if NoCollision(Sorted(paths), fold) { CollisionMoves(paths, Sorted(paths), fold); }
  }

  lemma Collides(paths: seq<string>, fold: string -> string)
    ensures NoCollision(Sorted(paths), fold) ==> NoCollision(paths, fold)
  {
    if NoCollision(Sorted(paths), fold) { CollisionMoves(paths, Sorted(paths), fold); }
  }

  lemma CollisionMoves(s: seq<string>, t: seq<string>, fold: string -> string)
    requires multiset(s) == multiset(t) && NoCollision(t, fold)
    ensures NoCollision(s, fold)
  {
    assert multiset(t) == multiset(s);
    UniqueCounts(t);
    forall i, j | 0 <= i < j < |s| ensures s[i] != s[j] && fold(s[i]) != fold(s[j]) {
      if s[i] == s[j] { TwiceCounts(s, i, j); }
      assert s[i] in multiset(t) && s[j] in multiset(t);
      var k, l :| 0 <= k < |t| && 0 <= l < |t| && t[k] == s[i] && t[l] == s[j];
    }
  }

  lemma {:induction false} UniqueCounts(t: seq<string>)
    requires forall i, j :: 0 <= i < j < |t| ==> t[i] != t[j]
    ensures forall x :: multiset(t)[x] <= 1
  {
    if t != [] {
      var front, last := t[..|t| - 1], t[|t| - 1];
      UniqueCounts(front);
      assert t == front + [last];
      assert last !in front;
    }
  }

  lemma TwiceCounts(s: seq<string>, i: nat, j: nat)
    requires i < j < |s| && s[i] == s[j]
    ensures multiset(s)[s[i]] >= 2
  {
    assert s == s[..j] + s[j..];
    assert s[..j][i] == s[i] && s[j..][0] == s[i];
    assert s[i] in multiset(s[..j]) && s[i] in multiset(s[j..]);
  }

  /** The comprehension that normalises every path. */
  method NormalizeAll(paths: seq<string>) returns (normalized: Option<seq<string>>)
    ensures normalized.Some? <==> AllNormalize(paths)
    ensures normalized.Some? ==> normalized.value == Normalized(paths)
  {
    var done: seq<string> := [];
    for i := 0 to |paths|
      invariant |done| == i && forall j :: 0 <= j < i ==> Normalize(paths[j]) == Some(done[j])
    {
      if Normalize(paths[i]).None? { return None; }
      done := done + [Normalize(paths[i]).value];
    }
    normalized := Some(done);
  }

  /** The loop over the `folded` dictionary, which lets equal paths pass. */
  method FoldsApart(paths: seq<string>, fold: string -> string) returns (apart: bool)
    ensures apart <==> forall i, j :: 0 <= i < j < |paths| ==> paths[i] == paths[j] || fold(paths[i]) != fold(paths[j])
  {
    var folded: map<string, string> := map[];
    for i := 0 to |paths|
      invariant forall j :: 0 <= j < i ==> fold(paths[j]) in folded && folded[fold(paths[j])] == paths[j]
      invariant forall k :: k in folded ==> exists j :: 0 <= j < i && fold(paths[j]) == k
    {
      var key := fold(paths[i]);
      if key in folded && folded[key] != paths[i] { return false; }
      folded := folded[key := paths[i]];
    }
    apart := true;
  }

  /** `reject_casefold_collisions`: the normalised paths in order, or nothing when one is not confined, two coincide,
      or two differ only in case. */
  method RejectCasefoldCollisions(paths: seq<string>, fold: string -> string) returns (result: Option<seq<string>>)
    ensures result.Some? <==> AllNormalize(paths) && NoCollision(Normalized(paths), fold)
    ensures result.Some? ==> result.value == Sorted(Normalized(paths)) && Distinguished(result.value, fold)
  {
    var normalized := NormalizeAll(paths);
    if normalized.None? { return None; }
    SortedCollides(normalized.value, fold);
    SortedIsInOrder(normalized.value);
    var sorted := Sorted(normalized.value);
    var apart := FoldsApart(sorted, fold);
    RepeatsShrink(sorted);
    if !apart || |sorted| != |Members(sorted)| { return None; }
    result := Some(sorted);
  }
}
