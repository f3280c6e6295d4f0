// What undoing a whole history leaves, in whatever order the names of its checkpoints sort.
module UndoOrder {
  import opened Options
  import opened Checkpoints

  // Undoing a set of checkpoints that are newer than all others.

  ghost predicate AllNewer(s: Project, recent: set<string>) {
    && recent <= s.checkpoints.Keys
    && forall older, name | older in s.checkpoints && older !in recent && name in recent :: Before(older, name)
  }

  predicate Touched(s: Project, recent: set<string>, path: string)
    requires recent <= s.checkpoints.Keys
  {
    exists name :: name in recent && s.checkpoints[name].path == path
  }

  // Of the checkpoints of its file, the one whose name is least.
  predicate LeastName(s: Project, recent: set<string>, name: string)
    requires recent <= s.checkpoints.Keys
  {
    name in recent
    && forall other | other in recent && other != name && s.checkpoints[other].path == s.checkpoints[name].path ::
         Before(name, other)
  }

  // Every file has the content saved under its least name; other files are as they are.
  ghost predicate Unwound(s: Project, recent: set<string>, q: Project)
    requires recent <= s.checkpoints.Keys
  {
    && q.checkpoints == s.checkpoints - recent
    && (forall name | LeastName(s, recent, name) ::
          Lookup(q.files, s.checkpoints[name].path) == Saved(s.checkpoints[name]))
    && (forall path | !Touched(s, recent, path) :: Lookup(q.files, path) == Lookup(s.files, path))
  }

  // The newest of them.
  predicate Greatest(recent: set<string>, m: string) {
    IsLatest(recent, m)
  }

  lemma UnwindFirst(s: Project, recent: set<string>, m: string, q: Project)
    requires AllNewer(s, recent) && Greatest(recent, m)
    requires Unwound(Restored(s, m), recent - {m}, q)
    ensures Unwound(s, recent, q)
  {
    var next, rest := Restored(s, m), recent - {m};
    assert next.checkpoints - rest == s.checkpoints - recent;
    forall name | LeastName(s, recent, name)
      ensures Lookup(q.files, s.checkpoints[name].path) == Saved(s.checkpoints[name])
    {
      if name == m {
        forall other | other in rest ensures next.checkpoints[other].path != s.checkpoints[m].path {
          BeforeTotal(m, other);
        }
        assert !Touched(next, rest, s.checkpoints[m].path);
      } else {
        assert LeastName(next, rest, name);
      }
    }
    forall path | !Touched(s, recent, path) ensures Lookup(q.files, path) == Lookup(s.files, path) {
      assert path != s.checkpoints[m].path;
      assert !Touched(next, rest, path);
    }
  }

  lemma UnwindRest(s: Project, recent: set<string>, m: string, q: Project)
    requires AllNewer(s, recent) && Greatest(recent, m) && Unwound(s, recent, q)
    ensures Unwound(Restored(s, m), recent - {m}, q)
  {
    var next, rest := Restored(s, m), recent - {m};
    assert next.checkpoints - rest == s.checkpoints - recent;
    forall name | LeastName(next, rest, name)
      ensures Lookup(q.files, next.checkpoints[name].path) == Saved(next.checkpoints[name])
    {
      assert LeastName(s, recent, name);
    }
    forall path | !Touched(next, rest, path) ensures Lookup(q.files, path) == Lookup(next.files, path) {
      UntouchedRest(s, recent, m, q, path);
    }
  }

  // A file that no other recent checkpoint is of: m's own, or one untouched from the start.
  lemma UntouchedRest(s: Project, recent: set<string>, m: string, q: Project, path: string)
    requires AllNewer(s, recent) && m in recent && Unwound(s, recent, q)
    requires recent - {m} <= Restored(s, m).checkpoints.Keys
    requires !Touched(Restored(s, m), recent - {m}, path)
    ensures Lookup(q.files, path) == Lookup(Restored(s, m).files, path)
  {
    var next, rest := Restored(s, m), recent - {m};
    forall other | other in recent && other != m ensures s.checkpoints[other].path != path {
      assert other in rest && next.checkpoints[other].path == s.checkpoints[other].path;
    }
    if path == s.checkpoints[m].path {
      assert LeastName(s, recent, m);
    } else {
      assert !Touched(s, recent, path);
    }
  }

  lemma {:induction false} GreatestExists(names: set<string>) returns (m: string)
    requires names != {}
    ensures Greatest(names, m)
    decreases |names|
  {
    var x :| x in names;
    var rest := names - {x};
    if rest == {} {
      assert names == {x};
      return x;
    }
    m := GreatestExists(rest);
    BeforeTotal(x, m);
    if Before(m, x) {
      forall other | other in rest ensures other == x || Before(other, x) {
        if other != m { BeforeTransitive(other, m, x); }
      }
      m := x;
    }
  }

  lemma SameLookups(a: map<string, string>, b: map<string, string>)
    requires forall path :: Lookup(a, path) == Lookup(b, path)
    ensures a == b
  {
    forall path ensures path in a <==> path in b {
      assert Lookup(a, path) == Lookup(b, path);
    }
    forall path | path in a ensures a[path] == b[path] {
      assert Lookup(a, path) == Lookup(b, path);
    }
  }

  lemma UndoneFirst(s: Project, n: nat, m: string, q: Project)
    requires n > 0 && IsLatest(s.checkpoints.Keys, m)
    ensures Undone(s, n, q) <==> Undone(Restored(s, m), n - 1, q)
  {
    forall name | IsLatest(s.checkpoints.Keys, name) ensures name == m {
      LatestIsUnique(s.checkpoints.Keys, name, m);
    }
  }

  lemma UnwoundNothing(s: Project, q: Project)
    ensures Unwound(s, {}, q) <==> s == q
  {
    assert forall path :: !Touched(s, {}, path);
    assert s.checkpoints - {} == s.checkpoints;
    if Unwound(s, {}, q) {
      SameLookups(q.files, s.files);
    }
  }

  lemma UnwindOne(s: Project, recent: set<string>, m: string, q: Project)
    requires AllNewer(s, recent) && Greatest(recent, m)
    ensures AllNewer(Restored(s, m), recent - {m})
    ensures Unwound(Restored(s, m), recent - {m}, q) <==> Unwound(s, recent, q)
  {
    if Unwound(s, recent, q) {
      UnwindRest(s, recent, m, q);
    }
    if Unwound(Restored(s, m), recent - {m}, q) {
      UnwindFirst(s, recent, m, q);
    }
  }

  lemma GreatestIsLatest(s: Project, recent: set<string>, m: string)
    requires AllNewer(s, recent) && Greatest(recent, m)
    ensures IsLatest(s.checkpoints.Keys, m)
  {
  }

  lemma NewestOf(s: Project, recent: set<string>) returns (m: string)
    requires AllNewer(s, recent) && recent != {}
    ensures Greatest(recent, m) && m in recent && m in s.checkpoints
    ensures AllNewer(Restored(s, m), recent - {m}) && |recent - {m}| == |recent| - 1
  {
    m := GreatestExists(recent);
  }

  lemma UndoneUnwoundStep(s: Project, recent: set<string>, m: string, q: Project)
    requires AllNewer(s, recent) && Greatest(recent, m) && |recent - {m}| == |recent| - 1
    requires AllNewer(Restored(s, m), recent - {m})
    requires Undone(Restored(s, m), |recent - {m}|, q) <==> Unwound(Restored(s, m), recent - {m}, q)
    ensures Undone(s, |recent|, q) <==> Unwound(s, recent, q)
  {
    GreatestIsLatest(s, recent, m);
    UndoneFirst(s, |recent|, m, q);
    UnwindOne(s, recent, m, q);
  }

  lemma {:induction false} UndoneMeansUnwound(s: Project, recent: set<string>, q: Project)
    requires AllNewer(s, recent)
    ensures Undone(s, |recent|, q) <==> Unwound(s, recent, q)
    decreases |recent|
  {
    if recent == {} {
      UnwoundNothing(s, q);
    } else {
      var m := NewestOf(s, recent);
      var next, rest := Restored(s, m), recent - {m};
      UndoneMeansUnwound(next, rest, q);
      UndoneUnwoundStep(s, recent, m, q);
    }
  }

  // Histories of edits.

  // The names are distinct, and newer than those of the checkpoints before the history.
  predicate FreshNames(p: Project, edits: seq<Edit>) {
    && (forall i | 0 <= i < |edits| :: NewerThanAll(p, NameOf(edits[i])))
    && (forall i, j | 0 <= i < j < |edits| :: NameOf(edits[i]) != NameOf(edits[j]))
  }

  function NewNames(edits: seq<Edit>): set<string> {
    set i | 0 <= i < |edits| :: NameOf(edits[i])
  }

  // What the i-th edit found in its file.
  function Recorded(p: Project, edits: seq<Edit>, i: nat): Option<string>
    requires i < |edits|
  {
    Lookup(EditedAll(p, edits[..i]).files, edits[i].path)
  }

  // Of the edits of its file, the one whose checkpoint sorts first.
  predicate Least(edits: seq<Edit>, i: nat)
    requires i < |edits|
  {
    forall j | 0 <= j < |edits| && j != i && edits[j].path == edits[i].path ::
      Before(NameOf(edits[i]), NameOf(edits[j]))
  }

  predicate Edits(edits: seq<Edit>, path: string) {
    exists i :: 0 <= i < |edits| && edits[i].path == path
  }

  lemma NewNamesSnoc(init: seq<Edit>, e: Edit)
    ensures NewNames(init + [e]) == NewNames(init) + {NameOf(e)}
  {
    var edits := init + [e];
    forall name | name in NewNames(edits) ensures name in NewNames(init) + {NameOf(e)} {
      var i :| 0 <= i < |edits| && name == NameOf(edits[i]);
      if i < |init| { assert NameOf(init[i]) in NewNames(init); }
    }
    forall name | name in NewNames(init) ensures name in NewNames(edits) {
      var i :| 0 <= i < |init| && name == NameOf(init[i]);
      assert NameOf(edits[i]) in NewNames(edits);
    }
    assert NameOf(edits[|init|]) in NewNames(edits);
  }

  lemma {:induction false} NewNamesCount(p: Project, edits: seq<Edit>)
    requires FreshNames(p, edits)
    ensures |NewNames(edits)| == |edits|
  {
    if edits != [] {
      var init, e := edits[..|edits| - 1], edits[|edits| - 1];
      NewNamesCount(p, init);
      assert edits == init + [e];
      NewNamesSnoc(init, e);
      assert NameOf(e) !in NewNames(init);
    }
  }

  lemma {:induction false} CheckpointOf(p: Project, edits: seq<Edit>, i: nat)
    requires FreshNames(p, edits) && i < |edits|
    ensures NameOf(edits[i]) in EditedAll(p, edits).checkpoints
    ensures var c := EditedAll(p, edits).checkpoints[NameOf(edits[i])];
            c.path == edits[i].path && Saved(c) == Recorded(p, edits, i)
  {
    var init := edits[..|edits| - 1];
    if i < |init| {
      CheckpointOf(p, init, i);
      assert init[..i] == edits[..i];
    }
  }

  lemma {:induction false} OldCheckpointsStay(p: Project, edits: seq<Edit>)
    requires FreshNames(p, edits)
    ensures EditedAll(p, edits).checkpoints - NewNames(edits) == p.checkpoints
    ensures EditedAll(p, edits).checkpoints.Keys == p.checkpoints.Keys + NewNames(edits)
  {
    var all := EditedAll(p, edits).checkpoints;
    forall name ensures name in all <==> name in p.checkpoints || name in NewNames(edits) {
      EditedNames(p, edits, name);
    }
    forall name | name in p.checkpoints ensures name !in NewNames(edits) && name in all && all[name] == p.checkpoints[name] {
      if name in NewNames(edits) {
        BeforeTotal(name, name);
      }
      OldCheckpointStays(p, edits, name);
    }
  }

  lemma {:induction false} OldCheckpointStays(p: Project, edits: seq<Edit>, name: string)
    requires name in p.checkpoints && name !in NewNames(edits)
    ensures name in EditedAll(p, edits).checkpoints
    ensures EditedAll(p, edits).checkpoints[name] == p.checkpoints[name]
  {
    if edits != [] {
      var init := edits[..|edits| - 1];
      assert NameOf(edits[|edits| - 1]) in NewNames(edits);
      assert forall i | 0 <= i < |init| :: init[i] == edits[i] && NameOf(edits[i]) in NewNames(edits);
      OldCheckpointStays(p, init, name);
    }
  }

  lemma {:induction false} OtherFilesStay(p: Project, edits: seq<Edit>, path: string)
    requires !Edits(edits, path)
    ensures Lookup(EditedAll(p, edits).files, path) == Lookup(p.files, path)
  {
    if edits != [] {
      assert edits[|edits| - 1].path != path;
      OtherFilesStay(p, edits[..|edits| - 1], path);
    }
  }

  // What a whole history leaves after as many undos: the old checkpoints, in every edited
  // file what the edit with the least name found there, and the other files.
  ghost predicate Left(p: Project, edits: seq<Edit>, q: Project) {
    && q.checkpoints == p.checkpoints
    && (forall i | 0 <= i < |edits| && Least(edits, i) ::
          Lookup(q.files, edits[i].path) == Recorded(p, edits, i))
    && (forall path | !Edits(edits, path) :: Lookup(q.files, path) == Lookup(p.files, path))
  }

  lemma LeastIsLeastName(p: Project, edits: seq<Edit>, i: nat)
    requires FreshNames(p, edits) && i < |edits| && NewNames(edits) <= EditedAll(p, edits).checkpoints.Keys
    ensures Least(edits, i) <==> LeastName(EditedAll(p, edits), NewNames(edits), NameOf(edits[i]))
  {
    var s, recent := EditedAll(p, edits), NewNames(edits);
    CheckpointOf(p, edits, i);
    if Least(edits, i) {
      forall other | other in recent && other != NameOf(edits[i])
                     && s.checkpoints[other].path == s.checkpoints[NameOf(edits[i])].path
        ensures Before(NameOf(edits[i]), other)
      {
        var j :| 0 <= j < |edits| && other == NameOf(edits[j]);
        CheckpointOf(p, edits, j);
      }
    }
    if LeastName(s, recent, NameOf(edits[i])) {
      forall j | 0 <= j < |edits| && j != i && edits[j].path == edits[i].path
        ensures Before(NameOf(edits[i]), NameOf(edits[j]))
      {
        CheckpointOf(p, edits, j);
        assert NameOf(edits[j]) in recent;
      }
    }
  }

  lemma TouchedMeansEdited(p: Project, edits: seq<Edit>, path: string)
    requires FreshNames(p, edits) && NewNames(edits) <= EditedAll(p, edits).checkpoints.Keys
    ensures Touched(EditedAll(p, edits), NewNames(edits), path) <==> Edits(edits, path)
  {
    if Touched(EditedAll(p, edits), NewNames(edits), path) {
      var name :| name in NewNames(edits) && EditedAll(p, edits).checkpoints[name].path == path;
      var i :| 0 <= i < |edits| && name == NameOf(edits[i]);
      CheckpointOf(p, edits, i);
    }
    if Edits(edits, path) {
      var i :| 0 <= i < |edits| && edits[i].path == path;
      CheckpointOf(p, edits, i);
      assert NameOf(edits[i]) in NewNames(edits);
    }
  }

  lemma UnwoundLeaves(p: Project, edits: seq<Edit>, q: Project)
    requires FreshNames(p, edits) && NewNames(edits) <= EditedAll(p, edits).checkpoints.Keys
    requires EditedAll(p, edits).checkpoints - NewNames(edits) == p.checkpoints
    requires Unwound(EditedAll(p, edits), NewNames(edits), q)
    ensures Left(p, edits, q)
  {
    var s, recent := EditedAll(p, edits), NewNames(edits);
    forall i | 0 <= i < |edits| && Least(edits, i) ensures Lookup(q.files, edits[i].path) == Recorded(p, edits, i) {
      LeastIsLeastName(p, edits, i);
      CheckpointOf(p, edits, i);
    }
    forall path | !Edits(edits, path) ensures Lookup(q.files, path) == Lookup(p.files, path) {
      TouchedMeansEdited(p, edits, path);
      OtherFilesStay(p, edits, path);
    }
  }

  lemma LeftUnwinds(p: Project, edits: seq<Edit>, q: Project)
    requires FreshNames(p, edits) && NewNames(edits) <= EditedAll(p, edits).checkpoints.Keys
    requires EditedAll(p, edits).checkpoints - NewNames(edits) == p.checkpoints
    requires Left(p, edits, q)
    ensures Unwound(EditedAll(p, edits), NewNames(edits), q)
  {
    var s, recent := EditedAll(p, edits), NewNames(edits);
    forall name | LeastName(s, recent, name)
      ensures Lookup(q.files, s.checkpoints[name].path) == Saved(s.checkpoints[name])
    {
      var i :| 0 <= i < |edits| && name == NameOf(edits[i]);
      LeastIsLeastName(p, edits, i);
      CheckpointOf(p, edits, i);
    }
    forall path | !Touched(s, recent, path) ensures Lookup(q.files, path) == Lookup(s.files, path) {
      TouchedMeansEdited(p, edits, path);
      OtherFilesStay(p, edits, path);
    }
  }

  lemma UndoLeaves(p: Project, edits: seq<Edit>, q: Project)
    requires FreshNames(p, edits)
    ensures Undone(EditedAll(p, edits), |edits|, q) <==> Left(p, edits, q)
  {
    var s, recent := EditedAll(p, edits), NewNames(edits);
    NewNamesCount(p, edits);
    OldCheckpointsStay(p, edits);
    assert AllNewer(s, recent) by {
      forall older, name | older in s.checkpoints && older !in recent && name in recent ensures Before(older, name) {
        assert older in p.checkpoints;
      }
    }
    UndoneMeansUnwound(s, recent, q);
    if Unwound(s, recent, q) {
      UnwoundLeaves(p, edits, q);
    }
    if Left(p, edits, q) {
      LeftUnwinds(p, edits, q);
    }
  }

  // Undoing a whole history restores the project exactly when, file by file, the edit with
  // the least name found there what was there at the start.
  lemma UndoRestoresIff(p: Project, edits: seq<Edit>)
    requires FreshNames(p, edits)
    ensures Undone(EditedAll(p, edits), |edits|, p)
       <==> forall i | 0 <= i < |edits| && Least(edits, i) :: Recorded(p, edits, i) == Lookup(p.files, edits[i].path)
  {
    UndoLeaves(p, edits, p);
  }

  // Names alone.

  // The i-th edit is the first of its file.
  predicate First(edits: seq<Edit>, i: nat)
    requires i < |edits|
  {
    forall j | 0 <= j < i :: edits[j].path != edits[i].path
  }

  predicate FirstIsLeast(edits: seq<Edit>) {
    forall i | 0 <= i < |edits| && First(edits, i) :: Least(edits, i)
  }

  // The same history with other contents written.
  function Writing(edits: seq<Edit>, texts: seq<string>): (r: seq<Edit>)
    requires |texts| == |edits|
    ensures |r| == |edits|
  {
    seq(|edits|, i requires 0 <= i < |edits| => edits[i].(after := Some(texts[i])))
  }

  lemma WritingKeepsNames(p: Project, edits: seq<Edit>, texts: seq<string>)
    requires |texts| == |edits| && FreshNames(p, edits)
    ensures FreshNames(p, Writing(edits, texts)) && FirstIsLeast(Writing(edits, texts)) == FirstIsLeast(edits)
  {
    var es := Writing(edits, texts);
    assert forall i | 0 <= i < |edits| :: NameOf(es[i]) == NameOf(edits[i]) && es[i].path == edits[i].path;
    forall i | 0 <= i < |edits| ensures First(es, i) == First(edits, i) && Least(es, i) == Least(edits, i) {
    }
  }

  lemma {:induction false} FirstExists(edits: seq<Edit>, i: nat) returns (f: nat)
    requires i < |edits|
    ensures f <= i && edits[f].path == edits[i].path && First(edits, f)
  {
    if First(edits, i) {
      return i;
    }
    var j :| 0 <= j < i && edits[j].path == edits[i].path;
    f := FirstExists(edits, j);
  }

  lemma LeastExists(p: Project, edits: seq<Edit>, i: nat) returns (k: nat)
    requires FreshNames(p, edits) && i < |edits|
    ensures k < |edits| && edits[k].path == edits[i].path && Least(edits, k)
  {
    k := i;
    for j := 0 to |edits|
      invariant k < |edits| && edits[k].path == edits[i].path
      invariant forall l | 0 <= l < j && l != k && edits[l].path == edits[i].path ::
        Before(NameOf(edits[k]), NameOf(edits[l]))
    {
      if j != k && edits[j].path == edits[i].path {
        BeforeTotal(NameOf(edits[k]), NameOf(edits[j]));
        if !Before(NameOf(edits[k]), NameOf(edits[j])) {
          forall l | 0 <= l < j && l != k && edits[l].path == edits[i].path
            ensures Before(NameOf(edits[j]), NameOf(edits[l]))
          {
            BeforeTransitive(NameOf(edits[j]), NameOf(edits[k]), NameOf(edits[l]));
          }
          k := j;
        }
      }
    }
  }

  lemma FirstRecords(p: Project, edits: seq<Edit>, i: nat)
    requires i < |edits| && First(edits, i)
    ensures Recorded(p, edits, i) == Lookup(p.files, edits[i].path)
  {
    OtherFilesStay(p, edits[..i], edits[i].path);
  }

  lemma FirstIsLeastRestores(p: Project, edits: seq<Edit>)
    requires FreshNames(p, edits) && FirstIsLeast(edits)
    ensures Undone(EditedAll(p, edits), |edits|, p)
  {
    UndoRestoresIff(p, edits);
    forall i | 0 <= i < |edits| && Least(edits, i) ensures Recorded(p, edits, i) == Lookup(p.files, edits[i].path) {
      var f := FirstExists(edits, i);
      if f != i {
        BeforeTotal(NameOf(edits[f]), NameOf(edits[i]));
      }
      FirstRecords(p, edits, f);
    }
  }

  lemma {:induction false} SameTextAfter(p: Project, edits: seq<Edit>, path: string, text: string)
    requires Edits(edits, path) && forall e | e in edits :: e.after == Some(text)
    ensures Lookup(EditedAll(p, edits).files, path) == Some(text)
  {
    var init, e := edits[..|edits| - 1], edits[|edits| - 1];
    assert e in edits;
    if e.path != path {
      var i :| 0 <= i < |edits| && edits[i].path == path;
      assert init[i].path == path;
      SameTextAfter(p, init, path, text);
    }
  }

  function Otherwise(content: Option<string>): string {
    if content == Some("") then "x" else ""
  }

  // A first edit whose name is not the least of its file: writing the same text everywhere,
  // other than what the file held, is not undone.
  lemma NotLeastFails(p: Project, edits: seq<Edit>, i: nat) returns (texts: seq<string>)
    requires FreshNames(p, edits) && i < |edits| && First(edits, i) && !Least(edits, i)
    ensures |texts| == |edits| && !Undone(EditedAll(p, Writing(edits, texts)), |edits|, p)
  {
    var text := Otherwise(Lookup(p.files, edits[i].path));
    texts := seq(|edits|, _ => text);
    WritingKeepsNames(p, edits, texts);
    var k := LeastExists(p, edits, i);
    LeastOfWriting(edits, texts, k);
    assert k > i;
    SameTextRecorded(p, edits, texts, text, i, k);
    UndoRestoresIff(p, Writing(edits, texts));
  }

  lemma LeastOfWriting(edits: seq<Edit>, texts: seq<string>, k: nat)
    requires |texts| == |edits| && k < |edits|
    ensures Least(Writing(edits, texts), k) == Least(edits, k)
  {
    var es := Writing(edits, texts);
    assert forall j | 0 <= j < |edits| :: NameOf(es[j]) == NameOf(edits[j]) && es[j].path == edits[j].path;
  }

  lemma SameTextRecorded(p: Project, edits: seq<Edit>, texts: seq<string>, text: string, i: nat, k: nat)
    requires |texts| == |edits| && i < k < |edits| && edits[i].path == edits[k].path
    requires forall t | t in texts :: t == text
    ensures Recorded(p, Writing(edits, texts), k) == Some(text)
  {
    var before := Writing(edits, texts)[..k];
    assert before[i].path == edits[k].path;
    forall e | e in before ensures e.after == Some(text) {
      var j :| 0 <= j < k && e == before[j];
      assert texts[j] in texts;
    }
    SameTextAfter(p, before, edits[k].path, text);
  }

  // Undo works whatever the edits write exactly when the first edit of each file has the
  // least name of that file.
  lemma UndoWorksIff(p: Project, edits: seq<Edit>)
    requires FreshNames(p, edits)
    ensures (forall texts: seq<string> | |texts| == |edits| :: Undone(EditedAll(p, Writing(edits, texts)), |edits|, p))
       <==> FirstIsLeast(edits)
  {
    if FirstIsLeast(edits) {
      forall texts: seq<string> | |texts| == |edits|
        ensures Undone(EditedAll(p, Writing(edits, texts)), |edits|, p)
      {
        WritingKeepsNames(p, edits, texts);
        FirstIsLeastRestores(p, Writing(edits, texts));
      }
    } else {
      var i :| 0 <= i < |edits| && First(edits, i) && !Least(edits, i);
      var texts := NotLeastFails(p, edits, i);
    }
  }

  // Two edits.

  lemma RecordedByPair(p: Project, a: Edit, b: Edit)
    ensures Recorded(p, [a, b], 0) == Lookup(p.files, a.path)
    ensures a.path == b.path ==> Recorded(p, [a, b], 1) == a.after
  {
    assert [a, b][..0] == [] && [a, b][..1] == [a] && [a][..0] == [];
    assert EditedAll(p, [a]) == Edited(p, a);
  }

  // Two undos restore the project exactly when the edits are of different files, or their
  // names are in order, or the first edit changed nothing.
  lemma TwoUndosRestoreIff(p: Project, a: Edit, b: Edit)
    requires FreshNames(p, [a, b])
    ensures Undone(EditedAll(p, [a, b]), 2, p)
       <==> a.path != b.path || Before(NameOf(a), NameOf(b)) || a.after == Lookup(p.files, a.path)
  {
    var edits := [a, b];
    UndoRestoresIff(p, edits);
    RecordedByPair(p, a, b);
    assert NameOf(edits[0]) != NameOf(edits[1]);
    BeforeTotal(NameOf(a), NameOf(b));
    if a.path != b.path {
      assert First(edits, 1);
      FirstRecords(p, edits, 1);
    } else {
      assert Least(edits, 0) <==> Before(NameOf(a), NameOf(b));
      assert Least(edits, 1) <==> Before(NameOf(b), NameOf(a));
    }
  }

  // Otherwise the file is left as the first edit made it.
  lemma WrongOrderLeavesFirstEdit(p: Project, a: Edit, b: Edit, q: Project)
    requires FreshNames(p, [a, b]) && a.path == b.path && Before(NameOf(b), NameOf(a))
    ensures Undone(EditedAll(p, [a, b]), 2, q) <==> q == Project(Put(p.files, a.path, a.after), p.checkpoints)
  {
    UndoLeaves(p, [a, b], q);
    PairLeaves(p, a, b, q);
  }

  lemma PairLeaves(p: Project, a: Edit, b: Edit, q: Project)
    requires a.path == b.path && Before(NameOf(b), NameOf(a))
    ensures Left(p, [a, b], q) <==> q == Project(Put(p.files, a.path, a.after), p.checkpoints)
  {
    var edits, files := [a, b], Put(p.files, a.path, a.after);
    RecordedByPair(p, a, b);
    BeforeTotal(NameOf(a), NameOf(b));
    assert edits[0] == a && edits[1] == b && !Least(edits, 0) && Least(edits, 1);
    forall path ensures Edits(edits, path) <==> path == a.path {
      if path == a.path { assert edits[0].path == path; }
    }
    if Left(p, edits, q) {
      forall path ensures Lookup(q.files, path) == Lookup(files, path) {
        if path == a.path { assert Lookup(q.files, edits[1].path) == Recorded(p, edits, 1); }
      }
      SameLookups(q.files, files);
    }
  }

  // The tenth and eleventh checkpoint of one clock tick, of one file that the first of them
  // changed: two undos do not restore the project.
  lemma TickOfTenFails(p: Project, a: Edit, b: Edit)
    requires FreshNames(p, [a, b]) && a.nanos == b.nanos && a.seqNo == 9 && b.seqNo == 10
    requires a.path == b.path && a.after != Lookup(p.files, a.path)
    ensures !Undone(EditedAll(p, [a, b]), 2, p)
  {
    TenSortsBeforeNine(a, b);
    BeforeTotal(NameOf(a), NameOf(b));
    TwoUndosRestoreIff(p, a, b);
  }
}
