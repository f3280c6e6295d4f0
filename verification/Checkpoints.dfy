// Checkpoints taken before file edits, and undo by restoring the latest one.
module Checkpoints {
  import opened Options
  import Text

  const SEQ_LIMIT: nat := 0x1_0000_0000_0000_0000

  // A checkpoint file. previous is the content the file had, if it existed.
  datatype Checkpoint = Checkpoint(id: string, toolName: string, path: string, existed: bool, previous: Option<string>)

  // The project: its files and the checkpoint directory, by file name.
  datatype Project = Project(files: map<string, string>, checkpoints: map<string, Checkpoint>)

  function CheckpointId(nanos: nat, seqNo: nat, tool: string): string {
    Text.Decimal(nanos) + ("-" + Text.Decimal(seqNo) + "-" + tool)
  }

  function FileName(id: string): string {
    id + ".json"
  }

  // How file names sort.
  predicate Before(a: string, b: string) {
    b != "" && (a == "" || a[0] < b[0] || (a[0] == b[0] && Before(a[1..], b[1..])))
  }

  lemma {:induction false} BeforeTotal(a: string, b: string)
    ensures a == b || Before(a, b) || Before(b, a)
    ensures !(Before(a, b) && Before(b, a)) && !Before(a, a)
  {
    if a != "" && b != "" {
      BeforeTotal(a[1..], b[1..]);
      assert a == [a[0]] + a[1..] && b == [b[0]] + b[1..];
    }
    if a != "" {
      BeforeTotal(a[1..], a[1..]);
    }
  }

  lemma {:induction false} BeforeTransitive(a: string, b: string, c: string)
    requires Before(a, b) && Before(b, c)
    ensures Before(a, c)
  {
    if a != "" && a[0] == b[0] && b[0] == c[0] {
      BeforeTransitive(a[1..], b[1..], c[1..]);
    }
  }

  predicate IsLatest(names: set<string>, name: string) {
    name in names && forall other | other in names :: other == name || Before(other, name)
  }

  predicate Checkpointed(tool: string) {
    tool == "file_write" || tool == "file_patch"
  }

  // An edit of a file by a tool: the file gets some new content, stays as it is when
  // the tool fails, or goes away.
  datatype Edit = Edit(tool: string, path: string, nanos: nat, seqNo: nat, after: Option<string>)

  function Lookup(files: map<string, string>, path: string): Option<string> {
    if path in files then Some(files[path]) else None
  }

  function Put(files: map<string, string>, path: string, content: Option<string>): map<string, string> {
    match content case Some(text) => files[path := text] case None => files - {path}
  }

  function NameOf(e: Edit): string {
    FileName(CheckpointId(e.nanos, e.seqNo, e.tool))
  }

  // Checkpoint, then edit.
  function Edited(p: Project, e: Edit): Project {
    var previous := Lookup(p.files, e.path);
    var checkpoint := Checkpoint(CheckpointId(e.nanos, e.seqNo, e.tool), e.tool, e.path, previous.Some?, previous);
    Project(Put(p.files, e.path, e.after), p.checkpoints[NameOf(e) := checkpoint])
  }

  // The content that restoring a checkpoint gives its file.
  function Saved(c: Checkpoint): Option<string> {
    if !c.existed then None else if c.previous.Some? then c.previous else Some("")
  }

  // What restoring the checkpoint called name does.
  function Restored(p: Project, name: string): Project
    requires name in p.checkpoints
  {
    var c := p.checkpoints[name];
    Project(Put(p.files, c.path, Saved(c)), p.checkpoints - {name})
  }

  lemma LatestOfMore(names: set<string>, latest: string, candidate: string)
    requires IsLatest(names, latest)
    ensures IsLatest(names + {candidate}, if Before(latest, candidate) then candidate else latest)
  {
    BeforeTotal(latest, candidate);
    if Before(latest, candidate) {
      forall other | other in names ensures other == candidate || Before(other, candidate) {
        if other != latest { BeforeTransitive(other, latest, candidate); }
      }
    }
  }

  class Workspace {
    var files: map<string, string>
    var checkpoints: map<string, Checkpoint>
    // The process-wide checkpoint counter.
    var nextSeq: nat

    function Contents(): Project
      reads this
    {
      Project(files, checkpoints)
    }

    // Records the content of the file that a write or patch is about to change.
    method WriteFileCheckpoint(tool: string, path: Option<string>, nanos: nat) returns (id: Option<string>)
      modifies this`checkpoints, this`nextSeq
      ensures id.Some? <==> (tool == "file_write" || tool == "file_patch") && path.Some?
      ensures id.None? ==> checkpoints == old(checkpoints) && nextSeq == old(nextSeq)
      ensures id.Some? ==>
        id.value == CheckpointId(nanos, old(nextSeq), tool) && nextSeq == (old(nextSeq) + 1) % SEQ_LIMIT
        && checkpoints == old(checkpoints)[FileName(id.value) :=
             Checkpoint(id.value, tool, path.value, path.value in files, Lookup(files, path.value))]
    {
      if !(tool == "file_write" || tool == "file_patch") || path.None? {
        return None;
      }
      var existed := path.value in files;
      var previous: Option<string> := None;
      if existed {
        previous := Some(files[path.value]);
      }
      var checkpointId := CheckpointId(nanos, nextSeq, tool);
      nextSeq := (nextSeq + 1) % SEQ_LIMIT;
      checkpoints := checkpoints[FileName(checkpointId) :=
        Checkpoint(checkpointId, tool, path.value, existed, previous)];
      id := Some(checkpointId);
    }

    // A write or patch: checkpoint first, then the tool's effect on the file.
    method RunFileTool(tool: string, path: string, nanos: nat, after: Option<string>)
      requires Checkpointed(tool)
      modifies this
      ensures Contents() == Edited(old(Contents()), Edit(tool, path, nanos, old(nextSeq), after))
      ensures files == match after case Some(text) => old(files)[path := text] case None => old(files) - {path}
    {
      var id := WriteFileCheckpoint(tool, Some(path), nanos);
      if after.Some? {
        files := files[path := after.value];
      } else {
        files := files - {path};
      }
    }

    // The greatest file name: the last one after sorting.
    method LatestCheckpoint() returns (name: Option<string>)
      ensures name.None? <==> checkpoints == map[]
      ensures name.Some? ==> IsLatest(checkpoints.Keys, name.value)
    {
      name := None;
      var rest := checkpoints.Keys;
      ghost var seen: set<string> := {};
      while rest != {}
        invariant seen + rest == checkpoints.Keys
        invariant name.None? ==> seen == {}
        invariant name.Some? ==> IsLatest(seen, name.value)
        decreases |rest|
      {
        var candidate :| candidate in rest;
        if name.Some? {
          LatestOfMore(seen, name.value, candidate);
        }
        if name.None? || Before(name.value, candidate) {
          name := Some(candidate);
        }
        seen, rest := seen + {candidate}, rest - {candidate};
      }
      assert name.Some? ==> name.value in checkpoints.Keys;
    }

    // /undo: restores the latest checkpoint and consumes it.
    method RestoreLatest() returns (restored: Option<string>)
      modifies this`files, this`checkpoints
      ensures restored.None? <==> old(checkpoints) == map[]
      ensures restored.None? ==> Contents() == old(Contents())
      ensures restored.Some? ==>
        IsLatest(old(checkpoints).Keys, restored.value) && Contents() == Restored(old(Contents()), restored.value)
      ensures restored.Some? ==>
        var c := old(checkpoints)[restored.value];
        && checkpoints == old(checkpoints) - {restored.value}
        && (!c.existed ==> files == old(files) - {c.path})
        && (c.existed ==> files == old(files)[c.path := match c.previous case Some(text) => text case None => ""])
    {
      restored := LatestCheckpoint();
      if restored.None? {
        return;
      }
      var c := checkpoints[restored.value];
      if c.existed {
        files := files[c.path := if c.previous.Some? then c.previous.value else ""];
      } else if c.path in files {
        files := files - {c.path};
      } else {
        assert files - {c.path} == files;
      }
      checkpoints := checkpoints - {restored.value};
    }
  }

  // Undo as an inverse.

  // p after undoing n times, as a relation: each step restores the latest checkpoint.
  ghost predicate Undone(p: Project, n: nat, q: Project)
    decreases n
  {
    if n == 0 then p == q
    else exists name :: IsLatest(p.checkpoints.Keys, name) && Undone(Restored(p, name), n - 1, q)
  }

  function EditedAll(p: Project, edits: seq<Edit>): Project {
    if edits == [] then p else Edited(EditedAll(p, edits[..|edits| - 1]), edits[|edits| - 1])
  }

  predicate NewerThanAll(p: Project, name: string) {
    forall other | other in p.checkpoints :: Before(other, name)
  }

  // The names of the checkpoints sort in the order in which they were taken.
  predicate InOrder(p: Project, edits: seq<Edit>) {
    && (forall i | 0 <= i < |edits| :: NewerThanAll(p, NameOf(edits[i])))
    && (forall i, j | 0 <= i < j < |edits| :: Before(NameOf(edits[i]), NameOf(edits[j])))
  }

  lemma LatestIsUnique(names: set<string>, a: string, b: string)
    requires IsLatest(names, a) && IsLatest(names, b)
    ensures a == b
  {
    BeforeTotal(a, b);
  }

  // Restoring the checkpoint of an edit gives back the project before the edit.
  lemma RestoreUndoesEdit(p: Project, e: Edit)
    requires NewerThanAll(p, NameOf(e))
    ensures IsLatest(Edited(p, e).checkpoints.Keys, NameOf(e))
    ensures Restored(Edited(p, e), NameOf(e)) == p
  {
    BeforeTotal(NameOf(e), NameOf(e));
    assert NameOf(e) !in p.checkpoints;
    var after := Edited(p, e);
    assert after.checkpoints - {NameOf(e)} == p.checkpoints;
    assert Put(after.files, e.path, Lookup(p.files, e.path)) == p.files;
  }

  lemma {:induction false} EditedNames(p: Project, edits: seq<Edit>, name: string)
    ensures name in EditedAll(p, edits).checkpoints
       <==> name in p.checkpoints || exists i :: 0 <= i < |edits| && NameOf(edits[i]) == name
  {
    if edits != [] {
      EditedNames(p, edits[..|edits| - 1], name);
    }
  }

  // A whole history of edits is undone by as many undos, file by file, including files
  // that did not exist before; the checkpoints from before it are untouched.
  lemma {:induction false} UndoInvertsHistory(p: Project, edits: seq<Edit>, q: Project)
    requires InOrder(p, edits)
    ensures Undone(EditedAll(p, edits), |edits|, q) <==> q == p
  {
    if edits != [] {
      var init, e := edits[..|edits| - 1], edits[|edits| - 1];
      var before := EditedAll(p, init);
      forall other | other in before.checkpoints ensures Before(other, NameOf(e)) {
        EditedNames(p, init, other);
      }
      RestoreUndoesEdit(before, e);
      UndoInvertsHistory(p, init, q);
      var after := EditedAll(p, edits);
      forall name | IsLatest(after.checkpoints.Keys, name) ensures name == NameOf(e) {
        LatestIsUnique(after.checkpoints.Keys, name, NameOf(e));
      }
    }
  }

  // When the names sort in creation order.

  lemma {:induction false} BeforePrefix(p: string, x: string, y: string)
    ensures Before(p + x, p + y) <==> Before(x, y)
  {
    if p == "" {
      assert p + x == x && p + y == y;
    } else {
      assert (p + x)[1..] == p[1..] + x && (p + y)[1..] == p[1..] + y;
      BeforePrefix(p[1..], x, y);
    }
  }

  // Numbers of equally many digits sort by value, whatever follows them.
  lemma {:induction false} DecimalOrder(a: nat, b: nat, x: string, y: string)
    requires a < b && |Text.Decimal(a)| == |Text.Decimal(b)|
    ensures Before(Text.Decimal(a) + x, Text.Decimal(b) + y)
  {
    if a >= 10 {
      var da, db := [Text.Digit(a % 10)] + x, [Text.Digit(b % 10)] + y;
      assert b >= 10;
      assert Text.Decimal(a) + x == Text.Decimal(a / 10) + da;
      assert Text.Decimal(b) + y == Text.Decimal(b / 10) + db;
      if a / 10 < b / 10 {
        DecimalOrder(a / 10, b / 10, da, db);
      } else {
        assert a % 10 < b % 10;
        BeforePrefix(Text.Decimal(a / 10), da, db);
      }
    }
  }

  function NameRest(e: Edit): string {
    "-" + Text.Decimal(e.seqNo) + "-" + e.tool + ".json"
  }

  lemma NameParts(e: Edit)
    ensures NameOf(e) == Text.Decimal(e.nanos) + NameRest(e)
  {
    var rest := "-" + Text.Decimal(e.seqNo) + "-" + e.tool;
    assert (Text.Decimal(e.nanos) + rest) + ".json" == Text.Decimal(e.nanos) + (rest + ".json");
  }

  // Names sort by clock reading first, and within one reading by the digits of the counter.
  lemma NameOrder(a: Edit, b: Edit)
    requires |Text.Decimal(a.nanos)| == |Text.Decimal(b.nanos)|
    ensures Before(NameOf(a), NameOf(b))
       <==> a.nanos < b.nanos || (a.nanos == b.nanos && Before(NameRest(a), NameRest(b)))
  {
    NameParts(a);
    NameParts(b);
    if a.nanos < b.nanos {
      DecimalOrder(a.nanos, b.nanos, NameRest(a), NameRest(b));
    } else if b.nanos < a.nanos {
      DecimalOrder(b.nanos, a.nanos, NameRest(b), NameRest(a));
      BeforeTotal(NameOf(a), NameOf(b));
    } else {
      BeforePrefix(Text.Decimal(a.nanos), NameRest(a), NameRest(b));
    }
  }

  // An advancing clock of fixed width is enough for undo to work.
  lemma AdvancingClockUndoes(p: Project, edits: seq<Edit>, q: Project)
    requires edits != [] ==> NewerThanAll(p, NameOf(edits[0]))
    requires forall i, j | 0 <= i < j < |edits| ::
      edits[i].nanos < edits[j].nanos && |Text.Decimal(edits[i].nanos)| == |Text.Decimal(edits[j].nanos)|
    ensures Undone(EditedAll(p, edits), |edits|, q) <==> q == p
  {
    forall i, j | 0 <= i < j < |edits| ensures Before(NameOf(edits[i]), NameOf(edits[j])) {
      NameOrder(edits[i], edits[j]);
    }
    forall i | 0 < i < |edits| ensures NewerThanAll(p, NameOf(edits[i])) {
      forall other | other in p.checkpoints ensures Before(other, NameOf(edits[i])) {
        BeforeTransitive(other, NameOf(edits[0]), NameOf(edits[i]));
      }
    }
    UndoInvertsHistory(p, edits, q);
  }

  // Within one clock reading the counter sorts by its digits: the tenth checkpoint of the
  // process sorts before the ninth.
  lemma TenSortsBeforeNine(a: Edit, b: Edit)
    requires a.nanos == b.nanos && a.seqNo == 9 && b.seqNo == 10
    ensures Before(NameOf(b), NameOf(a))
  {
    NameOrder(b, a);
    assert Text.Decimal(10) == [Text.Digit(1)] + [Text.Digit(0)];
    assert Text.Decimal(9) == [Text.Digit(9)];
    var x, y := NameRest(b), NameRest(a);
    assert x[0] == '-' && y[0] == '-' && x[1] == '1' && y[1] == '9';
    assert x[1..] != "" && y[1..] != "" && x[1..][0] == '1' && y[1..][0] == '9';
  }
}
