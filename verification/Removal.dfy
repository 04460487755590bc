/**
 * What a remove call does to the objects of its image, told by the store and not by the call: a row goes only
 * after an await each was spent on the original and the display object it was found with, and a display copy
 * once stored goes only that way.
 */
module Removal {
  import opened Wrappers
  import opened Keys
  import opened Tables
  import opened Machine
  import opened JobInvariant
  import opened PipelineInvariant
  import opened Guarantees
  import opened Originals
  import opened Attempts
  import opened Columns
  import opened Buckets

  // ---- The awaits of one remove call -----------------------------------------------------------------------

  /** Step n is an await of process `pid`. */
  predicate TakenAt(c: Codec, acts: seq<Action>, n: nat, pid: nat) {
    n < |acts| && ResumesAt(Reached(c, acts[..n]), acts[n], pid)
  }

  /** Step f is the first await of the remove call `pid`, and finds the row of image i. */
  ghost predicate FindsAt(c: Codec, acts: seq<Action>, f: nat, pid: nat, i: ImageId) {
    && TakenAt(c, acts, f, pid) && (forall g :: 0 <= g < f ==> !TakenAt(c, acts, g, pid))
    && var s := Reached(c, acts[..f]);
       s.procs[pid].Removing? && s.procs[pid].imageId == i && i in s.w.images && acts[f].choice.outcome.Ok?
  }

  /** The row a remove call has found at step f. */
  function FoundRow(c: Codec, acts: seq<Action>, f: nat, i: ImageId): Option<Row> {
    if f < |acts| && i in Reached(c, acts[..f]).w.images then Some(Reached(c, acts[..f]).w.images[i]) else None
  }

  /** Step n is an await of `pid` that rejects or leaves no object under the key. */
  predicate ClearsAt(c: Codec, acts: seq<Action>, n: nat, pid: nat, key: Key) {
    TakenAt(c, acts, n, pid)
    && (acts[n].choice.outcome.Rejected? || key !in Reached(c, acts[..n + 1]).w.objects)
  }

  /** After it found its row at f, the call spent await n on the key. */
  predicate SpentOn(c: Codec, acts: seq<Action>, f: nat, n: nat, pid: nat, key: Key) {
    f < n && ClearsAt(c, acts, n, pid, key)
  }

  lemma {:induction false} TakenBefore(c: Codec, acts: seq<Action>, n: nat, m: nat, pid: nat)
    requires n < m <= |acts|
    ensures TakenAt(c, acts, n, pid) <==> TakenAt(c, acts[..m], n, pid)
  {
    assert acts[..m][..n] == acts[..n];
  }

  lemma {:induction false} SpentBefore(c: Codec, acts: seq<Action>, f: nat, n: nat, pid: nat, key: Key)
    requires acts != [] && SpentOn(c, acts[..|acts| - 1], f, n, pid, key)
    ensures SpentOn(c, acts, f, n, pid, key)
  {
    var m := |acts| - 1;
    TakenBefore(c, acts, n, m, pid);
    assert acts[..m][..n + 1] == acts[..n + 1];
  }

  lemma {:induction false} FindsBefore(c: Codec, acts: seq<Action>, f: nat, pid: nat, i: ImageId)
    requires acts != [] && FindsAt(c, acts[..|acts| - 1], f, pid, i)
    ensures FindsAt(c, acts, f, pid, i) && FoundRow(c, acts, f, i) == FoundRow(c, acts[..|acts| - 1], f, i)
  {
    var m := |acts| - 1;
    TakenBefore(c, acts, f, m, pid);
    assert acts[..m][..f] == acts[..f];
    forall g | 0 <= g < f ensures !TakenAt(c, acts, g, pid) { TakenBefore(c, acts, g, m, pid); }
  }

  /** A process not yet begun has taken no await. */
  lemma {:induction false} NotYetTaken(c: Codec, acts: seq<Action>, n: nat, pid: nat)
    requires pid >= Reached(c, acts).next
    ensures !TakenAt(c, acts, n, pid)
  {
    if n < |acts| {
      var m := |acts| - 1;
      NextGrows(c, Reached(c, acts[..m]), acts[m]);
      RunKeepsInv(c, acts[..m]);
      if n < m {
        NotYetTaken(c, acts[..m], n, pid);
        TakenBefore(c, acts, n, m, pid);
      }
    }
  }

  // ---- From call to call -----------------------------------------------------------------------------------

  /** A remove call in progress was one a step before, or has just begun. */
  lemma {:induction false} RemoverBefore(c: Codec, s: State, a: Action, pid: nat)
    requires Inv(c, s) && pid in Step(c, s, a).procs && Step(c, s, a).procs[pid].Removing?
    ensures var p' := Step(c, s, a).procs[pid];
            if pid !in s.procs then p'.remove.FindVictim? && pid >= s.next
            else s.procs[pid].Removing? && s.procs[pid].imageId == p'.imageId
                 && (if ResumesAt(s, a, pid) then RemoveTurn(s, s.procs[pid], a.choice).self == Some(p')
                     else p' == s.procs[pid])
  {
    if a.Resume? && Enabled(s, a) {
      assert ProcOk(c, s.srcs, s.born, s.w, s.procs[a.pid]);
      var t := ProcTurn(c, s, s.procs[a.pid], a.choice);
      ApplyMembers(s, a.pid, t);
      RemoverOrigin(c, s, s.procs[a.pid], a.choice);
      SpawnedKinds(c, s, s.procs[a.pid], a.choice);
      if pid !in s.procs { SpawnedAt(c, s, a, pid); }
    }
  }

  predicate NotYetLooked(p: Proc) {
    p.Removing? && p.remove.FindVictim?
  }

  lemma {:induction false} FreshBefore(c: Codec, s: State, a: Action, pid: nat)
    requires Inv(c, s) && pid in Step(c, s, a).procs && NotYetLooked(Step(c, s, a).procs[pid])
    ensures !ResumesAt(s, a, pid) && if pid in s.procs then NotYetLooked(s.procs[pid]) else pid >= s.next
  {
    RemoverBefore(c, s, a, pid);
  }

  /** A remove call that has not yet looked for its row has taken no await. */
  lemma {:induction false} FreshRemover(c: Codec, acts: seq<Action>, n: nat, pid: nat)
    requires pid in Reached(c, acts).procs && NotYetLooked(Reached(c, acts).procs[pid])
    ensures !TakenAt(c, acts, n, pid)
  {
    if n < |acts| {
      var m := |acts| - 1;
      var s := Reached(c, acts[..m]);
      RunKeepsInv(c, acts[..m]);
      FreshBefore(c, s, acts[m], pid);
      if n < m {
        if pid in s.procs { FreshRemover(c, acts[..m], n, pid); } else { NotYetTaken(c, acts[..m], n, pid); }
        TakenBefore(c, acts, n, m, pid);
      }
    }
  }

  // ---- What a remove call has done so far ------------------------------------------------------------------

  /** Whether the call still has to delete the original, or the display object. */
  predicate OwesOriginal(remove: RemoveStep) {
    remove.DeleteObjects? && remove.original.Some?
  }

  predicate OwesDisplay(remove: RemoveStep) {
    remove.DeleteObjects? && remove.display.Some?
  }

  /** What the steps f, m and n say of a call past its first await. */
  ghost predicate SweepsSoFar(c: Codec, acts: seq<Action>, pid: nat, p: Proc, f: nat, m: nat, n: nat)
    requires p.Removing?
  {
    && FindsAt(c, acts, f, pid, p.imageId)
    && var row := Reached(c, acts[..f]).w.images[p.imageId];
       && (if OwesOriginal(p.remove) then p.remove.original.value == row.original
           else SpentOn(c, acts, f, m, pid, row.original))
       && (if OwesDisplay(p.remove) then row.display == p.remove.display
           else row.display.Some? ==> SpentOn(c, acts, f, n, pid, row.display.value))
       && (!OwesOriginal(p.remove) && !OwesDisplay(p.remove) && row.display.Some? ==> m != n)
  }

  lemma {:induction false} SweepsOn(c: Codec, acts: seq<Action>, pid: nat, p: Proc, f: nat, m: nat, n: nat)
    requires acts != [] && p.Removing? && SweepsSoFar(c, acts[..|acts| - 1], pid, p, f, m, n)
    ensures SweepsSoFar(c, acts, pid, p, f, m, n)
  {
    var before := acts[..|acts| - 1];
    FindsBefore(c, acts, f, pid, p.imageId);
    assert before[..f] == acts[..f];
    var row := Reached(c, acts[..f]).w.images[p.imageId];
    if !OwesOriginal(p.remove) { SpentBefore(c, acts, f, m, pid, row.original); }
    if !OwesDisplay(p.remove) && row.display.Some? { SpentBefore(c, acts, f, n, pid, row.display.value); }
  }

  /** One object delete. */
  lemma {:induction false} DeletesOne(s: State, p: Proc, ch: Choice)
    requires p.Removing? && p.remove.DeleteObjects? && Resumes(p, ch)
    ensures var t := RemoveTurn(s, p, ch);
            var key := if ch.first then p.remove.original else p.remove.display;
            && key.Some? && (ch.outcome.Rejected? || key.value !in t.world.objects)
            && t.self.Some? && t.self.value.Removing? && t.self.value.imageId == p.imageId
            && !t.self.value.remove.FindVictim?
            && (OwesOriginal(t.self.value.remove) <==> OwesOriginal(p.remove) && !ch.first)
            && (OwesDisplay(t.self.value.remove) <==> OwesDisplay(p.remove) && ch.first)
            && (OwesOriginal(t.self.value.remove) ==> t.self.value.remove.original == p.remove.original)
            && (OwesDisplay(t.self.value.remove) ==> t.self.value.remove.display == p.remove.display)
  {
  }

  /** The delete just made, in the books of the call. */
  lemma {:induction false} SweepsOneMore(c: Codec, acts: seq<Action>, pid: nat, p: Proc, f: nat, m: nat, n: nat)
    returns (m': nat, n': nat)
    requires acts != [] && TakenAt(c, acts, |acts| - 1, pid)
    requires var s := Reached(c, acts[..|acts| - 1]);
             && s.procs[pid] == p && p.Removing? && p.remove.DeleteObjects?
             && SweepsSoFar(c, acts[..|acts| - 1], pid, p, f, m, n)
    ensures var self := RemoveTurn(Reached(c, acts[..|acts| - 1]), p, acts[|acts| - 1].choice).self;
            self.Some? && self.value.Removing? && SweepsSoFar(c, acts, pid, self.value, f, m', n')
  {
    var k, ch := |acts| - 1, acts[|acts| - 1].choice;
    var s := Reached(c, acts[..k]);
    assert acts[..k + 1] == acts && acts[..k][..f] == acts[..f];
    DeletesOne(s, p, ch);
    FindsBefore(c, acts, f, pid, p.imageId);
    var row := Reached(c, acts[..f]).w.images[p.imageId];
    assert Reached(c, acts).w == RemoveTurn(s, p, ch).world;
    m', n' := if ch.first then k else m, if ch.first then n else k;
    if !OwesOriginal(p.remove) { SpentBefore(c, acts, f, m, pid, row.original); }
    if !OwesDisplay(p.remove) && row.display.Some? { SpentBefore(c, acts, f, n, pid, row.display.value); }
  }

  lemma {:induction false} JustFound(c: Codec, acts: seq<Action>, pid: nat, p: Proc)
    requires acts != [] && TakenAt(c, acts, |acts| - 1, pid)
    requires var s := Reached(c, acts[..|acts| - 1]); s.procs[pid] == p && p.Removing? && p.remove.FindVictim?
    requires RemoveTurn(Reached(c, acts[..|acts| - 1]), p, acts[|acts| - 1].choice).self.Some?
    ensures var self := RemoveTurn(Reached(c, acts[..|acts| - 1]), p, acts[|acts| - 1].choice).self.value;
            self.Removing? && SweepsSoFar(c, acts, pid, self, |acts| - 1, 0, 0)
  {
    var k := |acts| - 1;
    forall g | 0 <= g < k ensures !TakenAt(c, acts, g, pid) {
      FreshRemover(c, acts[..k], g, pid);
      TakenBefore(c, acts, g, k, pid);
    }
  }

  /** The past of a remove call: the step that found its row, and the awaits it has spent since. */
  lemma {:induction false} SweepHistory(c: Codec, acts: seq<Action>, pid: nat) returns (f: nat, m: nat, n: nat)
    requires pid in Reached(c, acts).procs
    requires Reached(c, acts).procs[pid].Removing? && !Reached(c, acts).procs[pid].remove.FindVictim?
    ensures SweepsSoFar(c, acts, pid, Reached(c, acts).procs[pid], f, m, n)
  {
    var k := |acts| - 1;
    var before, a := acts[..k], acts[k];
    var s, p' := Reached(c, before), Reached(c, acts).procs[pid];
    RunKeepsInv(c, before);
    RemoverBefore(c, s, a, pid);
    var p := s.procs[pid];
    if !ResumesAt(s, a, pid) {
      f, m, n := SweepHistory(c, before, pid);
      SweepsOn(c, acts, pid, p, f, m, n);
    } else if p.remove.FindVictim? {
      JustFound(c, acts, pid, p);
      f, m, n := k, 0, 0;
    } else {
      f, m, n := SweepHistory(c, before, pid);
      m, n := SweepsOneMore(c, acts, pid, p, f, m, n);
    }
  }

  /** A remove call about to delete its row has found it at some step f -- its first -- and has since spent an
      await on the original of that row and, if it had a display object, another one on that: each of the two
      awaits left no object under the key, or rejected. */
  lemma {:induction false} SweepsBeforeDeleting(c: Codec, acts: seq<Action>, pid: nat, i: ImageId)
    returns (f: nat, m: nat, n: nat)
    requires pid in Reached(c, acts).procs && Reached(c, acts).procs[pid] == Removing(i, DeleteRow)
    ensures FindsAt(c, acts, f, pid, i)
    ensures var row := Reached(c, acts[..f]).w.images[i];
            && f < m && ClearsAt(c, acts, m, pid, row.original)
            && (row.display.Some? ==> f < n && ClearsAt(c, acts, n, pid, row.display.value) && m != n)
  {
    f, m, n := SweepHistory(c, acts, pid);
  }

  /** And rows go no other way: where a live row is gone after a step, the step was an await of such a call. */
  lemma {:induction false} RowsGoAfterTheirObjects(c: Codec, acts: seq<Action>, a: Action, i: ImageId)
    returns (f: nat, m: nat, n: nat)
    requires i in Reached(c, acts).w.images && i !in Step(c, Reached(c, acts), a).w.images
    ensures a.Resume? && FindsAt(c, acts, f, a.pid, i)
    ensures var row := Reached(c, acts[..f]).w.images[i];
            && f < m && ClearsAt(c, acts, m, a.pid, row.original)
            && (row.display.Some? ==> f < n && ClearsAt(c, acts, n, a.pid, row.display.value) && m != n)
  {
    RunKeepsInv(c, acts);
    RowAfterStep(c, Reached(c, acts), a, i);
    f, m, n := SweepsBeforeDeleting(c, acts, a.pid, i);
  }

  // ---- The display object ----------------------------------------------------------------------------------

  function DisplayObject(src: Source, i: ImageId): Key {
    Key(src.userId, i, Display(src.ext))
  }

  /** The step puts the display copy of image i into the store. */
  predicate StoresCopy(s: State, a: Action, i: ImageId) {
    && a.Resume? && Enabled(s, a) && !a.choice.outcome.Rejected?
    && var p := s.procs[a.pid];
       p.Worker? && p.job.imageId == i && p.job.phase.Validating? && p.job.phase.v.VDisplay?
  }

  /** The step is an await of a remove call of image i, and takes the object under the key out of the store. */
  predicate SweepsKey(c: Codec, s: State, a: Action, i: ImageId, key: Key) {
    && a.Resume? && Enabled(s, a) && s.procs[a.pid].Removing? && s.procs[a.pid].imageId == i
    && key in s.w.objects && key !in Step(c, s, a).w.objects
  }

  /** Some validation of image i has stored its display copy. */
  predicate CopyStored(c: Codec, acts: seq<Action>, i: ImageId) {
    acts != [] &&
      (CopyStored(c, acts[..|acts| - 1], i) || StoresCopy(Reached(c, acts[..|acts| - 1]), acts[|acts| - 1], i))
  }

  /** Some remove call has taken it away, and none has been stored since. */
  predicate CopySwept(c: Codec, acts: seq<Action>, i: ImageId, key: Key) {
    acts != [] &&
      var s, a := Reached(c, acts[..|acts| - 1]), acts[|acts| - 1];
      !StoresCopy(s, a, i) && (CopySwept(c, acts[..|acts| - 1], i, key) || SweepsKey(c, s, a, i, key))
  }

  /** Only a validation of the image puts its display object, and only a remove call of it takes it away. */
  lemma {:induction false} DisplayObjectStep(c: Codec, s: State, a: Action, i: ImageId)
    requires Inv(c, s) && i in s.srcs
    ensures var key, objects' := DisplayObject(s.srcs[i], i), Step(c, s, a).w.objects;
            key in objects' <==> StoresCopy(s, a, i) || (key in s.w.objects && !SweepsKey(c, s, a, i, key))
  {
    StepActs(c, s, a);
    if a.Resume? && Enabled(s, a) {
      assert ProcOk(c, s.srcs, s.born, s.w, s.procs[a.pid]);
      DisplayOp(c, s, a, i);
    }
  }

  lemma {:induction false} DisplayOp(c: Codec, s: State, a: Action, i: ImageId)
    requires a.Resume? && Enabled(s, a) && ProcOk(c, s.srcs, s.born, s.w, s.procs[a.pid]) && i in s.srcs
    ensures var key, op := DisplayObject(s.srcs[i], i), StepOp(s, a);
            && (op.Puts? && op.key == key <==> StoresCopy(s, a, i))
            && (op.Deletes? && op.key == key ==> s.procs[a.pid].Removing? && s.procs[a.pid].imageId == i)
  {
    var p := s.procs[a.pid];
    if p.Worker? { DisplayOpOfJob(c, s, p.job, a.choice.vtype, i); }
  }

  lemma {:induction false} DisplayOpOfJob(c: Codec, s: State, job: Job, t: VariantType, i: ImageId)
    requires JobOk(c, s.srcs, s.born, s.w, job) && i in s.srcs
    ensures var op := JobOp(job.imageId, job.phase, t);
            && !op.Deletes?
            && (op.Puts? && op.key == DisplayObject(s.srcs[i], i) <==>
                  job.imageId == i && job.phase.Validating? && job.phase.v.VDisplay?)
  {
  }

  lemma {:induction false} NothingBeforeUpload(c: Codec, s: State, a: Action, key: Key)
    requires Inv(c, s) && key.imageId !in s.srcs
    ensures key !in s.w.objects && !StoresCopy(s, a, key.imageId)
  {
    if a.Resume? && Enabled(s, a) { assert ProcOk(c, s.srcs, s.born, s.w, s.procs[a.pid]); }
  }

  lemma {:induction false} SourcesStay(c: Codec, s: State, a: Action, i: ImageId)
    requires i !in Step(c, s, a).srcs
    ensures i !in s.srcs
  {
  }

  lemma {:induction false} NoCopyBeforeUpload(c: Codec, acts: seq<Action>, key: Key)
    requires key.imageId !in Reached(c, acts).srcs
    ensures !CopyStored(c, acts, key.imageId) && !CopySwept(c, acts, key.imageId, key)
  {
    if acts != [] {
      var before, a := acts[..|acts| - 1], acts[|acts| - 1];
      RunKeepsInv(c, before);
      SourcesStay(c, Reached(c, before), a, key.imageId);
      NoCopyBeforeUpload(c, before, key);
      NothingBeforeUpload(c, Reached(c, before), a, key);
    }
  }

  lemma {:induction false} DisplayObjectAlongRun(c: Codec, acts: seq<Action>, i: ImageId)
    ensures var s := Reached(c, acts);
            i in s.srcs ==>
              var key := DisplayObject(s.srcs[i], i);
              key in s.w.objects <==> CopyStored(c, acts, i) && !CopySwept(c, acts, i, key)
  {
    var s' := Reached(c, acts);
    if acts != [] && i in s'.srcs {
      var before := acts[..|acts| - 1];
      var s, a := Reached(c, before), acts[|acts| - 1];
      RunKeepsInv(c, before);
      if i in s.srcs {
        DisplayObjectAlongRun(c, before, i);
        DisplayObjectStep(c, s, a, i);
      } else {
        NoCopyBeforeUpload(c, before, DisplayObject(s'.srcs[i], i));
        NothingBeforeUpload(c, s, a, DisplayObject(s'.srcs[i], i));
      }
    }
  }

  lemma {:induction false} StoredByStep(c: Codec, acts: seq<Action>, k: nat, n: nat, i: ImageId)
    requires k < n <= |acts| && StoresCopyAt(c, acts, k, i)
    ensures CopyStored(c, acts[..n], i)
  {
    var before := acts[..n][..n - 1];
    assert before == acts[..n - 1];
    if k < n - 1 {
      StoredByStep(c, acts, k, n - 1, i);
    } else {
      assert StoresCopy(Reached(c, acts[..k]), acts[k], i);
    }
  }

  /** The display object of a live row is there if and only if no remove call has taken it away since it was
      last stored. */
  lemma {:induction false} DisplayPresentUnlessRemoved(c: Codec, acts: seq<Action>, i: ImageId)
    ensures var s := Reached(c, acts);
            i in s.w.images && s.w.images[i].display.Some? ==>
              var key := s.w.images[i].display.value;
              key in s.w.objects <==> !CopySwept(c, acts, i, key)
  {
    var s := Reached(c, acts);
    if i in s.w.images && s.w.images[i].display.Some? {
      DisplayIsAcceptedCopy(c, acts, i);
      DisplayObjectAlongRun(c, acts, i);
      var k, m :| AcceptsCopy(c, acts, k, m, i);
      StoredByStep(c, acts, k, |acts|, i);
      assert acts[..|acts|] == acts;
    }
  }
}
