/**
  The upload, discard and reap methods as code: each statement on a shared
  table or on the staging area is one step of the upload protocol, and between
  any two of them the rest of the node takes any steps it can.
 */
module UploadService {
  import opened Uploads

  /** What one PUT meets: the data it receives, where it stops, and what happens around it. */
  datatype Weather = Weather(
    digest: Digest,
    written: bool,  // Stage returns without an error
    dropped: bool,  // the clean-up after a failed Stage succeeds
    held: bool,     // Has reports the content as held
    stopsAt: nat,   // the statement that fails, if it is reached
    others: nat -> seq<Step>)

  /** What one turn of a reap meets. */
  datatype Reap = Reap(before: seq<Step>, between: seq<Step>, dropFails: bool, deleteFails: bool)

  /** Nothing else happens while the PUT runs. */
  ghost predicate Alone(w: Weather) {
    forall k :: w.others(k) == []
  }

  datatype PutResult = NotFound | Failed | Stored(duplicate: bool) | Released

  /** No step of the PUT of `id`: the upload lock admits one at a time. */
  ghost predicate OfOthers(id: Id, steps: seq<Step>) {
    forall i :: 0 <= i < |steps| ==> !(steps[i].Put? && steps[i].id == id)
  }

  /** No PUT of `id` is running, and none can begin again. */
  predicate Over(s: State, id: Id) {
    id in s.rows.issued && id !in s.rows.puts && !Unmarked(s.rows, id)
  }

  /** What no step undoes for an allocated upload. */
  predicate Kept(s: State, t: State, id: Id) {
    && id in t.rows.issued
    && (Over(s, id) ==> Over(t, id) && (id in t.store.staged ==> id in s.store.staged))
    && (id in t.rows.marked ==> id in s.rows.marked && (s.rows.marked[id] ==> t.rows.marked[id]))
    && (id in s.rows.dropping ==> id in t.rows.dropping)
    && (id in s.rows.listed ==> id in t.rows.listed)
    && (id in s.rows.cleared ==> id in t.rows.cleared)
  }

  /** What the rest of the node cannot do to an upload whose PUT is running. */
  predicate Undisturbed(s: State, t: State, id: Id) {
    && Kept(s, t, id)
    && (id in t.rows.puts <==> id in s.rows.puts)
    && (id in s.rows.puts ==> t.rows.puts[id] == s.rows.puts[id])
    && (id in t.store.staged ==> id in s.store.staged)
  }

  lemma {:induction false} StepKeeps(s: State, step: Step, id: Id)
    requires Enabled(s, step) && id in s.rows.issued
    ensures Kept(s, Apply(s, step), id)
    ensures !(step.Put? && step.id == id) ==> Undisturbed(s, Apply(s, step), id)
  {
  }

  ghost predicate AllKept(s: State, t: State) {
    forall id :: id in s.rows.issued ==> Kept(s, t, id)
  }

  lemma {:induction false} StepKeepsAll(s: State, step: Step)
    requires Enabled(s, step)
    ensures AllKept(s, Apply(s, step))
  {
  }

  class Node {
    ghost const start: State
    ghost var past: seq<Step>
    var s: State

    /** Everything that happened was a run of the protocol. */
    ghost predicate Valid()
      reads this
    {
      IsRun(start, past) && After(start, past) == s
    }

    constructor (initial: State)
      ensures Valid() && s == initial == start && past == []
    {
      s, start, past := initial, initial, [];
    }

    method Take(step: Step)
      requires Valid() && Enabled(s, step)
      modifies this
      ensures Valid() && s == Apply(old(s), step) && past == old(past) + [step]
      ensures AllKept(old(s), s)
    {
      StepKeepsAll(s, step);
      Append(start, past, step);
      past := past + [step];
      s := Apply(s, step);
    }

    /** The rest of the node takes whichever of these steps it can. */
    method Others(id: Id, steps: seq<Step>)
      requires Valid() && id in s.rows.issued
      modifies this
      ensures Valid() && old(past) <= past && AllKept(old(s), s)
      ensures OfOthers(id, steps) ==> Undisturbed(old(s), s, id)
      ensures steps == [] ==> s == old(s) && past == old(past)
    {
      for i := 0 to |steps|
        invariant i == 0 ==> s == old(s) && past == old(past)
        invariant Valid() && old(past) <= past && AllKept(old(s), s)
        invariant OfOthers(id, steps) ==> Undisturbed(old(s), s, id)
      {
        if Enabled(s, steps[i]) {
          StepKeeps(s, steps[i], id);
          Take(steps[i]);
        }
      }
    }

    /** One statement of the PUT of `id`, after whatever the rest of the node did before it. */
    method Statement(id: Id, before: seq<Step>, step: PutStep)
      requires Valid() && OfOthers(id, before) && id in s.rows.issued
      requires id in s.rows.puts && PutEnabled(s, id, step)
      modifies this
      ensures Valid() && old(past) <= past
      ensures exists t :: Undisturbed(old(s), t, id) && PutEnabled(t, id, step) && s == PutApply(t, id, step)
      ensures before == [] ==> s == PutApply(old(s), id, step)
    {
      Others(id, before);
      ghost var t := s;
      Take(Put(id, step));
      assert s == PutApply(t, id, step);
    }

    /**
      uploadUnhashedPiece. A completed upload is recorded under its digest and
      has no row; a duplicate or released one has neither row nor data left.
     */
    method UploadUnhashed(id: Id, w: Weather) returns (r: PutResult)
      requires Valid() && id !in s.rows.puts && (id in s.rows.marked ==> id in s.rows.issued)
      requires forall k :: OfOthers(id, w.others(k))
      modifies this
      ensures Valid() && old(past) <= past && id !in s.rows.puts
      ensures r.NotFound? <==> !Unmarked(old(s).rows, id)
      ensures r.Stored? || r.Released? ==> id !in s.rows.marked
      ensures r == Stored(false) ==> w.digest in s.store.index && s.store.index[w.digest] == id
      ensures r == Stored(true) || r.Released? ==> id !in s.store.staged
      ensures r.Failed? ==> !w.written || w.stopsAt > 0
      ensures Unmarked(old(s).rows, id) && w.written && w.stopsAt == 0 && Alone(w) ==>
                r == Stored(w.held || w.digest in old(s).store.index)
    {
      if !Unmarked(s.rows, id) {
        return NotFound;
      }
      Take(Put(id, Begin));
      if !w.written {
        Statement(id, w.others(0), WriteFails(w.dropped));
        return Failed;
      }
      Statement(id, w.others(0), Write(w.digest));
      if w.stopsAt == 1 {
        Take(Put(id, Stop));
        return Failed;
      }
      Statement(id, w.others(1), Find(w.held));
      if w.stopsAt == 2 {
        Take(Put(id, Stop));
        return Failed;
      }
      r := Conclude(id, w);
    }

    /** The completing transaction, and what is left to do when it records nothing. */
    method Conclude(id: Id, w: Weather) returns (r: PutResult)
      requires Valid() && id in s.rows.issued && id in s.rows.puts
      requires s.rows.puts[id] == if w.held then Duplicate else Unheld(w.digest)
      requires forall k :: OfOthers(id, w.others(k))
      modifies this
      ensures Valid() && old(past) <= past && id !in s.rows.puts && !r.NotFound?
      ensures r.Stored? || r.Released? ==> id !in s.rows.marked
      ensures r == Stored(false) ==> w.digest in s.store.index && s.store.index[w.digest] == id
      ensures r == Stored(true) || r.Released? ==> id !in s.store.staged
      ensures r.Failed? ==> w.stopsAt > 0
      ensures w.stopsAt == 0 && Alone(w) && Unmarked(old(s).rows, id) ==>
                r == Stored(w.held || w.digest in old(s).store.index)
    {
      if !w.held {
        Statement(id, w.others(2), Complete);
        if id !in s.rows.puts {
          return Stored(false);
        }
      }
      if w.stopsAt == 3 {
        Take(Put(id, Stop));
        return Failed;
      }
      if s.rows.puts[id].Duplicate? {
        var gone := DropDuplicate(id, w);
        if gone {
          return Stored(true);
        }
        if id !in s.rows.puts {
          return Failed;
        }
      }
      r := Release(id, w);
    }

    /** Drops a duplicate's data, then its row; a row found marked is left to Release. */
    method DropDuplicate(id: Id, w: Weather) returns (gone: bool)
      requires Valid() && id in s.rows.issued && id in s.rows.puts && s.rows.puts[id].Duplicate?
      requires forall k :: OfOthers(id, w.others(k))
      modifies this
      ensures Valid() && old(past) <= past && id in s.rows.issued
      ensures gone ==> id !in s.rows.puts && id !in s.rows.marked && id !in s.store.staged
      ensures !gone ==> id !in s.rows.puts || s.rows.puts[id].Discarded?
      ensures !gone && w.stopsAt != 4 ==> id in s.rows.puts
      ensures Alone(w) && w.stopsAt != 4 && Unmarked(old(s).rows, id) ==> gone
    {
      Statement(id, w.others(3), PutStep.DropDuplicate);
      if w.stopsAt == 4 {
        Take(Put(id, Stop));
        return false;
      }
      Statement(id, w.others(4), DeleteRow);
      return id !in s.rows.puts;
    }

    /** releaseDiscardedUpload: the data goes before the marked row. */
    method Release(id: Id, w: Weather) returns (r: PutResult)
      requires Valid() && id in s.rows.issued && id in s.rows.puts && s.rows.puts[id].Discarded?
      requires forall k :: OfOthers(id, w.others(k))
      modifies this
      ensures Valid() && old(past) <= past && id !in s.rows.puts && (r.Released? || r.Failed?)
      ensures r.Released? ==> id !in s.rows.marked && id !in s.store.staged
      ensures r.Failed? ==> w.stopsAt == 5
    {
      Statement(id, w.others(5), DropDiscarded);
      if w.stopsAt == 5 {
        Take(Put(id, Stop));
        return Failed;
      }
      Statement(id, w.others(6), DeleteDiscarded);
      return Released;
    }

    /** DiscardUpload: mark the row and look for an entry, then drop the data once that commits. */
    method DiscardUpload(id: Id, between: seq<Step>, fails: bool)
      requires Valid() && id in s.rows.issued
      modifies this
      ensures Valid() && old(past) <= past && !Unmarked(s.rows, id)
      ensures !fails && !Named(old(s).store.index, id) ==> id !in s.store.staged
      ensures Named(old(s).store.index, id) && id !in old(s).rows.dropping ==> past == old(past) + [Drop(id, Discard)]
    {
      Take(Drop(id, Discard));
      if id in s.rows.dropping {
        Others(id, between);
        if !fails {
          Take(Drop(id, DropData));
        }
      }
    }

    /** One listed upload's turn in a reap: its data goes before its row. */
    method ReapOne(id: Id, w: Reap)
      requires Valid() && id in s.rows.issued && id in s.rows.listed
      modifies this
      ensures Valid() && old(past) <= past && AllKept(old(s), s)
      ensures !w.dropFails && !w.deleteFails ==> id !in s.rows.marked
      ensures !w.dropFails && Over(old(s), id) ==> id !in s.store.staged
    {
      Others(id, w.before);
      if w.dropFails {
        return;
      }
      Take(Drop(id, ReapDrop));
      Others(id, w.between);
      if !w.deleteFails {
        Take(Drop(id, ReapDelete));
      }
    }

    /**
      reapDiscardedUploads over the rows it listed: every turn without an error
      removes its row, and drops its data for good if no PUT of it is running.
     */
    method ReapDiscarded(ids: seq<Id>, w: nat -> Reap)
      requires Valid() && forall id :: id in ids ==> id in s.rows.issued && id in s.rows.marked && s.rows.marked[id]
      modifies this
      ensures Valid() && old(past) <= past && AllKept(old(s), s)
      ensures forall i :: 0 <= i < |ids| && !w(i).dropFails && !w(i).deleteFails ==> ids[i] !in s.rows.marked
      ensures forall i :: 0 <= i < |ids| && !w(i).dropFails && Over(old(s), ids[i]) ==> ids[i] !in s.store.staged
    {
      List(ids);
      for n := 0 to |ids|
        invariant Valid() && old(past) <= past && AllKept(old(s), s)
        invariant forall id :: id in ids ==> id in s.rows.issued && id in s.rows.listed
        invariant forall i :: 0 <= i < n && !w(i).dropFails && !w(i).deleteFails ==> ids[i] !in s.rows.marked
        invariant forall i :: 0 <= i < n && !w(i).dropFails && Over(old(s), ids[i]) ==> ids[i] !in s.store.staged
      {
        ghost var t := s;
        ReapOne(ids[n], w(n));
        forall i | 0 <= i < |ids| ensures Kept(t, s, ids[i]) {
          assert ids[i] in ids;
        }
      }
    }

    /** The reap's SELECT. */
    method List(ids: seq<Id>)
      requires Valid() && forall id :: id in ids ==> id in s.rows.issued && id in s.rows.marked && s.rows.marked[id]
      modifies this
      ensures Valid() && old(past) <= past && AllKept(old(s), s)
      ensures forall id :: id in ids ==> id in s.rows.issued && id in s.rows.listed
    {
      for n := 0 to |ids|
        invariant Valid() && old(past) <= past && AllKept(old(s), s)
        invariant s.rows.marked == old(s).rows.marked && s.rows.issued == old(s).rows.issued
        invariant forall i :: 0 <= i < n ==> ids[i] in s.rows.listed
      {
        Take(Drop(ids[n], ReapList));
      }
    }
  }
}
