/** Deadline timers: entries leave in order of deadline and insertion, very late optional ones are dropped. */
module Timers {
  import opened Messages

  const SECOND: int := 1_000_000_000

  datatype Timer = Timer(deadline: Time, skippable: bool, task: string, seqNo: nat)

  predicate Before(a: Timer, b: Timer) {
    a.deadline < b.deadline || (a.deadline == b.deadline && a.seqNo < b.seqNo)
  }

  ghost predicate StrictlySorted(s: seq<Timer>) { forall i, j :: 0 <= i < j < |s| ==> Before(s[i], s[j]) }

  predicate Due(e: Timer, now: Time) { e.deadline <= now }

  /** The lag is truncated to whole seconds before it is compared. */
  predicate Dropped(e: Timer, now: Time, threshold: int) {
    e.skippable && (now - e.deadline) / SECOND > threshold
  }

  /** A due optional entry is dropped exactly when it is at least threshold + 1 whole seconds late. */
  lemma DroppedMeans(e: Timer, now: Time, threshold: int)
    requires Due(e, now)
    ensures Dropped(e, now, threshold) <==> e.skippable && now - e.deadline >= (threshold + 1) * SECOND
  {
    var lag := now - e.deadline;
    assert lag == SECOND * (lag / SECOND) + lag % SECOND;
  }

  /** The heap is a set of entries with distinct insertion numbers; its top is the least of them. */
  class PriorityTimer {
    var heap: set<Timer>
    var nextSeq: nat
    ghost var scheduled: set<Timer>
    ghost var returned: set<Timer>
    ghost var skipped: set<Timer>

    /**
     * Over any sequence of operations every scheduled entry is in exactly one place: still in the heap, returned once,
     * or skipped, and only optional entries are skipped.
     */
    ghost predicate Valid()
      reads this
    {
      && scheduled == heap + returned + skipped
      && heap !! returned !! skipped
      && (forall e <- skipped :: e.skippable)
      && (forall e <- scheduled :: e.seqNo < nextSeq)
      && (forall a <- scheduled, b <- scheduled :: a.seqNo == b.seqNo ==> a == b)
    }

    constructor ()
      ensures Valid() && heap == {} && scheduled == {}
    {
      heap, nextSeq := {}, 0;
      scheduled, returned, skipped := {}, {}, {};
    }

    method ScheduleAt(deadline: Time, skippable: bool, task: string)
      requires Valid()
      modifies this
      ensures Valid() && nextSeq == old(nextSeq) + 1
      ensures var e := Timer(deadline, skippable, task, old(nextSeq));
              e !in old(scheduled) && heap == old(heap) + {e} && scheduled == old(scheduled) + {e}
      ensures returned == old(returned) && skipped == old(skipped)
    {
      var e := Timer(deadline, skippable, task, nextSeq);
      heap := heap + {e};
      scheduled := scheduled + {e};
      nextSeq := nextSeq + 1;
    }

    method Top() returns (top: Timer)
      requires heap != {} && forall a <- heap, b <- heap :: a.seqNo == b.seqNo ==> a == b
      ensures top in heap && forall e <- heap :: e == top || Before(top, e)
    {
      top :| top in heap;
      var rest := heap - {top};
      while rest != {}
        invariant rest <= heap && top in heap && top !in rest
        invariant forall e <- heap :: e in rest || e == top || Before(top, e)
      {
        var e :| e in rest;
        rest := rest - {e};
        if !Before(top, e) { top := e; }
      }
    }

    method PopExpired(now: Time, threshold: int) returns (out: seq<Timer>)
      requires Valid()
      modifies this
      ensures Valid() && scheduled == old(scheduled) && nextSeq == old(nextSeq)
      ensures forall i, j :: 0 <= i < j < |out| ==>
                out[i].deadline < out[j].deadline || (out[i].deadline == out[j].deadline && out[i].seqNo < out[j].seqNo)
      ensures forall e :: e in out <==>
                && e in old(heap) && e.deadline <= now
                && !(e.skippable && now - e.deadline >= (threshold + 1) * SECOND)
      ensures heap == set e | e in old(heap) && e.deadline > now
      ensures returned == old(returned) + (set e | e in out)
      ensures skipped == old(skipped) + (set e | e in old(heap) && Due(e, now) && Dropped(e, now, threshold))
    {
      out := [];
      while heap != {}
        invariant heap <= old(heap) && returned == old(returned) && skipped == old(skipped)
                  && scheduled == old(scheduled)
        invariant nextSeq == old(nextSeq)
        invariant StrictlySorted(out) && forall a <- out, b <- heap :: Before(a, b)
        invariant forall e :: e in out <==> e in old(heap) && e !in heap && !Dropped(e, now, threshold)
        invariant forall e <- old(heap) :: e in heap || Due(e, now)
        decreases heap
      {
        var e := Top();
        if e.deadline > now { break; }
        heap := heap - {e};
        var lag := (now - e.deadline) / SECOND;
        if e.skippable && lag > threshold { continue; }
        out := out + [e];
      }
      assert forall e <- heap :: !Due(e, now);
      forall e | Due(e, now)
        ensures Dropped(e, now, threshold) <==> e.skippable && now - e.deadline >= (threshold + 1) * SECOND
      {
        DroppedMeans(e, now, threshold);
      }
      returned := returned + set e | e in out;
      skipped := skipped + set e | e in old(heap) && Due(e, now) && Dropped(e, now, threshold);
    }
  }
}
