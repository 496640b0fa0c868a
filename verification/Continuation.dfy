/** In which order a processing item assesses its candidate's wishes, whatever happens in between. */
module Continuation {
  import opened Orders
  import opened AllocationStore
  import opened Preference
  import opened CandidateFile
  import opened CandidateSafety
  import opened CandidateWrites
  import opened CandidateRuns

  /** The wishes the item would assess if each assessment ended in a rejection. */
  function Ahead(item: ScopeItem): seq<nat> {
    if Terminal(item.state) then [] else Agenda(item.wishes, item.entity, item.retry)
  }

  // ----- what is ahead of a new item -----

  lemma {:induction false} PendingMembers(vs: seq<Volunteer>, r: nat)
    ensures r in Pending(vs) <==> IsOpen(vs, r)
  {
    if vs != [] {
      PendingMembers(vs[1..], r);
      assert forall v :: v in vs <==> v == vs[0] || v in vs[1..];
    }
  }

  lemma OpenRearranged(xs: seq<Volunteer>, ys: seq<Volunteer>, r: nat)
    requires multiset(xs) == multiset(ys)
    ensures IsOpen(xs, r) <==> IsOpen(ys, r)
  {
    SameElements(xs, ys);
  }

  /** A submitted item has every wish of the candidate once; without a wish to retry, exactly those
      with an open application lie ahead. */
  lemma SubmittedAhead(f: File, force: bool, entity: string, details: seq<Details>, r: nat)
    ensures var item := Submit(f, force, entity, details, None).items[|f.items|];
            DistinctWishes(item.wishes) && (r in Ahead(item) <==> r < f.resumes && !Closed(AppOf(f, r).appStatus))
  {
    hide Closed, Pending;
    var vs := Freeze(f, details);
    OpenRearranged(Ordered(vs, entity), vs, r);
    PendingMembers(Ordered(vs, entity), r);
    if r < f.resumes {
      assert vs[r] in vs;
    }
    if IsOpen(vs, r) {
      var v :| v in vs && v.wish == r && !v.rejected;
      var i :| 0 <= i < |vs| && vs[i] == v;
      assert i == r;
    }
  }

  // ----- one stored rejection -----

  /** The event stores a rejection through the item. */
  predicate Rejects(d: Desk, e: Event, i: nat) {
    Outcome(d, e) && e.result.Rejected? && d.flights[e.worker].item == i
  }

  lemma AdvancedAhead(item: ScopeItem)
    requires DistinctWishes(item.wishes) && CurrentOf(item).Some?
    ensures var next := Advanced(item);
            && DistinctWishes(next.wishes)
            && Agenda(item.wishes, item.entity, item.retry)
               == [CurrentOf(item).value] + Agenda(next.wishes, next.entity, next.retry)
            && (CurrentOf(next).None? <==> Agenda(next.wishes, next.entity, next.retry) == [])
            && (CurrentOf(next).Some? ==> CurrentOf(next).value == Agenda(next.wishes, next.entity, next.retry)[0])
  {
    hide Agenda, Current, Reject;
    var next := Advanced(item);
    AgendaAdvances(item.wishes, item.entity, item.retry);
    DistinctAfterReject(item.wishes, CurrentOf(item).value);
    AgendaAdvances(next.wishes, next.entity, next.retry);
  }

  /** A stored rejection closes the application of the current volunteer and takes it off what lies
      ahead. The same item then waits for the next one at the very revision the workflow has now,
      so that it will be found unchanged; or it ends, with the candidate in the talent pool exactly
      when no application is left. */
  lemma RejectionHandsOver(d: Desk, e: Event, i: nat)
    requires DeskOk(d) && Rejects(d, e, i) && i < |d.file.items| && DistinctWishes(d.file.items[i].wishes)
    ensures var h := Step(d, e).file;
            && |h.items| == |d.file.items| && CurrentOf(d.file.items[i]).Some? && DistinctWishes(h.items[i].wishes)
            && Ahead(d.file.items[i]) == [CurrentOf(d.file.items[i]).value] + Ahead(h.items[i])
            && AppOf(h, CurrentOf(d.file.items[i]).value).appStatus == AiRejected
            && h.flow.claim == None && h.flow.revision == d.file.flow.revision + 1
            && (if Ahead(h.items[i]) != []
                then && h.items[i].state == CandidateFile.Waiting && CurrentOf(h.items[i]) == Some(Ahead(h.items[i])[0])
                     && h.items[i].continuation == Some(h.flow.revision) && !RevisionChanged(h.items[i], h.flow)
                     && h.flow.currentResume == CurrentOf(h.items[i])
                else && h.items[i].state == Success
                     && (h.flow.status == TalentPool <==> !Remaining(h)) && (h.flow.status == WaitingNext <==> Remaining(h)))
  {
    hide Sound, FinishItem, OpenApps, LiveFlight, Agenda, Current, HasAllocated, HasAllocatedOf, NoneAllocated, HasEffective, Advanced, Remaining;
    var f, x := d.file, d.flights[e.worker];
    assert LiveFlight(f, x);
    HeldWrites(f, x, e.result);
    AdvancedAhead(f.items[i]);
  }

  // ----- any run -----

  /** Any other event keeps what lies ahead of the item, or ends the item. */
  lemma OthersKeepAhead(d: Desk, e: Event, i: nat)
    requires DeskOk(d) && i < |d.file.items| && !Rejects(d, e, i)
    ensures i < |Step(d, e).file.items| && SameSnapshot(d.file.items[i], Step(d, e).file.items[i])
  {
    hide Sound, OpenApps, LiveFlight, Held, Current, NoneCloses, NoneQueued, NoneAllocated, HasAllocated, HasAllocatedOf, HasEffective;
    hide ManualAssign, Mutate, EditCandidate, StopRun, PrepareItem, ClaimItem, FinishItem, Allocated, CleanMember, Freeze, Advanced;
    var f := d.file;
    if Transaction(d, e).Some? {
      if e.Assigning? {
        AssignQuiet(f, e.resume, e.department, e.receives);
      } else if e.Acting? {
        MutateQuiet(f, e.attempt, e.action, e.permitted, e.note);
      } else if e.Submitting? {
        SubmitSteady(f, e.force, e.entity, e.details, e.retry);
      } else if e.Allocating? {
        AllocatedQuiet(f, e.member, e.department);
      } else if Outcome(d, e) {
        assert LiveFlight(f, d.flights[e.worker]);
        HeldWrites(f, d.flights[e.worker], e.result);
      } else {
        TransactionQuiet(d, e);
      }
    }
  }

  lemma AheadKept(x: ScopeItem, y: ScopeItem)
    requires SameSnapshot(x, y)
    ensures Ahead(y) == if Terminal(y.state) then [] else Ahead(x)
  {
    hide Agenda;
  }

  /** The volunteers whose rejection is stored through the item in the run, in order. */
  function RejectedBy(d: Desk, events: seq<Event>, i: nat): seq<nat>
    decreases |events|
  {
    if events == [] then []
    else
      (if Rejects(d, events[0], i) && i < |d.file.items| && CurrentOf(d.file.items[i]).Some?
       then [CurrentOf(d.file.items[i]).value] else [])
      + RejectedBy(Step(d, events[0]), events[1..], i)
  }

  /** In the run, a stored rejection ends the item. */
  predicate EndsByRejection(d: Desk, events: seq<Event>, i: nat)
    decreases |events|
  {
    && events != []
    && ((Rejects(d, events[0], i) && i < |Step(d, events[0]).file.items| && Terminal(Step(d, events[0]).file.items[i].state))
        || EndsByRejection(Step(d, events[0]), events[1..], i))
  }

  /** gone was taken off the front of what lay ahead, and the item stands as stated. */
  ghost predicate TakenOff(before: ScopeItem, gone: seq<nat>, after: ScopeItem, byRejection: bool) {
    && gone + Ahead(after) <= Ahead(before)
    && (!Terminal(after.state) ==> gone + Ahead(after) == Ahead(before))
    && (byRejection ==> gone == Ahead(before))
    && (Terminal(before.state) ==> Terminal(after.state))
  }

  lemma TakenOffNothing(item: ScopeItem)
    ensures TakenOff(item, [], item, false)
  {
    hide Ahead;
  }

  lemma TakenOffFirst(before: ScopeItem, r: nat, next: ScopeItem, gone: seq<nat>, after: ScopeItem, byRejection: bool)
    requires !Terminal(before.state) && Ahead(before) == [r] + Ahead(next) && TakenOff(next, gone, after, byRejection)
    ensures TakenOff(before, [r] + gone, after, byRejection || Terminal(next.state))
  {
    hide Ahead, Terminal;
    EndedHasNothing(next);
    assert ([r] + gone) + Ahead(after) == [r] + (gone + Ahead(after));
  }

  lemma TakenOffLater(before: ScopeItem, next: ScopeItem, gone: seq<nat>, after: ScopeItem, byRejection: bool)
    requires SameSnapshot(before, next) && TakenOff(next, gone, after, byRejection)
    requires byRejection ==> !Terminal(next.state)
    ensures TakenOff(before, gone, after, byRejection)
  {
    hide Ahead;
    AheadKept(before, next);
  }

  /** In any run, with people, imports, allocations and other runs acting at any moment: the
      volunteers rejected through an item are those that lay ahead of it, in preference order, each
      once and from the first one on; their applications stay closed; while the item is not finished
      exactly the others still lie ahead; and if a rejection ended the item, none was left out. */
  lemma {:induction false} RejectedInPreferenceOrder(d: Desk, events: seq<Event>, i: nat)
    requires DeskOk(d) && i < |d.file.items| && DistinctWishes(d.file.items[i].wishes)
    ensures var gone, h := RejectedBy(d, events, i), Play(d, events).file;
            && i < |h.items|
            && TakenOff(d.file.items[i], gone, h.items[i], EndsByRejection(d, events, i))
            && forall r | r in gone :: AppOf(h, r).appStatus == AiRejected
    ensures Terminal(d.file.items[i].state) ==> !EndsByRejection(d, events, i)
    decreases |events|
  {
    hide DeskOk, Step, Rejects, DistinctWishes, Current, Terminal, TakenOff, SameSnapshot, RevisionChanged, Ahead, Remaining;
    if events == [] {
      TakenOffNothing(d.file.items[i]);
    } else {
      var n := Step(d, events[0]);
      StepStaysOk(d, events[0]);
      if Rejects(d, events[0], i) {
        RejectionHandsOver(d, events[0], i);
        RejectedInPreferenceOrder(n, events[1..], i);
        UnfinishedBefore(d, events[0], i);
        var r := CurrentOf(d.file.items[i]).value;
        TakenOffFirst(d.file.items[i], r, n.file.items[i], RejectedBy(n, events[1..], i), Play(n, events[1..]).file.items[i],
                      EndsByRejection(n, events[1..], i));
        RejectedStays(n, events[1..], r);
      } else {
        OthersKeepAhead(d, events[0], i);
        SnapshotDistinct(d.file.items[i], n.file.items[i]);
        RejectedInPreferenceOrder(n, events[1..], i);
        assert RejectedBy(d, events, i) == RejectedBy(n, events[1..], i);
        TakenOffLater(d.file.items[i], n.file.items[i], RejectedBy(n, events[1..], i), Play(n, events[1..]).file.items[i],
                      EndsByRejection(n, events[1..], i));
      }
    }
  }

  lemma EndedHasNothing(item: ScopeItem)
    ensures Terminal(item.state) ==> Ahead(item) == []
  {
    hide Agenda;
  }

  lemma UnfinishedBefore(d: Desk, e: Event, i: nat)
    requires Rejects(d, e, i) && i < |d.file.items|
    ensures !Terminal(d.file.items[i].state)
  {}

  lemma SnapshotDistinct(x: ScopeItem, y: ScopeItem)
    requires SameSnapshot(x, y)
    ensures DistinctWishes(x.wishes) ==> DistinctWishes(y.wishes)
    ensures Terminal(x.state) ==> Terminal(y.state)
  {}

  lemma RejectedStays(d: Desk, events: seq<Event>, r: nat)
    requires DeskOk(d) && AppOf(d.file, r).appStatus == AiRejected
    ensures AppOf(Play(d, events).file, r).appStatus == AiRejected
  {
    hide DeskOk, Play;
    ClosedForever(d, events, r);
  }
}
