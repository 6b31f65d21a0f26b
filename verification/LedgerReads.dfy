/** The order of the two reads behind an absent removal: the second one is made after the first
    absence is on record, so it is never a wait over the same answer. */
module LedgerReads {
  import opened Outcomes
  import opened Ledger
  import opened LedgerRules
  import opened LedgerRuns
  import opened LedgerShape
  import opened LedgerEpochs

  /** A controller starts from the status that is stored, and the clock gives every first absence of
      a removal a new time. */
  predicate Orderly(w: World, e: Event) {
    match e
    case Restart(_, memory) => memory == w.stored
    case Write(_, op, _) =>
      op.FirstAbsence? ==>
        forall i :: 0 <= i < |w.observations| && w.observations[i].key == op.key ==> w.observations[i].time != op.now
    case _ => true
  }

  predicate OrderlyRun(w: World, events: seq<Event>)
    decreases |events|
  {
    events == [] || (Orderly(w, events[0]) && OrderlyRun(Step(w, events[0]), events[1..]))
  }

  // ----- where recorded times come from -----

  /** Among the first `bound` observations, one of `key` has this time. */
  predicate Timed(w: World, bound: nat, key: string, time: int) {
    exists i :: 0 <= i < bound && i < |w.observations| && w.observations[i].key == key && w.observations[i].time == time
  }

  /** Every absence time in the status was observed before `bound`. */
  predicate TimesKnown(w: World, s: Status, bound: nat) {
    forall key :: key in s.removals && s.removals[key].absenceAt.At? ==>
          Timed(w, bound, key, s.removals[key].absenceAt.time)
  }

  /** What a controller remembers it remembered when it made its latest read. */
  function Horizon(w: World, who: nat): nat {
    if who in w.latest && w.latest[who] < |w.readings| then w.readings[w.latest[who]].after else |w.observations|
  }

  ghost predicate MemoriesKnown(w: World) {
    forall who :: who in w.controllers ==> TimesKnown(w, w.controllers[who].memory, Horizon(w, who))
  }

  /** No first absence repeats an earlier time of its key. */
  predicate FirstTimesNew(w: World) {
    forall i, h :: 0 <= h < i < |w.observations| && w.observations[i].since.Fail?
                   && w.observations[h].key == w.observations[i].key ==>
      w.observations[h].time != w.observations[i].time
  }

  /** A settling read was made when the time it settles was already observed. */
  predicate SettledLater(w: World) {
    forall j :: 0 <= j < |w.observations| && w.observations[j].since.Ok? ==>
      && w.observations[j].read < |w.readings|
      && Timed(w, w.readings[w.observations[j].read].after, w.observations[j].key, w.observations[j].since.value)
  }

  ghost predicate InOrder(w: World) {
    && TimesKnown(w, w.stored, |w.observations|) && MemoriesKnown(w)
    && FirstTimesNew(w) && SettledLater(w) && ReadsAreOwn(w)
  }

  // ----- preservation -----

  lemma TimesStay(w: World, w': World, s: Status, bound: nat, bound': nat)
    requires TimesKnown(w, s, bound) && bound <= bound' && w.observations <= w'.observations
    ensures TimesKnown(w', s, bound')
  {
    forall key | key in s.removals && s.removals[key].absenceAt.At?
      ensures Timed(w', bound', key, s.removals[key].absenceAt.time)
    {
      TimedStays(w, w', bound, bound', key, s.removals[key].absenceAt.time);
    }
  }

  lemma TimedStays(w: World, w': World, bound: nat, bound': nat, key: string, time: int)
    requires Timed(w, bound, key, time) && bound <= bound' && w.observations <= w'.observations
    ensures Timed(w', bound', key, time)
  {
    var i :| 0 <= i < bound && i < |w.observations| && w.observations[i].key == key && w.observations[i].time == time;
    assert w'.observations[i] == w.observations[i];
  }

  lemma SettledStay(w: World, w': World)
    requires SettledLater(w) && w'.observations == w.observations && w.readings <= w'.readings
    ensures SettledLater(w')
  {
    forall j | 0 <= j < |w'.observations| && w'.observations[j].since.Ok?
      ensures w'.observations[j].read < |w'.readings|
      ensures Timed(w', w'.readings[w'.observations[j].read].after, w'.observations[j].key,
              w'.observations[j].since.value)
    {
      var bound := w.readings[w.observations[j].read].after;
      TimedStays(w, w', bound, bound, w.observations[j].key, w.observations[j].since.value);
    }
  }

  /** Restarts, reads and sends record nothing. */
  lemma QuietKeepsOrder(w: World, e: Event)
    requires InOrder(w) && Orderly(w, e) && !e.Write?
    ensures InOrder(Step(w, e))
  {
    var w' := Step(w, e);
    StepKeepsReadsOwn(w, e);
    SettledStay(w, w');
    TimesStay(w, w', w.stored, |w.observations|, |w.observations|);
    forall who | who in w'.controllers ensures TimesKnown(w', w'.controllers[who].memory, Horizon(w', who)) {
      if who in w.controllers && w'.controllers[who].memory == w.controllers[who].memory {
        HorizonGrows(w, e, who);
        TimesStay(w, w', w.controllers[who].memory, Horizon(w, who), Horizon(w', who));
      } else {
        TimesStay(w, w', w.stored, |w.observations|, Horizon(w', who));
      }
    }
  }

  lemma HorizonGrows(w: World, e: Event, who: nat)
    requires ReadsAreOwn(w) && who in w.controllers
    ensures Horizon(w, who) <= Horizon(Step(w, e), who)
    ensures who == e.who && !e.Look? && Possible(w, e) ==> Horizon(Step(w, e), who) == |Step(w, e).observations|
  {
  }

  /** The times in a status after a transition: the old ones, and the one a first absence records. */
  lemma TimesAfter(op: Op, s: Status, d: Status, key: string)
    requires ValidLedger(s) && Perform(op, s) == Ok(d) && key in d.removals && d.removals[key].absenceAt.At?
    ensures (key in s.removals && s.removals[key].absenceAt == d.removals[key].absenceAt)
            || (op.FirstAbsence? && op.key == key && d.removals[key].absenceAt == At(op.now))
  {
    RemovalChange(op, s, d, key);
    if key in s.removals && !Untouched(s.removals[key], d.removals[key]) {
      if op.FirstAbsence? {
        FirstAbsenceReceipt(op, s.removals[key], d.removals[key]);
      } else {
        FinishAbsenceReceipt(op, s.removals[key], d.removals[key]);
      }
    }
  }

  lemma CommitKeepsTimes(w: World, who: nat, op: Op, fault: Fault)
    requires Shaped(w.stored) && who in w.controllers && SwapOf(w, who, op, fault).committed
    requires TimesKnown(w, w.stored, |w.observations|)
    ensures var w' := WriteStep(w, who, op, fault); TimesKnown(w', w'.stored, |w'.observations|)
  {
    var w' := WriteStep(w, who, op, fault);
    WriteStores(w, who, op, fault);
    forall key | key in w'.stored.removals && w'.stored.removals[key].absenceAt.At?
      ensures Timed(w', |w'.observations|, key, w'.stored.removals[key].absenceAt.time)
    {
      TimesAfter(op, w.stored, w'.stored, key);
      if key in w.stored.removals && w.stored.removals[key].absenceAt == w'.stored.removals[key].absenceAt {
        TimedStays(w, w', |w.observations|, |w'.observations|, key, w.stored.removals[key].absenceAt.time);
      } else {
        assert w'.observations[|w.observations|].key == key && w'.observations[|w.observations|].time == op.now;
      }
    }
  }

  lemma WriteKeepsMemoriesKnown(w: World, who: nat, op: Op, fault: Fault)
    requires InOrder(w) && Shaped(w.stored) && Possible(w, Write(who, op, fault))
    ensures MemoriesKnown(WriteStep(w, who, op, fault))
  {
    var w' := WriteStep(w, who, op, fault);
    if SwapOf(w, who, op, fault).committed { CommitKeepsTimes(w, who, op, fault); }
    forall p | p in w'.controllers ensures TimesKnown(w', w'.controllers[p].memory, Horizon(w', p)) {
      HorizonGrows(w, Write(who, op, fault), p);
      if p != who || w'.controllers[p].memory == w.controllers[p].memory {
        TimesStay(w, w', w.controllers[p].memory, Horizon(w, p), Horizon(w', p));
      }
    }
  }

  /** The transition that settles an absence records the time that its controller knew. */
  lemma FinishIsKnown(w: World, who: nat, op: Op, fault: Fault)
    requires InOrder(w) && Possible(w, Write(who, op, fault)) && op.FinishAbsence?
             && SwapOf(w, who, op, fault).committed
    ensures who in w.latest && w.latest[who] < |w.readings| && op.seen.absenceAt.At?
    ensures Timed(w, w.readings[w.latest[who]].after, op.key, op.seen.absenceAt.time)
  {
    var memory := w.controllers[who].memory;
    assert op.key in memory.removals && memory.removals[op.key].absenceAt == op.seen.absenceAt;
    assert TimesKnown(w, memory, Horizon(w, who));
  }

  /** What a write adds to the observations is its own sighting. */
  lemma AddedObservation(w: World, who: nat, op: Op, fault: Fault, j: nat)
    requires who in w.controllers && |w.observations| <= j < |WriteStep(w, who, op, fault).observations|
    ensures SwapOf(w, who, op, fault).committed && RecordsRead(op) && j == |w.observations|
    ensures WriteStep(w, who, op, fault).observations[j] == Sighting(w, who, op)[0]
  {
  }

  lemma WriteKeepsSettled(w: World, who: nat, op: Op, fault: Fault)
    requires InOrder(w) && Possible(w, Write(who, op, fault))
    ensures SettledLater(WriteStep(w, who, op, fault))
  {
    var w' := WriteStep(w, who, op, fault);
    forall j | 0 <= j < |w'.observations| && w'.observations[j].since.Ok?
      ensures w'.observations[j].read < |w'.readings|
      ensures Timed(w', w'.readings[w'.observations[j].read].after, w'.observations[j].key,
              w'.observations[j].since.value)
    {
      if j < |w.observations| {
        assert w'.observations[j] == w.observations[j];
        var bound := w.readings[w.observations[j].read].after;
        TimedStays(w, w', bound, bound, w.observations[j].key, w.observations[j].since.value);
      } else {
        AddedObservation(w, who, op, fault, j);
        FinishIsKnown(w, who, op, fault);
        var bound := w.readings[w.latest[who]].after;
        TimedStays(w, w', bound, bound, op.key, op.seen.absenceAt.time);
      }
    }
  }

  lemma WriteKeepsFirstTimes(w: World, who: nat, op: Op, fault: Fault)
    requires InOrder(w) && Possible(w, Write(who, op, fault)) && Orderly(w, Write(who, op, fault))
    ensures FirstTimesNew(WriteStep(w, who, op, fault))
  {
    var w' := WriteStep(w, who, op, fault);
    if op.FinishAbsence? && SwapOf(w, who, op, fault).committed { FinishIsKnown(w, who, op, fault); }
    forall i, h | 0 <= h < i < |w'.observations| && w'.observations[i].since.Fail?
        && w'.observations[h].key == w'.observations[i].key
      ensures w'.observations[h].time != w'.observations[i].time
    {
      assert w'.observations[h] == w.observations[h];
    }
  }

  lemma StepKeepsOrder(w: World, e: Event)
    requires InOrder(w) && Shaped(w.stored) && Orderly(w, e)
    ensures InOrder(Step(w, e))
  {
    if !e.Write? {
      QuietKeepsOrder(w, e);
    } else if Possible(w, e) {
      StepKeepsReadsOwn(w, e);
      WriteKeepsMemoriesKnown(w, e.who, e.op, e.fault);
      WriteKeepsSettled(w, e.who, e.op, e.fault);
      WriteKeepsFirstTimes(w, e.who, e.op, e.fault);
      if SwapOf(w, e.who, e.op, e.fault).committed {
        CommitKeepsTimes(w, e.who, e.op, e.fault);
      } else {
        TimesStay(w, Step(w, e), w.stored, |w.observations|, |w.observations|);
      }
    }
  }

  lemma {:induction false} RunKeepsOrder(w: World, events: seq<Event>)
    requires InOrder(w) && Shaped(w.stored) && OrderlyRun(w, events)
    ensures InOrder(Run(w, events))
    decreases |events|
  {
    if events != [] {
      StepKeepsOrder(w, events[0]);
      StepKeepsShape(w, events[0]);
      RunKeepsOrder(Step(w, events[0]), events[1..]);
    }
  }

  /** In every orderly run, of the two reads behind a settled removal step the first was made before, and
      the second after, the first absence was put on record. */
  lemma SecondReadIsLater(events: seq<Event>, key: string, r: Removal, spacing: nat, i: nat, j: nat)
    requires OrderlyRun(INITIAL, events) && SeenTwice(Run(INITIAL, events), key, r, spacing, i, j)
    ensures var w := Run(INITIAL, events);
            w.readings[w.observations[i].read].after <= i < w.readings[w.observations[j].read].after
  {
    RunKeepsOrder(INITIAL, events);
    var w := Run(INITIAL, events);
    var bound := w.readings[w.observations[j].read].after;
    assert Timed(w, bound, key, w.observations[i].time);
    var h :| 0 <= h < bound && h < |w.observations| && w.observations[h].key == key
        && w.observations[h].time == w.observations[i].time;
    assert i <= h;
  }

  // ----- what the deletion of an address that was assigned rests on -----

  predicate DeletesAddress(p: RemovalPhase) {
    p.DeleteIntent? || p.DeleteIssued? || p.RollbackDeleteIntent? || p.RollbackDeleteIssued?
  }

  /** Two different reads of the receipt's address, spaced, the later one showing it unassigned. */
  predicate UnassignedTwice(w: World, key: string, r: Removal, spacing: nat, i: nat, j: nat) {
    && SeenTwice(w, key, r, spacing, i, j) && w.observations[j].sight == Unassigned
    && w.observations[i].target == w.observations[j].target == AddressTarget(r.floatingIPAddress)
  }

  /** Only a settled unassignment leads from an issued unassign to a deletion. */
  lemma OnlySettlingLeadsToDelete(op: Op, s: Status, d: Status, key: string)
    requires Perform(op, s) == Ok(d) && key in s.removals && key in d.removals
    requires AwaitsUnassign(s.removals[key].phase) && DeletesAddress(d.removals[key].phase)
    ensures op.FinishAbsence? && op.key == key && op.sight == Unassigned
    ensures EditReceipt(op, s.removals[key]) == Ok(d.removals[key])
  {
    RemovalSource(op, s, d, key);
  }

  /** Every way into the deletion of an address: a settled unassignment, a rollback's read that found
      the residual address unassigned, or a receipt for an address that was listed unassigned. */
  lemma DeleteStartsUnassigned(op: Op, s: Status, d: Status, key: string)
    requires Perform(op, s) == Ok(d) && key in d.removals && DeletesAddress(d.removals[key].phase)
    requires key in s.removals ==> !DeletesAddress(s.removals[key].phase)
    ensures || (op.FinishAbsence? && op.key == key && op.sight == Unassigned
                && key in s.removals && AwaitsUnassign(s.removals[key].phase))
            || (op.ResumeAddress? && op.key == key && !op.attached
                && key in s.removals && s.removals[key].phase == RollbackAfterVM)
            || (op.EnsureFloatingIPRemoval? && op.key == key && op.assignedTo == "" && key !in s.removals)
  {
    RemovalSource(op, s, d, key);
    if key !in s.removals {
      assert op.EnsureFloatingIPRemoval? && op.key == key;
    }
  }

  lemma SettlesHere(w: World, e: Event, key: string)
    requires key in w.stored.removals && AwaitsUnassign(w.stored.removals[key].phase)
    requires key in Step(w, e).stored.removals && DeletesAddress(Step(w, e).stored.removals[key].phase)
    ensures e.Write? && Possible(w, e) && SwapOf(w, e.who, e.op, e.fault).committed
    ensures e.op.FinishAbsence? && e.op.key == key && e.op.sight == Unassigned
    ensures EditReceipt(e.op, w.stored.removals[key]) == Ok(Step(w, e).stored.removals[key])
  {
    WriteStores(w, e.who, e.op, e.fault);
    OnlySettlingLeadsToDelete(e.op, w.stored, Step(w, e).stored, key);
  }

  lemma StepRestsOnReads(w: World, e: Event, key: string, spacing: nat)
    requires ValidLedger(w.stored) && Supported(w, key, spacing) && ReadsAreOwn(w) && SpacedEvent(e, spacing)
    requires key in w.stored.removals && AwaitsUnassign(w.stored.removals[key].phase)
    requires key in Step(w, e).stored.removals && DeletesAddress(Step(w, e).stored.removals[key].phase)
    ensures exists i: nat, j: nat ::
              UnassignedTwice(Step(w, e), key, Step(w, e).stored.removals[key], spacing, i, j)
  {
    var w', r := Step(w, e), w.stored.removals[key];
    SettlesHere(w, e, key);
    FinishAbsenceReceipt(e.op, r, w'.stored.removals[key]);
    var i :| FirstSeen(w, key, r, i);
    FinishAbsenceEvidence(w, e.who, e.op, e.fault, spacing, i);
    PairIsOfAddress(w', key, w'.stored.removals[key], spacing, i, |w.observations|);
    assert UnassignedTwice(w', key, w'.stored.removals[key], spacing, i, |w.observations|);
  }

  lemma StepKeepsPair(w: World, e: Event, key: string, r: Removal, spacing: nat, i: nat, j: nat)
    requires SeenTwice(w, key, r, spacing, i, j)
    requires Generation(Step(w, e), RemovalEntry(key)) == Generation(w, RemovalEntry(key))
    ensures var w' := Step(w, e);
            && SeenTwice(w', key, r, spacing, i, j)
            && w'.observations[i] == w.observations[i] && w'.observations[j] == w.observations[j]
  {
    var w' := Step(w, e);
    assert w.observations <= w'.observations && w.readings <= w'.readings;
  }

  /** Evidence stays as long as the receipt's generation does. */
  lemma {:induction false} RunKeepsPair(
    w: World, events: seq<Event>, key: string, r: Removal, spacing: nat, i: nat, j: nat)
    requires SeenTwice(w, key, r, spacing, i, j)
    requires Generation(Run(w, events), RemovalEntry(key)) == Generation(w, RemovalEntry(key))
    ensures var w' := Run(w, events);
            && SeenTwice(w', key, r, spacing, i, j)
            && w'.observations[i] == w.observations[i] && w'.observations[j] == w.observations[j]
    decreases |events|
  {
    if events != [] {
      GenerationGrows(w, events[0], RemovalEntry(key));
      GenerationGrowsInRun(Step(w, events[0]), events[1..], RemovalEntry(key));
      StepKeepsPair(w, events[0], key, r, spacing, i, j);
      RunKeepsPair(Step(w, events[0]), events[1..], key, r, spacing, i, j);
    }
  }

  lemma RunKeepsUnassigned(w: World, events: seq<Event>, key: string, r: Removal, spacing: nat)
    requires exists i: nat, j: nat :: UnassignedTwice(w, key, r, spacing, i, j)
    requires Generation(Run(w, events), RemovalEntry(key)) == Generation(w, RemovalEntry(key))
    ensures exists i: nat, j: nat :: UnassignedTwice(Run(w, events), key, r, spacing, i, j)
  {
    var i: nat, j: nat :| UnassignedTwice(w, key, r, spacing, i, j);
    RunKeepsPair(w, events, key, r, spacing, i, j);
    assert UnassignedTwice(Run(w, events), key, r, spacing, i, j);
  }

  lemma RunAround(before: seq<Event>, e: Event, after: seq<Event>)
    ensures Run(INITIAL, before + [e] + after) == Run(Step(Run(INITIAL, before), e), after)
  {
    RunJoins(INITIAL, before + [e], after);
    RunJoins(INITIAL, before, [e]);
    RunOne(Run(INITIAL, before), e);
  }

  /** In every run: a receipt that with event e left its issued unassign for a deletion has, as long
      as its generation lasts, two different spaced reads of its address, the earlier one showing it
      gone or unassigned and the later one unassigned. */
  lemma DeleteRestsOnUnassigned(before: seq<Event>, e: Event, after: seq<Event>, key: string, spacing: nat)
    requires (forall m :: 0 <= m < |before| ==> SpacedEvent(before[m], spacing)) && SpacedEvent(e, spacing)
    requires var w := Run(INITIAL, before);
             key in w.stored.removals && AwaitsUnassign(w.stored.removals[key].phase)
    requires var w' := Step(Run(INITIAL, before), e);
             && key in w'.stored.removals && DeletesAddress(w'.stored.removals[key].phase)
             && Generation(Run(INITIAL, before + [e] + after), RemovalEntry(key)) == Generation(w', RemovalEntry(key))
    ensures var r := Step(Run(INITIAL, before), e).stored.removals[key];
            exists i: nat, j: nat ::
              UnassignedTwice(Run(INITIAL, before + [e] + after), key, r, spacing, i, j)
  {
    var w' := Step(Run(INITIAL, before), e);
    RestedOnReads(before, e, key, spacing);
    RunAround(before, e, after);
    RunKeepsUnassigned(w', after, key, w'.stored.removals[key], spacing);
  }

  lemma RestedOnReads(events: seq<Event>, e: Event, key: string, spacing: nat)
    requires (forall m :: 0 <= m < |events| ==> SpacedEvent(events[m], spacing)) && SpacedEvent(e, spacing)
    requires var w := Run(INITIAL, events);
             key in w.stored.removals && AwaitsUnassign(w.stored.removals[key].phase)
    requires var w' := Step(Run(INITIAL, events), e);
             key in w'.stored.removals && DeletesAddress(w'.stored.removals[key].phase)
    ensures var w' := Step(Run(INITIAL, events), e);
            exists i: nat, j: nat :: UnassignedTwice(w', key, w'.stored.removals[key], spacing, i, j)
  {
    EveryLedgerIsShaped(INITIAL, events);
    AbsenceIsEvidenced(INITIAL, events, key, spacing);
    StepRestsOnReads(Run(INITIAL, events), e, key, spacing);
  }

  // ----- orderly runs do reach absence -----

  lemma {:induction false} OrderlyJoins(w: World, a: seq<Event>, b: seq<Event>)
    requires OrderlyRun(w, a) && OrderlyRun(Run(w, a), b)
    ensures OrderlyRun(w, a + b)
    decreases |a|
  {
    if a == [] {
      assert a + b == b;
    } else {
      OrderlyJoins(Step(w, a[0]), a[1..], b);
      assert (a + b)[0] == a[0] && (a + b)[1..] == a[1..] + b;
    }
  }

  lemma OrderlyTwo(w: World, e: Event, f: Event)
    requires Orderly(w, e) && Orderly(Step(w, e), f)
    ensures OrderlyRun(w, [e, f])
  {
    assert [e, f][1..] == [f] && [f][1..] == [];
    assert OrderlyRun(Step(Step(w, e), f), []);
    assert OrderlyRun(Step(w, e), [f]);
  }

  /** A firewall receipt from a fresh start. */
  lemma OpenedRun() returns (es: seq<Event>)
    ensures OrderlyRun(INITIAL, es)
    ensures var w := Run(INITIAL, es);
            && Ready(w) && "f" in w.stored.removals && w.observations == []
            && w.stored.removals["f"] == FreshFirewallRemoval("fw", SampleUUID())
  {
    SamplesAreWellFormed();
    var ensure, r := EnsureFirewallRemoval("f", "fw", SampleUUID()), FreshFirewallRemoval("fw", SampleUUID());
    es := [Restart(0, EMPTY), Write(0, ensure, NoFault)];
    var w0 := Step(INITIAL, es[0]);
    var d := PutRemoval(EMPTY, "f", r);
    assert "f" in d.removals && w0.stored == EMPTY;
    Commits(w0, ensure, d);
    RunTwo(INITIAL, es[0], es[1]);
    OrderlyTwo(INITIAL, es[0], es[1]);
  }

  /** There is an orderly run that ends with an absent removal, so the order above is of real reads. */
  lemma OrderlyAbsenceExists()
    ensures exists events: seq<Event> ::
              && OrderlyRun(INITIAL, events) && "f" in Run(INITIAL, events).stored.removals
              && Run(INITIAL, events).stored.removals["f"].phase == Absent
  {
    var a := OpenedRun();
    var w1 := Run(INITIAL, a);
    var r := w1.stored.removals["f"];
    var seen := r.(absenceAt := At(0));
    var first, second := FirstAbsence("f", r, Gone, 0), FinishAbsence("f", seen, Gone, 30, 30);
    var b := SightingRun(w1, first, r, seen);
    OrderlyTwo(w1, b[0], b[1]);
    OrderlyJoins(INITIAL, a, b);
    RunJoins(INITIAL, a, b);
    var w2 := Run(w1, b);
    var c := SightingRun(w2, second, seen, WithPhase(seen, Absent));
    OrderlyTwo(w2, c[0], c[1]);
    OrderlyJoins(INITIAL, a + b, c);
    RunJoins(INITIAL, a + b, c);
  }

  // ----- why a controller must start from what is stored -----

  lemma LookFirst(w: World, target: Target, memory: Status)
    requires Ready(w)
    ensures var w' := Run(w, [Restart(1, memory), Look(1, target, Gone)]);
            && Ready(w') && w'.stored == w.stored && w'.observations == w.observations
               && w'.generations == w.generations
            && 1 in w'.controllers && w'.controllers[1] == Controller(memory, Idle)
            && w'.readings == w.readings + [Reading(target, Gone, |w.observations|)]
            && w'.latest == (w.latest - {1})[1 := |w.readings|]
  {
    RunTwo(w, Restart(1, memory), Look(1, target, Gone));
  }

  lemma RecordNext(w: World, first: Op, r: Removal)
    requires Ready(w) && "f" in w.stored.removals && w.stored.removals["f"] == r
             && first == FirstAbsence("f", r, Gone, 0)
    requires r.absenceAt.NoStamp? && Settled(r, Gone).Ok? && 1 in w.controllers && 1 in w.latest
    ensures var w' := Run(w, [Look(0, TargetOf(r), Gone), Write(0, first, NoFault)]);
            && w'.stored == PutRemoval(w.stored, "f", r.(absenceAt := At(0))) && w'.generations == w.generations
            && 1 in w'.controllers && w'.controllers[1] == w.controllers[1]
            && 1 in w'.latest && w'.latest[1] == w.latest[1]
            && w'.readings == w.readings + [Reading(TargetOf(r), Gone, |w.observations|)]
            && w'.observations == w.observations
               + [Observation("f", Generation(w, RemovalEntry("f")), TargetOf(r), r.phase, Gone, 0, Fail, |w.readings|)]
  {
    RunTwo(w, Look(0, TargetOf(r), Gone), Write(0, first, NoFault));
    var w1 := Step(w, Look(0, TargetOf(r), Gone));
    var d := PutRemoval(w.stored, "f", r.(absenceAt := At(0)));
    assert d.removals["f"] != w.stored.removals["f"];
    Commits(w1, first, d);
    assert Advance(w.generations, {}) == w.generations;
  }

  /** Controller 1 read the target gone before the first absence that it remembers was recorded. */
  predicate LookedEarly(w: World, seen: Removal) {
    && 1 in w.controllers && w.controllers[1] == Controller(w.stored, Idle)
    && "f" in w.stored.removals && w.stored.removals["f"] == seen && Settled(seen, Gone) == Ok(Absent)
    && KindAllowsPhase(seen.kind, seen.phase) && !OfVM(seen.phase)
    && |w.observations| == 1 && FirstSeen(w, "f", seen, 0) && w.observations[0].time == 0
    && 1 in w.latest && w.latest[1] < |w.readings| && w.observations[0].read != w.latest[1]
    && w.readings[w.latest[1]] == Reading(TargetOf(seen), Gone, 0)
  }

  lemma IsLookedEarly(w: World, r: Removal, n: nat)
    requires KindAllowsPhase(r.kind, r.phase) && !OfVM(r.phase) && Settled(r, Gone) == Ok(Absent)
    requires 1 in w.controllers && w.controllers[1] == Controller(w.stored, Idle) && 1 in w.latest && w.latest[1] == n
    requires "f" in w.stored.removals && w.stored.removals["f"] == r.(absenceAt := At(0))
    requires |w.readings| == n + 2 && w.readings[n] == w.readings[n + 1] == Reading(TargetOf(r), Gone, 0)
    requires w.observations == [Observation("f", Generation(w, RemovalEntry("f")), TargetOf(r), r.phase, Gone, 0,
                                            Fail, n + 1)]
    ensures LookedEarly(w, r.(absenceAt := At(0)))
  {
    assert r.(absenceAt := At(0), phase := r.phase) == r.(absenceAt := At(0));
  }

  /** Controller 1 has looked before controller 0 records the same absence. */
  lemma EarlyLook(w: World, r: Removal) returns (es: seq<Event>)
    requires Ready(w) && w.observations == [] && "f" in w.stored.removals && w.stored.removals["f"] == r
    requires KindAllowsPhase(r.kind, r.phase) && !OfVM(r.phase) && r.absenceAt.NoStamp?
    requires Settled(r, Gone) == Ok(Absent)
    ensures LookedEarly(Run(w, es), r.(absenceAt := At(0)))
  {
    var memory := PutRemoval(w.stored, "f", r.(absenceAt := At(0)));
    var a := [Restart(1, memory), Look(1, TargetOf(r), Gone)];
    LookFirst(w, TargetOf(r), memory);
    var first := FirstAbsence("f", r, Gone, 0);
    RecordNext(Run(w, a), first, r);
    es := a + [Look(0, TargetOf(r), Gone), Write(0, first, NoFault)];
    RunJoins(w, a, [Look(0, TargetOf(r), Gone), Write(0, first, NoFault)]);
    IsLookedEarly(Run(w, es), r, |w.readings|);
  }

  /** Controller 1 settles the record on the read it made before. */
  lemma SettleOnEarlyLook(w: World, seen: Removal, finish: Op)
    requires LookedEarly(w, seen) && finish == FinishAbsence("f", seen, Gone, 30, 30)
    ensures var w' := Step(w, Write(1, finish, NoFault));
            GoneTwice(w', "f", seen, 30, 0, 1) && w'.readings[w'.observations[1].read].after == 0
  {
    var d := PutRemoval(w.stored, "f", WithPhase(seen, Absent));
    assert d.removals["f"] != w.stored.removals["f"] && Perform(finish, w.stored) == Ok(d);
    var w' := Step(w, Write(1, finish, NoFault));
    assert w'.observations == w.observations + Sighting(w, 1, finish);
    WriteGenerations(w, 1, finish, NoFault, RemovalEntry("f"));
    assert seen.(phase := seen.phase) == seen;
  }

  lemma EarlyRun() returns (es: seq<Event>, seen: Removal)
    ensures LookedEarly(Run(INITIAL, es), seen)
  {
    var a := OpenedRun();
    var w := Run(INITIAL, a);
    var b := EarlyLook(w, w.stored.removals["f"]);
    RunJoins(INITIAL, a, b);
    es, seen := a + b, w.stored.removals["f"].(absenceAt := At(0));
  }

  /** With a memory that foretells the record, the later observation can rest on the earlier read:
      the absence is settled without looking again after the first one was recorded. */
  lemma ForetoldMemoryLooksEarly()
    ensures exists events: seq<Event>, r: Removal ::
              var w := Run(INITIAL, events);
              GoneTwice(w, "f", r, 30, 0, 1) && !(0 < w.readings[w.observations[1].read].after)
  {
    var es, seen := EarlyRun();
    var finish := FinishAbsence("f", seen, Gone, 30, 30);
    SettleOnEarlyLook(Run(INITIAL, es), seen, finish);
    RunJoins(INITIAL, es, [Write(1, finish, NoFault)]);
    RunOne(Run(INITIAL, es), Write(1, finish, NoFault));
    assert GoneTwice(Run(INITIAL, es + [Write(1, finish, NoFault)]), "f", seen, 30, 0, 1);
  }
}
