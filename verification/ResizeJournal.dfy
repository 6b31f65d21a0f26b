/** The crash-resumable journal of a rolling control-plane resize: the decision it takes from an
    inventory, its in-place updates, and the playbook driver that a crash may cut anywhere. */
module ResizeJournal {
  import opened Counting
  import opened Outcomes

  datatype Machine = Machine(vcpu: int, memory: int)

  predicate InBounds(m: Machine) {
    2 <= m.vcpu <= 16 && 4096 <= m.memory <= 65536
  }

  /** No larger in either dimension. */
  predicate NoLarger(m: Machine, n: Machine) {
    m.vcpu <= n.vcpu && m.memory <= n.memory
  }

  /** `inProgress` is empty when no server is mid-resize. */
  datatype Progress = Progress(target: Machine, inProgress: string, completed: seq<string>)

  datatype State = State(names: seq<string>, recorded: Outcome<Machine>, resize: Outcome<Progress>)

  predicate ValidNames(names: seq<string>) {
    names != [] && "" !in names
  }

  predicate HasProgress(p: Progress) {
    p.completed != [] || p.inProgress != ""
  }

  /** The size the control planes run at: what was recorded, or the size of the first install. */
  function Running(s: State, spec: Machine): Machine {
    if s.recorded.Ok? then s.recorded.value else spec
  }

  datatype Decision = Decision(target: Machine, needed: bool, resuming: bool, stale: bool, pending: seq<string>)

  predicate ReadableProgress(s: State, p: Progress) {
    && (forall name :: name in p.completed ==> name in s.names)
    && (p.inProgress != "" ==> p.inProgress in s.names)
    && Distinct(p.completed) && p.inProgress !in p.completed
  }

  function Without(names: seq<string>, completed: seq<string>): seq<string> {
    if names == [] then []
    else (if names[0] in completed then [] else [names[0]]) + Without(names[1..], completed)
  }

  function Classify(s: State, spec: Machine, inventory: Machine): Outcome<Decision> {
    if !ValidNames(s.names) || !InBounds(inventory) then Fail
    else if s.resize.Ok? && !ReadableProgress(s, s.resize.value) then Fail
    else
      var resuming := s.resize.Ok? && HasProgress(s.resize.value);
      var stale := s.resize.Ok? && !resuming;
      if resuming then
        if inventory != s.resize.value.target then Fail
        else Ok(Decision(inventory, true, true, false, Without(s.names, s.resize.value.completed)))
      else if inventory == Running(s, spec) then Ok(Decision(inventory, false, false, stale, []))
      else if !NoLarger(Running(s, spec), inventory) then Fail
      else Ok(Decision(inventory, true, false, stale,
                       Without(s.names, if s.resize.Ok? then s.resize.value.completed else [])))
  }

  // ----- the journal updates as functions -----

  datatype Command = Begin(target: Machine) | Clear | SlotStart(name: string) | SlotDone(name: string) | Finish

  function Apply(s: State, c: Command): Outcome<State> {
    match c
    case Begin(target) =>
      if !ValidNames(s.names) || !InBounds(target) || (s.recorded.Ok? && !NoLarger(s.recorded.value, target)) then Fail
      else if s.resize.Ok? && s.resize.value.target == target then Ok(s)
      else if s.resize.Ok? && HasProgress(s.resize.value) then Fail
      else Ok(s.(resize := Ok(Progress(target, "", []))))
    case Clear =>
      if s.resize.Fail? then Ok(s) else if HasProgress(s.resize.value) then Fail else Ok(s.(resize := Fail))
    case SlotStart(name) =>
      if s.resize.Fail? || !ValidNames(s.names) || name !in s.names || name in s.resize.value.completed then Fail
      else if s.resize.value.inProgress != "" && s.resize.value.inProgress != name then Fail
      else Ok(s.(resize := Ok(s.resize.value.(inProgress := name))))
    case SlotDone(name) =>
      if s.resize.Fail? || !ValidNames(s.names) || name !in s.names then Fail
      else if s.resize.value.inProgress != "" && s.resize.value.inProgress != name then Fail
      else
        var done := s.resize.value.completed;
        Ok(s.(resize := Ok(s.resize.value.(inProgress := "", completed := if name in done then done
            else done + [name]))))
    case Finish =>
      if s.resize.Fail? || !ValidNames(s.names) || s.resize.value.inProgress != "" then Fail
      else if exists name :: name in s.names && name !in s.resize.value.completed then Fail
      else Ok(s.(recorded := Ok(s.resize.value.target), resize := Fail))
  }

  /** The journal file, updated in place by one command at a time. */
  class Journal {
    var names: seq<string>
    var recorded: Outcome<Machine>
    var resize: Outcome<Progress>

    constructor (names: seq<string>)
      ensures Value() == State(names, Fail, Fail)
    {
      this.names, recorded, resize := names, Fail, Fail;
    }

    function Value(): State reads this { State(names, recorded, resize) }

    /** A refused command leaves the journal as it was. */
    ghost predicate Moved(s: State, c: Command, ok: bool) reads this {
      if ok then Apply(s, c) == Ok(Value()) else Apply(s, c).Fail? && Value() == s
    }

    method Begin(target: Machine) returns (ok: bool)
      modifies this`resize
      ensures Moved(old(Value()), Command.Begin(target), ok)
    {
      if !ValidNames(names) || !InBounds(target) {
        return false;
      }
      if recorded.Ok? && (target.vcpu < recorded.value.vcpu || target.memory < recorded.value.memory) {
        return false;
      }
      if resize.Ok? {
        if resize.value.target == target {
          return true;
        }
        if HasProgress(resize.value) {
          return false;
        }
      }
      resize := Ok(Progress(target, "", []));
      return true;
    }

    method Clear() returns (ok: bool)
      modifies this`resize
      ensures Moved(old(Value()), Command.Clear, ok)
    {
      if resize.Fail? {
        return true;
      }
      if HasProgress(resize.value) {
        return false;
      }
      resize := Fail;
      return true;
    }

    method SlotStart(name: string) returns (ok: bool)
      modifies this`resize
      ensures Moved(old(Value()), Command.SlotStart(name), ok)
    {
      if resize.Fail? || !ValidNames(names) || name !in names || name in resize.value.completed {
        return false;
      }
      var other := resize.value.inProgress;
      if other != "" && other != name {
        return false;
      }
      resize := Ok(resize.value.(inProgress := name));
      return true;
    }

    method SlotDone(name: string) returns (ok: bool)
      modifies this`resize
      ensures Moved(old(Value()), Command.SlotDone(name), ok)
    {
      if resize.Fail? || !ValidNames(names) || name !in names {
        return false;
      }
      var other := resize.value.inProgress;
      if other != "" && other != name {
        return false;
      }
      if name !in resize.value.completed {
        resize := Ok(resize.value.(completed := resize.value.completed + [name]));
      }
      resize := Ok(resize.value.(inProgress := ""));
      return true;
    }

    method Finish() returns (ok: bool)
      modifies this`recorded, this`resize
      ensures Moved(old(Value()), Command.Finish, ok)
    {
      if resize.Fail? || !ValidNames(names) {
        return false;
      }
      var missing := false;
      for i := 0 to |names|
        invariant missing <==> exists j :: 0 <= j < i && names[j] !in resize.value.completed
      {
        if names[i] !in resize.value.completed {
          missing := true;
        }
      }
      assert missing <==> exists name :: name in names && name !in resize.value.completed;
      if missing || resize.value.inProgress != "" {
        return false;
      }
      recorded, resize := Ok(resize.value.target), Fail;
      return true;
    }
  }

  // ----- every reachable journal -----

  /** Completed servers are known and distinct, the server in progress is another known one, and
      a journaled target is within bounds and no smaller than what the servers run at. */
  predicate Sound(s: State, spec: Machine) {
    s.resize.Ok? ==>
      && ReadableProgress(s, s.resize.value)
      && InBounds(s.resize.value.target) && NoLarger(Running(s, spec), s.resize.value.target)
  }

  /** One operator action: a journal command, where a resize begins only with a decided target. */
  datatype Action = Decide(inventory: Machine) | Command(command: Command)

  predicate Possible(s: State, spec: Machine, a: Action) {
    match a
    case Decide(inventory) => Classify(s, spec, inventory).Ok? && Classify(s, spec, inventory).value.needed
    case Command(c) => !c.Begin?
  }

  /** A refused command changes nothing. */
  function Act(s: State, spec: Machine, a: Action): State
    requires Possible(s, spec, a)
  {
    var c := if a.Decide? then Begin(Classify(s, spec, a.inventory).value.target) else a.command;
    if Apply(s, c).Ok? then Apply(s, c).value else s
  }

  predicate Possibles(s: State, spec: Machine, actions: seq<Action>)
    decreases |actions|
  {
    actions == [] || (Possible(s, spec, actions[0]) && Possibles(Act(s, spec, actions[0]), spec, actions[1..]))
  }

  function Acts(s: State, spec: Machine, actions: seq<Action>): State
    requires Possibles(s, spec, actions)
    decreases |actions|
  {
    if actions == [] then s else Acts(Act(s, spec, actions[0]), spec, actions[1..])
  }

  lemma ActKeepsSound(s: State, spec: Machine, a: Action)
    requires Sound(s, spec) && Possible(s, spec, a)
    ensures Sound(Act(s, spec, a), spec) && NoLarger(Running(s, spec), Running(Act(s, spec, a), spec))
  {
  }

  /** Over every run, whatever is refused, cut short or repeated: the journal stays sound and the
      recorded size never shrinks in either dimension. */
  lemma {:induction false} RunsNeverShrink(s: State, spec: Machine, actions: seq<Action>)
    requires Sound(s, spec) && Possibles(s, spec, actions)
    ensures Sound(Acts(s, spec, actions), spec)
    ensures NoLarger(Running(s, spec), Running(Acts(s, spec, actions), spec))
    decreases |actions|
  {
    if actions != [] {
      ActKeepsSound(s, spec, actions[0]);
      RunsNeverShrink(Act(s, spec, actions[0]), spec, actions[1..]);
    }
  }

  /** Why the decided target matters: `Begin` alone only compares with a recorded size, so on a
      journal without one it accepts a target below the installed size, and finishing shrinks it. */
  lemma BeginAloneCanShrink()
    ensures var spec, small := Machine(8, 16384), Machine(2, 4096);
            var s := State(["a"], Fail, Fail);
            var begun := Apply(s, Begin(small));
            && begun.Ok? && Apply(begun.value, SlotDone("a")).Ok?
            && Apply(Apply(begun.value, SlotDone("a")).value, Finish).Ok?
            && !NoLarger(Running(s, spec), Running(Apply(Apply(begun.value, SlotDone("a")).value, Finish).value, spec))
            && Classify(s, spec, small).Fail?
  {
    var s := State(["a"], Fail, Fail);
    var done := Apply(Apply(s, Begin(Machine(2, 4096))).value, SlotDone("a")).value;
    assert done.resize.value.completed == ["a"];
  }

  /** Work on single servers between beginning and finishing. */
  predicate SlotWork(work: seq<Command>) {
    forall i :: 0 <= i < |work| ==> work[i].SlotStart? || work[i].SlotDone?
  }

  /** The journal after such work; refused commands change nothing. */
  function Worked(s: State, work: seq<Command>): State
    decreases |work|
  {
    if work == [] then s else Worked(if Apply(s, work[0]).Ok? then Apply(s, work[0]).value else s, work[1..])
  }

  lemma {:induction false} WorkKeepsTarget(s: State, work: seq<Command>)
    requires SlotWork(work) && s.resize.Ok?
    ensures var t := Worked(s, work);
            t.names == s.names && t.recorded == s.recorded && t.resize.Ok?
                && t.resize.value.target == s.resize.value.target
    decreases |work|
  {
    if work != [] {
      assert work[0].SlotStart? || work[0].SlotDone?;
      WorkKeepsTarget(if Apply(s, work[0]).Ok? then Apply(s, work[0]).value else s, work[1..]);
    }
  }

  function DoneFor(names: seq<string>): seq<Command> {
    seq(|names|, i requires 0 <= i < |names| => SlotDone(names[i]))
  }

  /** Marking servers as done one after the other completes all of them. */
  lemma {:induction false} DoneForAll(s: State, names: seq<string>)
    requires ValidNames(s.names) && s.resize.Ok? && s.resize.value.inProgress == ""
             && forall name :: name in names ==> name in s.names
    ensures var t := Worked(s, DoneFor(names));
            && t.resize.Ok? && t.resize.value.inProgress == ""
            && forall name :: name in names || name in s.resize.value.completed ==> name in t.resize.value.completed
    decreases |names|
  {
    if names != [] {
      var t := Apply(s, SlotDone(names[0])).value;
      assert names[0] in names && names[0] in t.resize.value.completed;
      assert names == [names[0]] + names[1..];
      DoneForAll(t, names[1..]);
      assert DoneFor(names)[1..] == DoneFor(names[1..]);
    }
  }

  /** Every sound journal with a begun resize has work that finishes it. */
  lemma WorkCanFinish(s: State, spec: Machine) returns (work: seq<Command>)
    requires ValidNames(s.names) && s.resize.Ok? && ReadableProgress(s, s.resize.value)
    ensures SlotWork(work) && Apply(Worked(s, work), Finish).Ok?
  {
    var p := s.resize.value;
    var first := if p.inProgress == "" then [] else [SlotDone(p.inProgress)];
    var t := if p.inProgress == "" then s else Apply(s, SlotDone(p.inProgress)).value;
    work := first + DoneFor(s.names);
    if p.inProgress == "" {
      assert work == DoneFor(s.names);
    } else {
      assert work[0] == SlotDone(p.inProgress) && work[1..] == DoneFor(s.names);
    }
    DoneForAll(t, s.names);
    WorkKeepsTarget(s, work);
    assert Worked(s, work) == Worked(t, DoneFor(s.names));
  }

  /** Whatever server work follows an accepted `Begin`, when the run finishes the recorded size is
      the target. So every finished run records a size no smaller than before exactly when the
      target itself is no smaller than what the servers run at. */
  lemma BeginNeverShrinksIff(s: State, spec: Machine, target: Machine)
    requires Sound(s, spec) && Apply(s, Begin(target)).Ok?
    ensures var begun := Apply(s, Begin(target)).value;
            (forall work: seq<Command> :: SlotWork(work) && Apply(Worked(begun, work), Finish).Ok? ==>
               NoLarger(Running(s, spec), Running(Apply(Worked(begun, work), Finish).value, spec)))
            <==> NoLarger(Running(s, spec), target)
  {
    var begun := Apply(s, Begin(target)).value;
    forall work: seq<Command> | SlotWork(work) && Apply(Worked(begun, work), Finish).Ok?
      ensures Running(Apply(Worked(begun, work), Finish).value, spec) == target
    {
      WorkKeepsTarget(begun, work);
    }
    var work := WorkCanFinish(begun, spec);
  }

  // ----- the in-order driver and its crash points -----

  /** The first `k` servers are done, in order, and at most the next one is in progress. */
  predicate PrefixDone(names: seq<string>, p: Progress, k: nat) {
    k <= |names| && p.completed == names[..k] && (p.inProgress == "" || (k < |names| && p.inProgress == names[k]))
  }

  /** What the driver for `target` may start from or leave behind at a crash. */
  ghost predicate Resumable(s: State, spec: Machine, target: Machine) {
    && ValidNames(s.names) && Distinct(s.names) && InBounds(target) && NoLarger(Running(s, spec), target)
    && (s.resize.Ok? && HasProgress(s.resize.value) ==>
          s.resize.value.target == target && exists k: nat :: PrefixDone(s.names, s.resize.value, k))
  }

  lemma {:induction false} WithoutHolds(names: seq<string>, completed: seq<string>, name: string)
    ensures name in Without(names, completed) <==> name in names && name !in completed
  {
    if names != [] {
      WithoutHolds(names[1..], completed, name);
      assert names == [names[0]] + names[1..];
    }
  }

  lemma PrefixHolds(names: seq<string>, k: nat, i: nat)
    requires Distinct(names) && k <= |names| && i < |names|
    ensures names[i] in names[..k] <==> i < k
  {
    if i < k { assert names[..k][i] == names[i]; }
  }

  lemma {:induction false} WithoutPrefix(names: seq<string>, k: nat, i: nat)
    requires Distinct(names) && k <= |names| && i <= |names|
    ensures Without(names[i..], names[..k]) == names[if i < k then k else i..]
    decreases |names| - i
  {
    if i < |names| {
      PrefixHolds(names, k, i);
      WithoutPrefix(names, k, i + 1);
      assert names[i..][1..] == names[i + 1..];
    }
  }

  /** How many servers the journal has as done. */
  function DoneCount(s: State): nat { if s.resize.Ok? then |s.resize.value.completed| else 0 }

  /** Resumable journals are decided without refusal, and the pending servers are exactly the
      ones after the completed prefix, in order. */
  lemma ResumableIsDecided(s: State, spec: Machine, target: Machine)
    requires Resumable(s, spec, target)
    ensures Classify(s, spec, target).Ok? && Classify(s, spec, target).value.target == target
            && DoneCount(s) <= |s.names|
    ensures var d := Classify(s, spec, target).value;
            && (d.needed ==> d.pending == s.names[DoneCount(s)..])
            && (!d.needed ==> Running(s, spec) == target && (s.resize.Ok? <==> d.stale))
  {
    WithoutPrefix(s.names, if s.resize.Ok? && HasProgress(s.resize.value) && DoneCount(s) <= |s.names|
        then DoneCount(s) else 0, 0);
    assert s.names[0..] == s.names && s.names[..0] == [];
    if s.resize.Ok? && HasProgress(s.resize.value) {
      var k: nat :| PrefixDone(s.names, s.resize.value, k);
      if k < |s.names| { PrefixHolds(s.names, k, k); }
      assert "" !in s.names[..k];
      assert ReadableProgress(s, s.resize.value);
    }
  }

  /** How far the journal has come once the driver has begun. */
  ghost predicate At(s: State, target: Machine, k: nat) {
    s.resize.Ok? && s.resize.value.target == target && PrefixDone(s.names, s.resize.value, k)
  }

  /** Begin from a resumable journal: nothing done so far is lost. */
  lemma BeginResumes(s: State, spec: Machine, target: Machine) returns (k: nat)
    requires Resumable(s, spec, target)
    ensures Apply(s, Begin(target)).Ok? && At(Apply(s, Begin(target)).value, target, k)
    ensures k == if s.resize.Ok? then |s.resize.value.completed| else 0
  {
    if s.resize.Ok? && HasProgress(s.resize.value) {
      k :| PrefixDone(s.names, s.resize.value, k);
    } else {
      k := 0;
    }
  }

  lemma StartAdvances(s: State, target: Machine, k: nat)
    requires ValidNames(s.names) && Distinct(s.names) && At(s, target, k) && k < |s.names|
    ensures Apply(s, SlotStart(s.names[k])).Ok? && At(Apply(s, SlotStart(s.names[k])).value, target, k)
  {
    PrefixHolds(s.names, k, k);
  }

  lemma DoneAdvances(s: State, target: Machine, k: nat)
    requires ValidNames(s.names) && Distinct(s.names) && At(s, target, k) && k < |s.names|
    ensures Apply(s, SlotDone(s.names[k])).Ok? && At(Apply(s, SlotDone(s.names[k])).value, target, k + 1)
    ensures Apply(s, SlotDone(s.names[k])).value.resize.value.inProgress == ""
  {
    PrefixHolds(s.names, k, k);
    assert s.names[..k + 1] == s.names[..k] + [s.names[k]];
  }

  lemma AllDoneFinishes(s: State, target: Machine)
    requires ValidNames(s.names) && At(s, target, |s.names|)
    ensures Apply(s, Finish) == Ok(s.(recorded := Ok(target), resize := Fail))
  {
    assert s.names[..|s.names|] == s.names;
  }

  lemma AtIsResumable(s: State, spec: Machine, target: Machine, k: nat)
    requires ValidNames(s.names) && Distinct(s.names) && InBounds(target) && NoLarger(Running(s, spec), target)
             && At(s, target, k)
    ensures Resumable(s, spec, target)
  {
  }

  /** The update playbook: decide, drop a stale record or begin, then start and finish each
      pending server in order, then record the size. It may crash after any number of journal
      writes. From any crash point of an earlier run the driver is never refused, and a run that
      is not cut short records the target. */
  method Drive(j: Journal, spec: Machine, target: Machine, writes: nat) returns (finished: bool)
    requires Resumable(j.Value(), spec, target)
    modifies j`recorded, j`resize
    ensures Resumable(j.Value(), spec, target)
    ensures finished ==> Running(j.Value(), spec) == target && j.resize.Fail?
    ensures writes >= 2 * |j.names| + 2 ==> finished
  {
    ResumableIsDecided(j.Value(), spec, target);
    var decision := Classify(j.Value(), spec, target).value;
    var left := writes;
    if left == 0 {
      return !decision.needed && j.resize.Fail?;
    }
    if !decision.needed {
      var cleared := j.Clear();
      return true;
    }
    ghost var start := BeginResumes(j.Value(), spec, target);
    var begun := j.Begin(target);
    left := left - 1;
    var at;
    at, left := DriveServers(j, spec, target, decision.pending, start, left);
    if !at || left == 0 {
      return false;
    }
    AllDoneFinishes(j.Value(), target);
    finished := j.Finish();
  }

  method DriveServers(j: Journal, spec: Machine, target: Machine, pending: seq<string>, ghost start: nat, writes: nat)
    returns (all: bool, left: nat)
    requires ValidNames(j.names) && Distinct(j.names) && InBounds(target) && NoLarger(Running(j.Value(), spec), target)
    requires At(j.Value(), target, start) && pending == Without(j.names, j.names[..start])
    modifies j`resize
    ensures Resumable(j.Value(), spec, target)
    ensures all ==> At(j.Value(), target, |j.names|) && left + 2 * |j.names| >= writes
    ensures writes >= 2 * |j.names| ==> all
  {
    left := writes;
    for i := 0 to |j.names|
      invariant At(j.Value(), target, if i < start then start else i)
      invariant left + 2 * i >= writes
    {
      AtIsResumable(j.Value(), spec, target, if i < start then start else i);
      WithoutHolds(j.names, j.names[..start], j.names[i]);
      PrefixHolds(j.names, start, i);
      if j.names[i] in pending {
        var settled: bool := *;
        if !settled {
          if left == 0 {
            return false, 0;
          }
          StartAdvances(j.Value(), target, i);
          var started := j.SlotStart(j.names[i]);
          left := left - 1;
          AtIsResumable(j.Value(), spec, target, i);
        }
        if left == 0 {
          return false, 0;
        }
        DoneAdvances(j.Value(), target, i);
        var done := j.SlotDone(j.names[i]);
        left := left - 1;
      }
    }
    all := true;
    AtIsResumable(j.Value(), spec, target, |j.names|);
  }

  /** Distinct names are needed: a repeated name is pending twice, and its second start is refused. */
  lemma RepeatedNameIsRefused()
    ensures var s := State(["a", "a"], Fail, Ok(Progress(Machine(4, 8192), "", [])));
            && Classify(s, Machine(2, 4096), Machine(4, 8192)).Ok?
            && Classify(s, Machine(2, 4096), Machine(4, 8192)).value.pending == ["a", "a"]
            && Apply(s, SlotStart("a")).Ok? && Apply(Apply(s, SlotStart("a")).value, SlotDone("a")).Ok?
            && Apply(Apply(Apply(s, SlotStart("a")).value, SlotDone("a")).value, SlotStart("a")).Fail?
  {
    var s := State(["a", "a"], Fail, Ok(Progress(Machine(4, 8192), "", [])));
    assert s.names[1..] == ["a"] && ["a"][1..] == [];
    var done := Apply(Apply(s, SlotStart("a")).value, SlotDone("a")).value;
    assert done.resize.value.completed == ["a"];
  }
}
