/** Growing one control-plane VM: graceful stop, size change while stopped, start. The cloud
    answers whatever it likes; the driver acts only on what it last read. */
module ResizeDriver {
  import opened Outcomes

  datatype Status = Running | Stopped | Starting | Stopping | Deleted | Other

  datatype VM = VM(status: Status, vcpu: int, memory: int, address: string)

  datatype Verb = Stop | Start {
    function From(): Status { if this == Stop then Running else Stopped }
    function Want(): Status { if this == Stop then Stopped else Running }
  }

  /** What the driver did and saw, in order; times are seconds. */
  datatype Step =
    | Saw(vm: VM)
    | ReadFailed
    | Sent(verb: Verb, at: int)
    | Patched(vcpu: int, memory: int)

  datatype Reply = Answer(vm: VM) | Transient | Fatal

  datatype Request = Request(vcpu: int, memory: int, address: string)

  predicate AtTarget(vm: VM, request: Request) {
    vm.vcpu == request.vcpu && vm.memory == request.memory
  }

  /** Only a stopped VM may omit its address. */
  predicate AddressFits(vm: VM, request: Request) {
    vm.address == request.address || (vm.address == "" && vm.status == Stopped)
  }

  /** A power request directly follows a read of its source state, a size change a read of stopped. */
  ghost predicate Behaved(trace: seq<Step>, lo: nat, i: nat)
    requires lo <= i < |trace|
  {
    match trace[i]
    case Sent(verb, _) => lo < i && trace[i - 1].Saw? && trace[i - 1].vm.status == verb.From()
    case Patched(_, _) => lo < i && trace[i - 1].Saw? && trace[i - 1].vm.status == Stopped
    case _ => true
  }

  ghost predicate AllBehaved(trace: seq<Step>, lo: nat) {
    forall i: nat :: lo <= i < |trace| ==> Behaved(trace, lo, i)
  }

  /** Repeats of one power request are at least the resend interval apart. */
  ghost predicate Spaced(trace: seq<Step>, lo: nat, resend: int) {
    forall i: nat, j: nat :: lo <= i < j < |trace| && trace[i].Sent? && trace[j].Sent?
                             && trace[i].verb == trace[j].verb ==>
      trace[i].at + resend <= trace[j].at
  }

  /** Since `lo`, only reads and requests of the given verbs happened. */
  ghost predicate OnlySends(trace: seq<Step>, lo: nat, verbs: set<Verb>) {
    forall i: nat :: lo <= i < |trace| ==> !trace[i].Patched? && (trace[i].Sent? ==> trace[i].verb in verbs)
  }

  /** A well-behaved part of the trace whose power requests are of the given verbs. */
  ghost predicate Good(trace: seq<Step>, lo: nat, resend: int, verbs: set<Verb>) {
    && lo <= |trace| && AllBehaved(trace, lo) && Spaced(trace, lo, resend)
    && forall i: nat :: lo <= i < |trace| && trace[i].Sent? ==> trace[i].verb in verbs
  }

  lemma GoodThen(a: seq<Step>, b: seq<Step>, lo: nat, resend: int, s: set<Verb>, t: set<Verb>)
    requires a <= b && Good(a, lo, resend, s) && Good(b, |a|, resend, t) && s !! t
    ensures Good(b, lo, resend, s + t)
  {
    forall i: nat | lo <= i < |b| ensures Behaved(b, lo, i) && (b[i].Sent? ==> b[i].verb in s + t) {
      if i < |a| {
        assert Behaved(a, lo, i) && b[i] == a[i] && (lo < i ==> b[i - 1] == a[i - 1]);
      } else {
        assert Behaved(b, |a|, i);
      }
    }
    forall i: nat, j: nat | lo <= i < |a| <= j < |b| && b[i].Sent? && b[j].Sent? ensures b[i].verb != b[j].verb {
      assert a[i] == b[i];
    }
    forall i: nat, j: nat | lo <= i < j < |b| && b[i].Sent? && b[j].Sent? && b[i].verb == b[j].verb
      ensures b[i].at + resend <= b[j].at
    {
      if j < |a| {
        assert b[i] == a[i] && b[j] == a[j];
      }
    }
  }

  /** The part of the trace that one power wait has produced; `sentAt` is its latest request. */
  ghost predicate Waiting(trace: seq<Step>, lo: nat, verb: Verb, resend: int, sentAt: Outcome<int>) {
    && lo <= |trace| && AllBehaved(trace, lo) && Spaced(trace, lo, resend) && OnlySends(trace, lo, {verb})
    && forall i: nat :: lo <= i < |trace| && trace[i].Sent? ==> sentAt.Ok? && trace[i].at <= sentAt.value
  }

  lemma ReadKeepsWaiting(trace: seq<Step>, step: Step, lo: nat, verb: Verb, resend: int, sentAt: Outcome<int>)
    requires Waiting(trace, lo, verb, resend, sentAt) && (step.Saw? || step.ReadFailed?)
    ensures Waiting(trace + [step], lo, verb, resend, sentAt)
  {
    forall i: nat | lo <= i < |trace + [step]| ensures Behaved(trace + [step], lo, i) {
      if i < |trace| { assert Behaved(trace, lo, i); }
    }
  }

  lemma SendKeepsWaiting(trace: seq<Step>, at: int, lo: nat, verb: Verb, resend: int, sentAt: Outcome<int>)
    requires Waiting(trace, lo, verb, resend, sentAt) && lo < |trace| && 0 < resend
    requires trace[|trace| - 1].Saw? && trace[|trace| - 1].vm.status == verb.From()
    requires sentAt.Ok? ==> sentAt.value + resend <= at
    ensures Waiting(trace + [Sent(verb, at)], lo, verb, resend, Ok(at))
  {
    forall i: nat | lo <= i < |trace| + 1 ensures Behaved(trace + [Sent(verb, at)], lo, i) {
      if i < |trace| { assert Behaved(trace, lo, i); }
    }
  }

  class Resizer {
    const poll: int
    const resend: int
    const stopTimeout: int
    const startTimeout: int
    const addressTimeout: int
    var clock: int
    var trace: seq<Step>

    /** A value that is not positive means the default. */
    constructor (poll: int, resend: int, stopTimeout: int, startTimeout: int, addressTimeout: int)
      ensures trace == [] && 0 < this.poll && 0 < this.resend
    {
      this.poll := if poll <= 0 then 5 else poll;
      this.resend := if resend <= 0 then 180 else resend;
      this.stopTimeout := if stopTimeout <= 0 then 900 else stopTimeout;
      this.startTimeout := if startTimeout <= 0 then 900 else startTimeout;
      this.addressTimeout := if addressTimeout <= 0 then 120 else addressTimeout;
      clock, trace := 0, [];
    }

    /** Any call takes any time. */
    method Pass()
      modifies this`clock
      ensures old(clock) <= clock
    {
      var elapsed :| 0 <= elapsed;
      clock := clock + elapsed;
    }

    method GetVM() returns (r: Reply)
      modifies this`clock, this`trace
      ensures old(clock) <= clock
      ensures trace == old(trace) + [if r.Answer? then Saw(r.vm) else ReadFailed]
    {
      r := *;
      trace := trace + [if r.Answer? then Saw(r.vm) else ReadFailed];
      Pass();
    }

    /** Wait one poll interval; false once the deadline has passed or the run was cancelled. */
    method Sleep(deadline: int) returns (more: bool)
      requires 0 < poll
      modifies this`clock
      ensures old(clock) <= clock && (more ==> old(clock) < deadline && old(clock) + poll <= clock)
    {
      var cancelled: bool := *;
      more := clock < deadline && !cancelled;
      if more {
        clock := clock + poll;
      }
      Pass();
    }

    /** Send the request once when the VM sits in the source state, resend only after the grace
        period, and otherwise poll. */
    method PowerAndWait(verb: Verb, timeout: int) returns (r: Outcome<VM>)
      requires 0 < poll && 0 < resend
      modifies this`clock, this`trace
      ensures old(clock) <= clock && old(trace) <= trace
      ensures AllBehaved(trace, |old(trace)|) && Spaced(trace, |old(trace)|, resend)
              && OnlySends(trace, |old(trace)|, {verb})
      ensures r.Ok? ==> r.value.status == verb.Want() && |old(trace)| < |trace| && trace[|trace| - 1] == Saw(r.value)
    {
      var deadline := clock + timeout;
      var sentAt: Outcome<int> := Fail;
      ghost var lo := |trace|;
      while true
        invariant old(clock) <= clock && old(trace) <= trace && Waiting(trace, lo, verb, resend, sentAt)
        decreases deadline - clock
      {
        ghost var before := trace;
        var reply := GetVM();
        ReadKeepsWaiting(before, trace[|before|], lo, verb, resend, sentAt);
        if reply.Fatal? {
          return Fail;
        }
        if reply.Answer? && reply.vm.status == verb.Want() {
          return Ok(reply.vm);
        }
        if reply.Answer? && reply.vm.status == verb.From() && (sentAt.Fail? || clock - sentAt.value >= resend) {
          SendKeepsWaiting(trace, clock, lo, verb, resend, sentAt);
          sentAt := Ok(clock);
          trace := trace + [Sent(verb, clock)];
          Pass();
          var refused: bool := *;   // an error that is neither transient nor a state conflict
          if refused {
            return Fail;
          }
        }
        var more := Sleep(deadline);
        if !more {
          return Fail;
        }
      }
      return Fail;
    }

    /** Poll for a status; never sends anything. */
    method WaitStatus(want: Status, timeout: int) returns (r: Outcome<VM>)
      requires 0 < poll
      modifies this`clock, this`trace
      ensures old(trace) <= trace && OnlySends(trace, |old(trace)|, {})
      ensures r.Ok? ==> r.value.status == want && |old(trace)| < |trace| && trace[|trace| - 1] == Saw(r.value)
    {
      var deadline := clock + timeout;
      while true
        invariant old(trace) <= trace && OnlySends(trace, |old(trace)|, {})
        decreases deadline - clock
      {
        var reply := GetVM();
        if reply.Fatal? {
          return Fail;
        }
        if reply.Answer? && reply.vm.status == want {
          return Ok(reply.vm);
        }
        var more := Sleep(deadline);
        if !more {
          return Fail;
        }
      }
      return Fail;
    }

    /** Poll until a started VM reports its address. */
    method WaitForAddress(vm: VM) returns (r: Outcome<VM>)
      requires 0 < poll && 0 < |trace| && trace[|trace| - 1] == Saw(vm)
      modifies this`clock, this`trace
      ensures old(trace) <= trace && OnlySends(trace, |old(trace)|, {})
      ensures r.Ok? ==> r.value.address != "" && trace[|trace| - 1] == Saw(r.value)
    {
      if vm.address != "" {
        return Ok(vm);
      }
      var deadline := clock + addressTimeout;
      var more := Sleep(deadline);
      while more
        invariant old(trace) <= trace && OnlySends(trace, |old(trace)|, {})
        decreases more, deadline - clock
      {
        var reply := GetVM();
        if reply.Fatal? {
          return Fail;
        }
        if reply.Answer? && reply.vm.address != "" {
          return Ok(reply.vm);
        }
        more := Sleep(deadline);
      }
      return Fail;
    }

    /** Prove that this is the journaled VM and that the request does not shrink it. */
    method Inspect(request: Request) returns (r: Outcome<VM>)
      modifies this`clock, this`trace
      ensures trace == old(trace) || (|trace| == |old(trace)| + 1 && old(trace) <= trace
              && (trace[|old(trace)|].Saw? || trace[|old(trace)|].ReadFailed?))
      ensures r.Ok? ==>
                trace == old(trace) + [Saw(r.value)] && r.value.vcpu <= request.vcpu && r.value.memory <= request.memory
                        && AddressFits(r.value, request)
    {
      var listed: bool, owned: bool := *, *;
      if request.vcpu <= 0 || request.memory <= 0 || !listed {
        return Fail;
      }
      var reply := GetVM();
      if !reply.Answer? || reply.vm.status == Deleted || !owned || !AddressFits(reply.vm, request) {
        return Fail;
      }
      if reply.vm.vcpu > request.vcpu || reply.vm.memory > request.memory {
        return Fail;
      }
      return Ok(reply.vm);
    }

    /** Change the size of the stopped VM; the read-back decides, and only when that read failed
        a matching echo counts. */
    method ApplyCompute(vm: VM, request: Request) returns (r: Outcome<VM>)
      requires 0 < |trace| && trace[|trace| - 1] == Saw(vm) && vm.status == Stopped
      modifies this`clock, this`trace
      ensures |trace| == |old(trace)| + 2 && old(trace) <= trace
              && trace[|old(trace)|] == Patched(request.vcpu, request.memory)
      ensures var last := trace[|trace| - 1]; last.Saw? || last.ReadFailed?
      ensures r.Ok? ==> AtTarget(r.value, request)
      ensures r.Ok? && trace[|trace| - 1].Saw? ==> trace[|trace| - 1] == Saw(r.value)
    {
      trace := trace + [Patched(request.vcpu, request.memory)];
      Pass();
      var echo: Outcome<VM> := *;
      var reply := GetVM();
      if reply.Answer? {
        return if AtTarget(reply.vm, request) then Ok(reply.vm) else Fail;
      }
      return if echo.Ok? && AtTarget(echo.value, request) then echo else Fail;
    }

    /** Bring the inspected VM to running without ever stopping it. */
    method Settle(inspected: VM) returns (vm: Outcome<VM>)
      requires 0 < poll && 0 < resend && 0 < |trace| && trace[|trace| - 1] == Saw(inspected)
      modifies this`clock, this`trace
      ensures old(trace) <= trace && Good(trace, |old(trace)|, resend, {Start})
              && OnlySends(trace, |old(trace)|, {Start})
      ensures vm.Ok? ==> trace[|trace| - 1] == Saw(vm.value) && vm.value.status == Running
    {
      ghost var lo := |trace|;
      vm := Ok(inspected);
      if inspected.status == Starting {
        vm := WaitStatus(Running, startTimeout);
        return;
      }
      if inspected.status == Stopping {
        vm := WaitStatus(Stopped, stopTimeout);
      }
      if vm.Fail? || vm.value.status != Stopped {
        return Fail;
      }
      ghost var a := trace;
      vm := PowerAndWait(Start, startTimeout);
      GoodThen(a, trace, lo, resend, {}, {Start});
    }

    /** Power on a VM that a resize left stopped, and nothing else: no stop and no size change. */
    method StartOnly(request: Request) returns (r: Outcome<VM>)
      requires 0 < poll && 0 < resend
      modifies this`clock, this`trace
      ensures old(trace) <= trace && Good(trace, |old(trace)|, resend, {Start})
              && OnlySends(trace, |old(trace)|, {Start})
      ensures r.Ok? ==> |old(trace)| < |trace| && trace[|trace| - 1] == Saw(r.value) && AddressFits(r.value, request)
    {
      ghost var lo := |trace|;
      var vm := Inspect(request);
      if vm.Fail? || vm.value.status == Running {
        return vm;
      }
      ghost var a := trace;
      vm := Settle(vm.value);
      GoodThen(a, trace, lo, resend, {}, {Start});
      if vm.Fail? {
        return Fail;
      }
      ghost var b := trace;
      vm := WaitForAddress(vm.value);
      GoodThen(b, trace, lo, resend, {Start}, {});
      return if vm.Ok? && AddressFits(vm.value, request) then vm else Fail;
    }

    /** Bring the inspected VM to stopped: wait out a start, stop a running VM of another size,
        and leave a running VM of the right size alone. */
    method Halt(inspected: VM, request: Request) returns (vm: Outcome<VM>)
      requires 0 < poll && 0 < resend && 0 < |trace| && trace[|trace| - 1] == Saw(inspected)
      modifies this`clock, this`trace
      ensures old(trace) <= trace && Good(trace, |old(trace)|, resend, {Stop}) && OnlySends(trace, |old(trace)|, {Stop})
      ensures vm.Ok? ==> trace[|trace| - 1] == Saw(vm.value)
      ensures vm.Ok? ==> vm.value.status == Stopped || (vm.value.status == Running && AtTarget(vm.value, request))
    {
      ghost var lo := |trace|;
      vm := Ok(inspected);
      if inspected.status == Starting {
        vm := WaitStatus(Running, startTimeout);
        if vm.Fail? {
          return Fail;
        }
      }
      ghost var a := trace;
      if (!AtTarget(vm.value, request) && vm.value.status == Running) || vm.value.status == Stopping {
        vm := PowerAndWait(Stop, stopTimeout);
        GoodThen(a, trace, lo, resend, {}, {Stop});
        if vm.Fail? {
          return Fail;
        }
      }
      if vm.value.status == Stopped || (vm.value.status == Running && AtTarget(vm.value, request)) {
        return vm;
      }
      return Fail;
    }

    /** Start the VM, wait for its address, and require the journaled address and target size. */
    method BringUp(request: Request) returns (r: Outcome<VM>)
      requires 0 < poll && 0 < resend
      modifies this`clock, this`trace
      ensures old(trace) <= trace && Good(trace, |old(trace)|, resend, {Start})
              && OnlySends(trace, |old(trace)|, {Start})
      ensures r.Ok? ==> |trace| > 0 && trace[|trace| - 1] == Saw(r.value) && AtTarget(r.value, request)
                        && r.value.address == request.address
    {
      ghost var lo := |trace|;
      var vm := PowerAndWait(Start, startTimeout);
      if vm.Fail? {
        return Fail;
      }
      ghost var a := trace;
      vm := WaitForAddress(vm.value);
      GoodThen(a, trace, lo, resend, {Start}, {});
      if vm.Fail? || !AddressFits(vm.value, request) || !AtTarget(vm.value, request) {
        return Fail;
      }
      return vm;
    }

    /** Change the size of the stopped VM if needed, then start it; a failed change starts it again
        at its current size. */
    method Grow(vm: VM, request: Request, ghost lo: nat) returns (r: Outcome<VM>)
      requires 0 < poll && 0 < resend && lo < |trace| && trace[|trace| - 1] == Saw(vm) && vm.status == Stopped
      requires Good(trace, lo, resend, {Stop})
      modifies this`clock, this`trace
      ensures old(trace) <= trace && Good(trace, lo, resend, {Stop, Start})
      ensures forall i: nat :: |old(trace)| <= i < |trace| && trace[i].Patched? ==>
                i == |old(trace)| && trace[i] == Patched(request.vcpu, request.memory)
      ensures r.Ok? ==>
                trace[|trace| - 1] == Saw(r.value) && AtTarget(r.value, request) && r.value.address == request.address
    {
      var failed := false;
      ghost var b := trace;
      if !AtTarget(vm, request) {
        var grown := ApplyCompute(vm, request);
        failed := grown.Fail?;
        PatchIsGood(b, trace, lo, resend, request);
      }
      ghost var c := trace;
      if failed {
        var _ := PowerAndWait(Start, startTimeout);
        r := Fail;
      } else {
        r := BringUp(request);
      }
      GoodThen(c, trace, lo, resend, {Stop}, {Start});
      assert forall i: nat :: |c| <= i < |trace| ==> !trace[i].Patched?;
    }

    /** The size changes of a run: at most one, to the requested size, and never below the size
        that the run's first read showed. */
    ghost predicate PatchesFit(lo: nat, request: Request)
      reads this`trace
    {
      && (forall i: nat :: lo <= i < |trace| && trace[i].Patched? ==>
            trace[i] == Patched(request.vcpu, request.memory)
            && trace[lo].Saw? && trace[lo].vm.vcpu <= request.vcpu && trace[lo].vm.memory <= request.memory)
      && (forall i: nat, j: nat :: lo <= i < j < |trace| ==> !(trace[i].Patched? && trace[j].Patched?))
    }

    /** For every cloud behaviour: the size change directly follows a read of stopped and never
        goes below the inspected size, stop directly follows a read of running, start a read of
        stopped, and repeats of one request are at least the resend interval apart. Success means
        the last read showed the target size and the journaled address. */
    method Resize(request: Request) returns (r: Outcome<VM>)
      requires 0 < poll && 0 < resend
      modifies this`clock, this`trace
      ensures old(trace) <= trace && Good(trace, |old(trace)|, resend, {Stop, Start})
              && PatchesFit(|old(trace)|, request)
      ensures r.Ok? ==> |old(trace)| < |trace| && trace[|trace| - 1] == Saw(r.value) && AtTarget(r.value, request)
                        && r.value.address == request.address
    {
      ghost var lo := |trace|;
      var inspected := Inspect(request);
      if inspected.Fail? {
        return Fail;
      }
      ghost var a := trace;
      var vm := Halt(inspected.value, request);
      GoodThen(a, trace, lo, resend, {}, {Stop});
      assert forall i: nat :: lo <= i < |trace| ==> !trace[i].Patched?;
      if vm.Fail? {
        return Fail;
      }
      if vm.value.status == Running {
        return if AddressFits(vm.value, request) then vm else Fail;
      }
      ghost var b := trace;
      r := Grow(vm.value, request, lo);
      assert forall i: nat :: lo <= i < |b| ==> trace[i] == b[i];
    }
  }

  lemma PatchIsGood(a: seq<Step>, b: seq<Step>, lo: nat, resend: int, request: Request)
    requires lo < |a| && Good(a, lo, resend, {Stop}) && a[|a| - 1].Saw? && a[|a| - 1].vm.status == Stopped
    requires a <= b && |b| == |a| + 2 && b[|a|] == Patched(request.vcpu, request.memory)
             && (b[|a| + 1].Saw? || b[|a| + 1].ReadFailed?)
    ensures Good(b, lo, resend, {Stop})
  {
    forall i: nat | lo <= i < |b| ensures Behaved(b, lo, i) {
      if i < |a| { assert Behaved(a, lo, i); }
    }
  }
}
