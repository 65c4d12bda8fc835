/** The cached device engine: a long-lived object whose `Init` creates the
    context, the accelerator and the compiled kernel once, whose
    `ComputeDistances` reuses them, and whose `Dispose` releases them. Its
    only guard is a public `IsInitialized` flag; the accelerator field is
    tracked separately because the two can disagree. */
module Session {
  import opened Distance
  import Gpu

  /** The exceptions the cached device engine throws. */
  datatype Error =
    | NoGpuFound          // no CUDA accelerator among the installed ones
    | NotInitialized      // used or disposed before Init
    | AlreadyInitialized  // Init called on an initialized engine
    | NoAccelerator       // the accelerator field was never assigned (a null dereference)
    | AcceleratorDisposed // the accelerator was used after it was disposed

  datatype Result<T> = Success(value: T) | Failure(error: Error)

  /** The accelerator field (with the context and kernel created beside it). */
  datatype Handle =
    | Absent    // never assigned: still null
    | Live      // created by a successful Init
    | Released  // disposed by Dispose; the field still refers to it

  /** The engine's observable state: the flag and the accelerator field. */
  datatype State = State(initialized: bool, accelerator: Handle)

  /** How a lifecycle call ends: normally, or by throwing. */
  datatype Status = Done | Thrown(error: Error)

  /** The new state and the outcome of one lifecycle call. */
  datatype Step = Step(next: State, status: Status)

  /** A newly constructed engine. */
  function Fresh(): State
  {
    State(false, Absent)
  }

  /** `Init`: refused when the flag is set; otherwise the flag is set
      before the device search, so it stays set when no CUDA device is
      found, and only a found device replaces the accelerator. */
  function InitStep(s: State, cudaDevice: bool): Step
  {
    if s.initialized then Step(s, Thrown(AlreadyInitialized))
    else if cudaDevice then Step(State(true, Live), Done)
    else Step(State(true, s.accelerator), Thrown(NoGpuFound))
  }

  /** `Dispose`: refused when the flag is clear; otherwise the flag is
      cleared first, then the accelerator is disposed, which dereferences
      null when it was never created. Disposing an already disposed
      accelerator does nothing. */
  function DisposeStep(s: State): Step
  {
    if !s.initialized then Step(s, Thrown(NotInitialized))
    else if s.accelerator.Absent? then Step(State(false, Absent), Thrown(NoAccelerator))
    else Step(State(false, Released), Done)
  }

  /** `ComputeDistances` never changes the state; it is refused when the
      flag is clear and fails when the accelerator is not live. */
  function ComputeStatus(s: State): Status
  {
    if !s.initialized then Thrown(NotInitialized)
    else match s.accelerator
      case Absent => Thrown(NoAccelerator)
      case Released => Thrown(AcceleratorDisposed)
      case Live => Done
  }

  /** A call an owner can make on the engine. */
  datatype Call = InitCall(cudaDevice: bool) | DisposeCall | ComputeCall

  /** The state after a sequence of calls, each taking effect even when it throws. */
  function Run(s: State, calls: seq<Call>): State
    decreases |calls|
  {
    if |calls| == 0 then s
    else
      var s' := match calls[0]
        case InitCall(device) => InitStep(s, device).next
        case DisposeCall => DisposeStep(s).next
        case ComputeCall => s;
      Run(s', calls[1..])
  }

  /** A live accelerator is always covered by the flag, so `Dispose` will
      accept it: no sequence of calls leaks a live accelerator. */
  predicate NoLeak(s: State)
  {
    s.accelerator.Live? ==> s.initialized
  }

  lemma {:induction false} RunKeepsNoLeak(s: State, calls: seq<Call>)
    requires NoLeak(s)
    ensures NoLeak(Run(s, calls))
    decreases |calls|
  {
    if |calls| > 0 {
      var s' := match calls[0]
        case InitCall(device) => InitStep(s, device).next
        case DisposeCall => DisposeStep(s).next
        case ComputeCall => s;
      RunKeepsNoLeak(s', calls[1..]);
    }
  }

  /** No engine reachable from construction leaks a live accelerator. */
  lemma ReachableStates(calls: seq<Call>)
    ensures NoLeak(Run(Fresh(), calls))
  {
    RunKeepsNoLeak(Fresh(), calls);
  }

  /** `ComputeDistances` never changes the state, however often it is called. */
  lemma {:induction false} RunComputes(s: State, calls: seq<Call>)
    requires forall i :: 0 <= i < |calls| ==> calls[i] == ComputeCall
    ensures Run(s, calls) == s
    decreases |calls|
  {
    if |calls| > 0 {
      RunComputes(s, calls[1..]);
    }
  }

  /** The benchmark driver's use of the engine: `Init` with a CUDA device,
      any number of `ComputeDistances` calls, then `Dispose`. Every call
      returns normally, and the engine ends uninitialized. */
  lemma DriverUsage(calls: seq<Call>)
    requires forall i :: 0 <= i < |calls| ==> calls[i] == ComputeCall
    ensures InitStep(Fresh(), true).status == Done
    ensures Run(Fresh(), [InitCall(true)] + calls) == State(true, Live)
    ensures ComputeStatus(Run(Fresh(), [InitCall(true)] + calls)) == Done
    ensures DisposeStep(Run(Fresh(), [InitCall(true)] + calls)) == Step(State(false, Released), Done)
  {
    var all := [InitCall(true)] + calls;
    assert all[0] == InitCall(true) && all[1..] == calls;
    RunComputes(State(true, Live), calls);
  }

  /** The guarded transitions. */
  lemma LifecycleGuards(s: State, cudaDevice: bool)
    ensures s.initialized ==> InitStep(s, cudaDevice) == Step(s, Thrown(AlreadyInitialized))
    ensures !s.initialized ==> DisposeStep(s) == Step(s, Thrown(NotInitialized))
    ensures !s.initialized ==> ComputeStatus(s) == Thrown(NotInitialized)
    ensures ComputeStatus(s) == Done <==> s == State(true, Live)
    ensures ComputeStatus(InitStep(Fresh(), true).next) == Done
    ensures DisposeStep(DisposeStep(InitStep(Fresh(), true).next).next).status == Thrown(NotInitialized)
  {
  }

  /** Unlike a one-way Uninitialized, Ready, Disposed machine: a failed
      `Init` leaves the flag set, so a later `Init` is refused and
      `ComputeDistances` passes the guard and dereferences null; and a
      disposed engine can be initialized again. */
  lemma LifecycleAsWritten()
    ensures InitStep(Fresh(), false) == Step(State(true, Absent), Thrown(NoGpuFound))
    ensures InitStep(InitStep(Fresh(), false).next, true).status == Thrown(AlreadyInitialized)
    ensures ComputeStatus(InitStep(Fresh(), false).next) == Thrown(NoAccelerator)
    ensures Run(Fresh(), [InitCall(true), DisposeCall, InitCall(true)]) == State(true, Live)
    ensures Run(Fresh(), [InitCall(true), DisposeCall, InitCall(false)]) == State(true, Released)
  {
    var r := Run(Fresh(), [InitCall(true), DisposeCall, InitCall(true)]);
    assert Run(State(true, Live), [DisposeCall, InitCall(true)]) == Run(State(false, Released), [InitCall(true)]);
    assert Run(State(true, Live), [DisposeCall, InitCall(false)]) == Run(State(false, Released), [InitCall(false)]);
  }

  /** The cached engine object. */
  class CachedGpuEngine {
    var isInitialized: bool
    var accelerator: Handle

    function Current(): State
      reads this
    {
      State(isInitialized, accelerator)
    }

    constructor ()
      ensures Current() == Fresh()
    {
      isInitialized := false;
      accelerator := Absent;
    }

    method Dispose() returns (status: Status)
      modifies this
      ensures Step(Current(), status) == DisposeStep(old(Current()))
    {
      if !isInitialized {
        return Thrown(NotInitialized);
      }
      isInitialized := false;
      if accelerator.Absent? {
        return Thrown(NoAccelerator);
      }
      accelerator := Released;
      status := Done;
    }

    /** `cudaDevice` stands for the search over the installed accelerators. */
    method Init(cudaDevice: bool) returns (status: Status)
      modifies this
      ensures Step(Current(), status) == InitStep(old(Current()), cudaDevice)
    {
      if isInitialized {
        return Thrown(AlreadyInitialized);
      }
      isInitialized := true;
      if cudaDevice {
        accelerator := Live;
        return Done;
      }
      status := Thrown(NoGpuFound);
    }

    /** The guard, the host-side transposition, then the device work on the
        cached accelerator. */
    method ComputeDistances(ds: seq<seq<real>>) returns (r: Result<array2<Value>>)
      requires |ds| >= 1 && Gpu.RowsCover(ds, |ds[0]|)
      ensures r.Failure? <==> ComputeStatus(Current()).Thrown?
      ensures r.Failure? ==> r.error == ComputeStatus(Current()).error
      ensures r.Success? ==> fresh(r.value) && r.value.Length0 == |ds| && r.value.Length1 == |ds|
      ensures r.Success? ==> forall x, y :: 0 <= x < |ds| && 0 <= y < |ds| ==> r.value[x, y] == Gpu.GpuCell(ds, x, y)
    {
      if !isInitialized {
        return Failure(NotInitialized);
      }
      var flat := Gpu.Transpose(ds, |ds[0]|);
      match accelerator
      case Absent =>
        r := Failure(NoAccelerator);
      case Released =>
        r := Failure(AcceleratorDisposed);
      case Live =>
        var d := Gpu.Offload(ds, flat);
        r := Success(d);
    }
  }
}
