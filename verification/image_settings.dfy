/** Image settings of the deconvolution library
    (`deconvolve/cpp/src/image_settings.hpp`, `image_settings.cpp`):
    a version id that is bumped whenever new FFTW handlers are installed,
    the choice between user handlers and the built-in FFTW planner, and the
    process-wide "FFTW initialised" flag. Plans are opaque handles; the
    FFTW library itself is a parameter. */
module FftwSettings {
  import opened Wrappers

  /** The dimensions handed to a planner (the data pointer is not modelled). */
  datatype PlanRequest = PlanRequest(n0: int, n1: int, n2: int)

  /** An FFTW plan; `Null` is FFTW's NULL plan. */
  datatype Plan = Null | Handle(id: nat)

  /** A plan-creating handler: an empty `std::function` or a user function. */
  datatype Planner = NoPlanner | UserPlanner(make: PlanRequest -> Plan)

  /** A plan-destroying handler: empty, or a user function (whose effect is
      recorded by the plan it receives). */
  datatype Destroyer = NoDestroyer | UserDestroyer(tag: nat)

  /** Why a default-path FFTW call fails. */
  datatype FftwError =
    | ThreadsInitFailed   // fftw_init_threads() returned 0 (threaded builds)
    | PlanAllocFailed     // the built-in planner returned NULL

  /** What destroying a plan amounts to. */
  datatype Cleared = ByUser(tag: nat, plan: Plan) | ByFftw(plan: Plan) | Ignored

  // -------------------------------------------------------------- fftw_init

  /** The flag after `fftw_init`, or the error it throws. `threadsFail` says
      whether `fftw_init_threads()` would fail; it is false in builds
      without FFTW threads. */
  function InitOutcome(initialized: bool, threadsFail: bool): (r: Result<bool, FftwError>)
    ensures initialized ==> r == Success(true)
    ensures !initialized ==> (r.Failure? <==> threadsFail)
    ensures r.Success? ==> r.value
  {
    if initialized then Success(true)
    else if threadsFail then Failure(ThreadsInitFailed)
    else Success(true)
  }

  /** `fftw_init` is idempotent: once it has succeeded, a second call
      succeeds and leaves the flag set, whatever the threads library does. */
  lemma InitIdempotent(initialized: bool, threadsFail: bool, again: bool)
    requires InitOutcome(initialized, threadsFail).Success?
    ensures InitOutcome(InitOutcome(initialized, threadsFail).value, again) == Success(true)
  {
  }

  /** The process-wide FFTW state guarded by the library's mutex. */
  class FftwState {
    var initialized: bool

    constructor ()
      ensures !initialized
    {
      initialized := false;
    }

    /** `fftw_init`: return at once when already initialised. */
    method Init(threadsFail: bool) returns (r: Result<bool, FftwError>)
      modifies this
      ensures r == InitOutcome(old(initialized), threadsFail)
      ensures initialized == (old(initialized) || r.Success?)
    {
      if initialized {
        return Success(true);
      }
      if threadsFail {
        return Failure(ThreadsInitFailed);
      }
      initialized := true;
      r := Success(true);
    }
  }

  // ------------------------------------------------------- plan selection

  /** The plan `fftw_forward_plan`/`fftw_inverse_plan` return: the user
      handler's plan when one is installed (NULL passes through unchecked);
      otherwise, after `fftw_init`, the built-in planner's plan, where NULL
      is an allocation error. */
  function PlanOutcome(h: Planner, req: PlanRequest, builtin: PlanRequest -> Plan,
                       initialized: bool, threadsFail: bool): (r: Result<Plan, FftwError>)
    ensures h.UserPlanner? ==> r == Success(h.make(req))
    ensures h.NoPlanner? && r.Success? ==> r.value == builtin(req)
    ensures h.NoPlanner? ==>
              (r.Failure? <==> InitOutcome(initialized, threadsFail).Failure? || builtin(req) == Null)
  {
    match h
    case UserPlanner(make) => Success(make(req))
    case NoPlanner =>
      var init := InitOutcome(initialized, threadsFail);
      if init.Failure? then Failure(init.error)
      else
        var p := builtin(req);
        if p == Null then Failure(PlanAllocFailed) else Success(p)
  }

  /** Only a user handler can hand out a NULL plan: the built-in path turns
      it into an error. */
  lemma NullPlanOnlyFromUser(h: Planner, req: PlanRequest, builtin: PlanRequest -> Plan,
                             initialized: bool, threadsFail: bool)
    requires PlanOutcome(h, req, builtin, initialized, threadsFail) == Success(Null)
    ensures h.UserPlanner? && h.make(req) == Null
  {
  }

  /** `fftw_clear_plan`: the user handler receives every plan, NULL included;
      the built-in path destroys only non-NULL plans. */
  function ClearOutcome(h: Destroyer, p: Plan): (c: Cleared)
    ensures h.UserDestroyer? ==> c == ByUser(h.tag, p)
    ensures h.NoDestroyer? ==> (c == Ignored <==> p == Null)
    ensures c.ByFftw? ==> c.plan == p && p != Null
  {
    match h
    case UserDestroyer(tag) => ByUser(tag, p)
    case NoDestroyer => if p == Null then Ignored else ByFftw(p)
  }

  // --------------------------------------------------------- ImageSettings

  /** `ImageSettings`: the version id and the three handlers. Handlers can
      only change by building new settings from old ones. */
  class ImageSettings {
    var id: nat
    var forward: Planner
    var inverse: Planner
    var destroy: Destroyer

    /** The default constructor: id 0 and no user handlers. */
    constructor ()
      ensures id == 0
      ensures forward == NoPlanner && inverse == NoPlanner && destroy == NoDestroyer
    {
      id := 0;
      forward, inverse, destroy := NoPlanner, NoPlanner, NoDestroyer;
    }

    /** The handler constructor: id one above the old settings, all three
        handlers replaced. */
    constructor WithHandlers(base: ImageSettings, f: Planner, i: Planner, d: Destroyer)
      ensures id == base.id + 1
      ensures forward == f && inverse == i && destroy == d
    {
      id := base.id + 1;
      forward, inverse, destroy := f, i, d;
    }

    /** The protected copy constructor: handlers copied, id bumped only when
        asked. */
    constructor Copy(base: ImageSettings, incrementId: bool)
      ensures id == (if incrementId then base.id + 1 else base.id)
      ensures forward == base.forward && inverse == base.inverse && destroy == base.destroy
    {
      id := if incrementId then base.id + 1 else base.id;
      forward, inverse, destroy := base.forward, base.inverse, base.destroy;
    }

    /** `same(other)`: the ids alone decide; handlers are never compared. */
    predicate Same(other: ImageSettings)
      reads this, other
    {
      other.id == id
    }

    /** The `shared_ptr` overload of `same`: false for a null pointer. */
    predicate SameShared(other: ImageSettings?)
      reads this, other
      ensures SameShared(other) <==> other != null && other.id == id
    {
      other != null && Same(other)
    }

    /** `fftw_forward_plan`. */
    method ForwardPlan(req: PlanRequest, fftw: FftwState, builtin: PlanRequest -> Plan, threadsFail: bool)
      returns (r: Result<Plan, FftwError>)
      modifies fftw
      ensures r == PlanOutcome(forward, req, builtin, old(fftw.initialized), threadsFail)
      ensures fftw.initialized == (old(fftw.initialized) || (forward.NoPlanner? && !threadsFail))
    {
      r := MakePlan(forward, req, fftw, builtin, threadsFail);
    }

    /** `fftw_inverse_plan`. */
    method InversePlan(req: PlanRequest, fftw: FftwState, builtin: PlanRequest -> Plan, threadsFail: bool)
      returns (r: Result<Plan, FftwError>)
      modifies fftw
      ensures r == PlanOutcome(inverse, req, builtin, old(fftw.initialized), threadsFail)
      ensures fftw.initialized == (old(fftw.initialized) || (inverse.NoPlanner? && !threadsFail))
    {
      r := MakePlan(inverse, req, fftw, builtin, threadsFail);
    }

    /** `fftw_clear_plan`: the built-in path initialises FFTW first. */
    method ClearPlan(p: Plan, fftw: FftwState, threadsFail: bool) returns (r: Result<Cleared, FftwError>)
      modifies fftw
      ensures destroy.UserDestroyer? ==> r == Success(ClearOutcome(destroy, p)) && fftw.initialized == old(fftw.initialized)
      ensures destroy.NoDestroyer? ==>
                match InitOutcome(old(fftw.initialized), threadsFail)
                case Failure(e) => r == Failure(e)
                case Success(_) => r == Success(ClearOutcome(destroy, p)) && fftw.initialized
    {
      if destroy.UserDestroyer? {
        return Success(ClearOutcome(destroy, p));
      }
      var init := fftw.Init(threadsFail);
      if init.Failure? {
        return Failure(init.error);
      }
      r := Success(ClearOutcome(destroy, p));
    }
  }

  /** Shared body of the two plan getters. */
  method MakePlan(h: Planner, req: PlanRequest, fftw: FftwState, builtin: PlanRequest -> Plan, threadsFail: bool)
    returns (r: Result<Plan, FftwError>)
    modifies fftw
    ensures r == PlanOutcome(h, req, builtin, old(fftw.initialized), threadsFail)
    ensures fftw.initialized == (old(fftw.initialized) || (h.NoPlanner? && !threadsFail))
  {
    if h.UserPlanner? {
      return Success(h.make(req));
    }
    var init := fftw.Init(threadsFail);
    if init.Failure? {
      return Failure(init.error);
    }
    var p := builtin(req);
    if p == Null {
      return Failure(PlanAllocFailed);
    }
    r := Success(p);
  }

  /** Settings built from old ones with new handlers are never `same` as
      the old ones, so everything cached under the old id is invalidated;
      a plain copy stays `same`. */
  lemma NewHandlersInvalidate(base: ImageSettings, bumped: ImageSettings, copy: ImageSettings)
    requires bumped.id == base.id + 1
    requires copy.id == base.id
    ensures !bumped.Same(base) && !base.Same(bumped)
    ensures copy.Same(base) && base.Same(copy)
  {
  }
}
