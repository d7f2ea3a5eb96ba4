/** The allocation plan panel of frontend/src/components/TankerDispatch.jsx: one
    load on mount and a refresh button that is disabled while a load runs. */
module TankerDispatch {
  import opened Common
  import opened ClientData

  const DefaultError: string := "Failed to fetch tanker allocation."

  class Panel {
    var allocation: Option<AllocationData>
    var loading: bool
    var error: Option<string>
    /** Loads started and not yet settled. */
    var inFlight: nat

    /** With refresh disabled while loading, at most one load runs at a time;
        an error text is never empty. */
    predicate Valid()
      reads this
    {
      inFlight == (if loading then 1 else 0)
      && (error.Some? ==> error.value != "")
    }

    /** Mounting starts the first load. */
    constructor ()
      ensures Valid()
      ensures allocation == None && loading && error == None && inFlight == 1
    {
      allocation := None;
      loading := true;
      error := None;
      inFlight := 1;
    }

    /** The refresh button: ignored while loading, else `loadAllocation` up to its await. */
    method Refresh() returns (started: bool)
      modifies this
      requires Valid()
      ensures Valid()
      ensures started <==> !old(loading)
      ensures started ==> loading && error == None && allocation == old(allocation)
      ensures !started ==> loading == old(loading) && error == old(error) && allocation == old(allocation) && inFlight == old(inFlight)
    {
      started := !loading;
      if started {
        loading := true;
        error := None;
        inFlight := inFlight + 1;
      }
    }

    /** The rest of `loadAllocation`: a success replaces the plan, a failure keeps
        the previous plan and shows the detail or the default text; either way
        loading stops. */
    method Resolve(outcome: Response<AllocationData>)
      modifies this
      requires Valid() && loading
      ensures Valid() && !loading && inFlight == 0
      ensures outcome.Success? ==> allocation == Some(outcome.data) && error == old(error)
      ensures outcome.Failure? ==> allocation == old(allocation) && error == Some(DetailOr(outcome.detail, DefaultError))
    {
      if outcome.Success? {
        allocation := Some(outcome.data);
      } else {
        error := Some(DetailOr(outcome.detail, DefaultError));
      }
      loading := false;
      inFlight := inFlight - 1;
    }

    /** The error box shows whenever an error is set: its text is never empty. */
    function ShowsError(): (b: bool)
      reads this
      requires Valid()
      ensures b <==> error.Some?
    {
      error.Some? && error.value != ""
    }
  }
}
