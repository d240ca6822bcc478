/** The single-slot snackbar notification state of
    src/contexts/snackbarContext.tsx. */
module SnackbarContext {
  import opened Js
  import opened Http

  /** MUI's `AlertColor`. */
  datatype AlertColor = Success | Info | Warning | Error

  /** The provider's one state slot `{show, message, type}`. */
  datatype SnackbarState = SnackbarState(show: bool, message: string, kind: AlertColor)

  /** The argument of `setShowSnackbar`; `message` and `type` are optional. */
  datatype SetShowSnackbarArg = SetShowSnackbarArg(show: bool, message: Option<string>, kind: Option<AlertColor>)

  const DefaultSnackbar := SnackbarState(false, "", Info)

  /** The argument both close handlers pass. */
  const Hide := SetShowSnackbarArg(false, None, None)

  /** A notification to show. */
  function ShowArg(message: Option<string>, kind: AlertColor): SetShowSnackbarArg {
    SetShowSnackbarArg(true, message, Some(kind))
  }

  /** The state after one `setShowSnackbar(arg)` call made in state `prev`. */
  function Next(prev: SnackbarState, arg: SetShowSnackbarArg): (r: SnackbarState)
    ensures r.show == arg.show
    ensures !arg.show ==> r.message == prev.message && r.kind == prev.kind
    ensures arg.show ==> r.message == OrEmpty(arg.message) && r.kind == arg.kind.GetOr(Info)
  {
    if !arg.show then prev.(show := false)
    else SnackbarState(true, OrEmpty(arg.message), arg.kind.GetOr(Info))
  }

  /** The state after a sequence of calls, oldest first. */
  function Replay(s: SnackbarState, args: seq<SetShowSnackbarArg>): SnackbarState
    decreases |args|
  {
    if args == [] then s else Replay(Next(s, args[0]), args[1..])
  }

  /** The snackbar a `catch` block shows: axios errors only, with the CMS's
      message (absent becomes ""); any other error shows nothing. */
  function Reported(s: SnackbarState, e: HttpError): (r: SnackbarState)
    ensures e.AxiosError? ==> r == SnackbarState(true, OrEmpty(e.message), Error)
    ensures e.OtherError? ==> r == s
  {
    if e.AxiosError? then Next(s, ShowArg(e.message, Error)) else s
  }

  lemma {:induction false} ReplayAppend(s: SnackbarState, xs: seq<SetShowSnackbarArg>, ys: seq<SetShowSnackbarArg>)
    ensures Replay(s, xs + ys) == Replay(Replay(s, xs), ys)
    decreases |xs|
  {
    if xs != [] {
      assert (xs + ys)[1..] == xs[1..] + ys;
      ReplayAppend(Next(s, xs[0]), xs[1..], ys);
    } else {
      assert xs + ys == ys;
    }
  }

  /** Single slot: once a show call is made, neither the state before it nor
      any earlier call has any effect on what follows. */
  lemma LastShowWins(s: SnackbarState, t: SnackbarState, earlier: seq<SetShowSnackbarArg>,
                     a: SetShowSnackbarArg, later: seq<SetShowSnackbarArg>)
    requires a.show
    ensures Replay(s, earlier + [a] + later) == Replay(t, [a] + later)
  {
    ReplayAppend(s, earlier, [a] + later);
    assert earlier + [a] + later == earlier + ([a] + later);
    assert ([a] + later)[1..] == later;
  }

  /** Hiding after any run of hides changes nothing more. */
  lemma {:induction false} HidesCollapse(s: SnackbarState, hides: seq<SetShowSnackbarArg>)
    requires hides != [] && forall i :: 0 <= i < |hides| ==> !hides[i].show
    ensures Replay(s, hides) == s.(show := false)
    decreases |hides|
  {
    if |hides| > 1 {
      HidesCollapse(Next(s, hides[0]), hides[1..]);
    }
  }

  /** Hiding is idempotent. */
  lemma HideIdempotent(s: SnackbarState)
    ensures Next(Next(s, Hide), Hide) == Next(s, Hide)
  {
  }

  /** `SnackbarProvider`: the state slot and `setShowSnackbar`. */
  class Snackbar {
    var state: SnackbarState

    constructor ()
      ensures state == DefaultSnackbar
    {
      state := DefaultSnackbar;
    }

    /** `setShowSnackbar(arg)`. */
    method SetShowSnackbar(arg: SetShowSnackbarArg)
      modifies this
      ensures state == Next(old(state), arg)
    {
      if !arg.show {
        state := state.(show := false);
      } else {
        state := SnackbarState(true, OrEmpty(arg.message), arg.kind.GetOr(Info));
      }
    }

    /** The `onClose` of both the Snackbar and the Alert. */
    method Close()
      modifies this
      ensures state == old(state).(show := false)
    {
      SetShowSnackbar(Hide);
    }

    /** What a `catch (err) { if (axios.isAxiosError(err)) ... }` block does. */
    method Report(e: HttpError)
      modifies this
      ensures state == Reported(old(state), e)
    {
      if e.AxiosError? {
        SetShowSnackbar(ShowArg(e.message, Error));
      }
    }
  }
}
