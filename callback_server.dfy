/** The temporary HTTP listener that receives the OAuth redirect
    (src/auth/setupCallbackServer.ts). The HTTP server is an open flag with a count of
    `close` calls, the timer an armed flag, the signal handlers an installed flag; the
    port comes from `get-port` and is a parameter. Waiting for the code is split at its
    `await`: `BeginAwait` runs up to it and returns the cell being awaited, `FinishAwait`
    runs once that cell has settled. */
module CallbackServer {
  import opened Wrappers
  import opened ControllablePromise

  const DefaultCallbackTimeoutMs: nat := 5 * 60 * 1000

  const TimeoutMessage := "OAuth authorization timed out before the callback was received."

  const SuccessText := "Authentication with MCP Server succeeded!\nYou can now access resources through the MCP Server."

  /** The destructuring default: an absent timeout becomes five minutes, so the timeout is
      always a number and `startTimeout` always arms the timer. */
  function TimeoutOf(timeoutMs: Option<nat>): (t: nat)
    ensures timeoutMs.None? ==> t == 300000
    ensures timeoutMs.Some? ==> t == timeoutMs.value
  {
    timeoutMs.GetOr(DefaultCallbackTimeoutMs)
  }

  /** The reply of the `/oauth/callback` route. */
  datatype Response = Text(body: string) | BadRequest

  class Listener {
    const port: nat
    const timeoutMs: nat
    /** `authorizationCodePromise`: replaced by a fresh cell on cleanup. */
    var cell: Cell<string>
    var timerArmed: bool
    var serverOpen: bool
    var closeCount: nat
    var cleanedUp: bool
    var signalHandlersInstalled: bool

    predicate Valid()
      reads this, cell
    {
      cell.Valid()
    }

    /** `setupCallbackServer`: `chosenPort` is the port `get-port` chose. The server is
        listening and the handlers are installed, but no timer runs yet. */
    constructor Setup(chosenPort: nat, timeoutMs: Option<nat>)
      ensures port == chosenPort && this.timeoutMs == TimeoutOf(timeoutMs)
      ensures Valid() && fresh(cell) && cell.status == Pending && cell.outcome == Unsettled
      ensures !timerArmed && serverOpen && closeCount == 0 && !cleanedUp && signalHandlersInstalled
    {
      port := chosenPort;
      this.timeoutMs := TimeoutOf(timeoutMs);
      cell := new Cell<string>();
      timerArmed := false;
      serverOpen := true;
      closeCount := 0;
      cleanedUp := false;
      signalHandlersInstalled := true;
    }

    /** `cleanUp` acts once: it disarms the timer, closes the server and installs a fresh
        pending cell; every later call does nothing. */
    method CleanUp()
      requires Valid()
      modifies this
      ensures Valid() && cleanedUp
      ensures signalHandlersInstalled == old(signalHandlersInstalled)
      ensures old(cleanedUp) ==>
        cell == old(cell) && timerArmed == old(timerArmed) && serverOpen == old(serverOpen) &&
        closeCount == old(closeCount)
      ensures !old(cleanedUp) ==>
        fresh(cell) && cell.status == Pending && cell.outcome == Unsettled &&
        !timerArmed && !serverOpen && closeCount == old(closeCount) + 1
    {
      if cleanedUp {
        return;
      }
      cleanedUp := true;
      timerArmed := false;
      serverOpen := false;
      closeCount := closeCount + 1;
      cell := new Cell<string>();
    }

    /** `onTimeout`: does nothing once the cell has settled; otherwise rejects it with the
        timeout error, then cleans up. */
    method OnTimeout()
      requires Valid()
      modifies this, cell
      ensures Valid()
      ensures old(cell.status) != Pending ==>
        cell == old(cell) && cell.status == old(cell.status) && cell.outcome == old(cell.outcome) &&
        cleanedUp == old(cleanedUp) && closeCount == old(closeCount) && timerArmed == old(timerArmed)
      ensures old(cell.status) == Pending ==>
        old(cell).status == Rejected && old(cell).outcome == Failed(TimeoutMessage) && cleanedUp &&
        (!old(cleanedUp) ==>
           fresh(cell) && cell.status == Pending && cell.outcome == Unsettled && !serverOpen &&
           closeCount == old(closeCount) + 1)
    {
      if cell.status != Pending {
        return;
      }
      cell.Reject(TimeoutMessage);
      CleanUp();
    }

    method StartTimeout()
      modifies this
      ensures timerArmed && cell == old(cell) && serverOpen == old(serverOpen) && closeCount == old(closeCount)
      ensures cleanedUp == old(cleanedUp) && signalHandlersInstalled == old(signalHandlersInstalled)
    {
      timerArmed := true;
    }

    /** The `/oauth/callback` route: without a string `code` query parameter the
        validator answers 400; otherwise the current cell is resolved with the code. */
    method HandleCallback(code: Option<string>) returns (r: Response)
      requires Valid()
      modifies cell
      ensures Valid()
      ensures code.None? ==> r == BadRequest && cell.status == old(cell.status) && cell.outcome == old(cell.outcome)
      ensures code.Some? ==>
                r == Text(SuccessText) &&
                CellState(cell.status, cell.outcome) == Step(CellState(old(cell.status), old(cell.outcome)), ResolveCall(code.value))
    {
      if code.None? {
        return BadRequest;
      }
      cell.Resolve(code.value);
      return Text(SuccessText);
    }

    /** `awaitAuthorizationCode` up to its `await`: arms the timer and hands back the cell
        that is awaited. */
    method BeginAwait() returns (awaited: Cell<string>)
      modifies this
      ensures awaited == cell && cell == old(cell) && timerArmed
      ensures serverOpen == old(serverOpen) && closeCount == old(closeCount)
      ensures cleanedUp == old(cleanedUp) && signalHandlersInstalled == old(signalHandlersInstalled)
    {
      StartTimeout();
      awaited := cell;
    }

    /** The rest of `awaitAuthorizationCode`, once `awaited` has settled: a code is
        returned after a cleanup, a rejection propagates; on both paths the timer is
        disarmed, the signal handlers removed and the listener marked cleaned up. */
    method FinishAwait(awaited: Cell<string>) returns (r: Result<string, string>)
      requires Valid() && awaited.outcome != Unsettled
      modifies this
      ensures Valid()
      ensures !timerArmed && !signalHandlersInstalled && cleanedUp
      ensures awaited.outcome.Fulfilled? ==> r == Ok(awaited.outcome.value)
      ensures awaited.outcome.Failed? ==>
                r == Err(awaited.outcome.reason) && cell == old(cell) && serverOpen == old(serverOpen) &&
                closeCount == old(closeCount)
      ensures awaited.outcome.Fulfilled? && !old(cleanedUp) ==>
                !serverOpen && closeCount == old(closeCount) + 1 &&
                fresh(cell) && cell.status == Pending && cell.outcome == Unsettled
      ensures awaited.outcome.Fulfilled? && old(cleanedUp) ==>
                cell == old(cell) && serverOpen == old(serverOpen) && closeCount == old(closeCount)
    {
      if awaited.outcome.Fulfilled? {
        CleanUp();
        r := Ok(awaited.outcome.value);
      } else {
        r := Err(awaited.outcome.reason);
      }
      timerArmed := false;
      signalHandlersInstalled := false;
      cleanedUp := true;
    }
  }

  /** The redirect arrives in time: the code comes back and the server is closed once. */
  method RedirectInTime(port: nat, code: string) returns (r: Result<string, string>, listener: Listener)
    ensures r == Ok(code)
    ensures !listener.serverOpen && listener.closeCount == 1 && !listener.timerArmed
  {
    listener := new Listener.Setup(port, None);
    var awaited := listener.BeginAwait();
    var _ := listener.HandleCallback(Some(code));
    r := listener.FinishAwait(awaited);
  }

  /** The timer fires first: the wait fails with the timeout error, and a redirect that
      arrives afterwards settles only the replacement cell, which nobody awaits. */
  method RedirectTooLate(port: nat, code: string) returns (r: Result<string, string>, listener: Listener)
    ensures r == Err(TimeoutMessage)
    ensures listener.cell.outcome == Fulfilled(code)
    ensures !listener.serverOpen && listener.closeCount == 1
  {
    listener := new Listener.Setup(port, None);
    var awaited := listener.BeginAwait();
    listener.OnTimeout();
    var _ := listener.HandleCallback(Some(code));
    r := listener.FinishAwait(awaited);
  }
}
