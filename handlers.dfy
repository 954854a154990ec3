/** The mutable side of the health package: the `healthHandler` object whose
    fields the setters write in place, and the package that owns the one
    process-wide instance `handler`. The package-level functions
    `SetStatus`, `SetReason`, `SetHealthy`, `SetUnhealthy`, `GetStatus` and
    `GetReason` all act on that instance, so they are methods of its class. */
module HealthHandlers {
  import opened Wrappers
  import opened HealthState
  import opened HealthRender

  class HealthHandler {
    var status: Status
    var reason: string
    var useJSON: bool

    /** The current fields, as the value the renderers read. */
    function Snapshot(): (s: State)
      reads this
      ensures s.status == status && s.reason == reason && s.useJSON == useJSON
    {
      State(status, reason, useJSON)
    }

    /** The package initialiser of `handler`: UP, no reason, plain text. */
    constructor ()
      ensures Snapshot() == Initial
    {
      status, reason, useJSON := Up, "", false;
    }

    method SetStatus(st: Status)
      modifies this
      ensures status == st && reason == old(reason) && useJSON == old(useJSON)
      ensures Snapshot() == Apply(old(Snapshot()), Cmd.SetStatus(st))
    {
      status := st;
    }

    method SetReason(rs: string)
      modifies this
      ensures reason == rs && status == old(status) && useJSON == old(useJSON)
      ensures Snapshot() == Apply(old(Snapshot()), Cmd.SetReason(rs))
    {
      reason := rs;
    }

    /** Two writes in sequence: the status, then the reason. */
    method SetHealthy()
      modifies this
      ensures status == Up && reason == "" && useJSON == old(useJSON)
      ensures Snapshot() == Apply(old(Snapshot()), Cmd.SetHealthy)
    {
      SetStatus(Up);
      SetReason("");
    }

    /** Two writes in sequence: the status, then the reason. */
    method SetUnhealthy(rs: string)
      modifies this
      ensures status == Down && reason == rs && useJSON == old(useJSON)
      ensures Snapshot() == Apply(old(Snapshot()), Cmd.SetUnhealthy(rs))
    {
      SetStatus(Down);
      SetReason(rs);
    }

    method GetStatus() returns (st: Status)
      ensures st == Snapshot().status
    {
      st := status;
    }

    method GetReason() returns (rs: string)
      ensures rs == Snapshot().reason
    {
      rs := reason;
    }

    /** Sets the output mode and returns this same object, so the change is
        seen by every holder of it. */
    method WithJSON(v: bool) returns (h: HealthHandler)
      modifies this
      ensures h == this
      ensures useJSON == v && status == old(status) && reason == old(reason)
      ensures Snapshot() == WithMode(old(Snapshot()), v)
    {
      useJSON := v;
      h := this;
    }
  }

  /** The package: it owns the single `handler`. */
  class Health {
    const handler: HealthHandler

    constructor ()
      ensures fresh(handler)
      ensures handler.Snapshot() == Initial
    {
      handler := new HealthHandler();
    }

    /** `Handle()` gives out the singleton itself, not a copy. */
    method Handle() returns (h: HealthHandler)
      ensures h == handler
    {
      h := handler;
    }
  }

  /** The sequence health_test.go uses: configure the mode through
      `Handle().WithJSON(v)`, then call `ServeHTTP` on the handle returned.
      Only the mode of the package's `handler` changes, and the response is
      the one the singleton's state renders. */
  method ConfigureAndServe(pkg: Health, v: bool) returns (r: Response)
    modifies pkg.handler
    ensures pkg.handler.Snapshot() == WithMode(old(pkg.handler.Snapshot()), v)
    ensures r == ServeHTTP(pkg.handler.Snapshot())
    ensures r.contentType == (if v then Some(JsonContentType) else None)
  {
    var h := pkg.Handle();
    var served := h.WithJSON(v);
    r := ServeHTTP(served.Snapshot());
  }

  /** `SetUnhealthy` then `SetHealthy` on the singleton, then a plain-text
      `ServeHTTP`: 200 and the body "UP: ". */
  method RecoverAndServe(pkg: Health, rs: string) returns (r: Response)
    modifies pkg.handler
    requires !pkg.handler.useJSON
    ensures pkg.handler.Snapshot() == State(Up, "", false)
    ensures r.code == StatusOK && r.body == Text("UP: ") && r.contentType == None
  {
    pkg.handler.SetUnhealthy(rs);
    pkg.handler.SetHealthy();
    r := ServeHTTP(pkg.handler.Snapshot());
  }
}
