/** The health state of the process as a value: the three fields of the
    `healthHandler` struct (status, reason and the output mode), the setter
    calls that external collaborators make on it, and what any sequence of
    those calls leaves behind. */
module HealthState {

  /** `Status` is a string type, so values other than "UP" and "DOWN" can be stored. */
  type Status = string

  const Up: Status := "UP"
  const Down: Status := "DOWN"

  /** A snapshot of the three fields of `healthHandler` (the mutex is not modelled). */
  datatype State = State(status: Status, reason: string, useJSON: bool)

  /** The value the process-wide `handler` starts with: UP, no reason, plain text. */
  const Initial: State := State(Up, "", false)

  /** The status-setting interface offered to external collaborators. */
  datatype Cmd =
    | SetStatus(status: Status)
    | SetReason(reason: string)
    | SetHealthy
    | SetUnhealthy(reason: string)

  /** One setter call. `SetHealthy` and `SetUnhealthy` are the two writes
      `SetStatus` then `SetReason`, in that order. */
  function Apply(s: State, c: Cmd): (r: State)
    ensures r.useJSON == s.useJSON
    ensures c.SetReason? ==> r.status == s.status
    ensures c.SetStatus? ==> r.reason == s.reason
    decreases if c.SetHealthy? || c.SetUnhealthy? then 1 else 0
  {
    match c
    case SetStatus(st) => s.(status := st)
    case SetReason(rs) => s.(reason := rs)
    case SetHealthy => Apply(Apply(s, SetStatus(Up)), SetReason(""))
    case SetUnhealthy(rs) => Apply(Apply(s, SetStatus(Down)), SetReason(rs))
  }

  /** `WithJSON(v)`: only the output mode changes. */
  function WithMode(s: State, v: bool): (r: State)
    ensures r.useJSON == v
    ensures r.status == s.status && r.reason == s.reason
  {
    s.(useJSON := v)
  }

  /** The state after a sequence of setter calls, made one after the other. */
  function Run(s: State, cmds: seq<Cmd>): State
    decreases |cmds|
  {
    if cmds == [] then s else Run(Apply(s, cmds[0]), cmds[1..])
  }

  /** The status a call leaves, given the status before it. */
  function StatusAfter(before: Status, c: Cmd): Status
  {
    match c
    case SetStatus(st) => st
    case SetReason(_) => before
    case SetHealthy => Up
    case SetUnhealthy(_) => Down
  }

  /** The reason a call leaves, given the reason before it. */
  function ReasonAfter(before: string, c: Cmd): string
  {
    match c
    case SetStatus(_) => before
    case SetReason(rs) => rs
    case SetHealthy => ""
    case SetUnhealthy(rs) => rs
  }

  /** The two fields a call writes, field by field: `Apply` agrees with this
      per-field reference in every case. */
  lemma ApplyFieldwise(s: State, c: Cmd)
    ensures Apply(s, c) == State(StatusAfter(s.status, c), ReasonAfter(s.reason, c), s.useJSON)
  {
  }

  lemma SetHealthyResult(s: State)
    ensures Apply(s, SetHealthy) == State(Up, "", s.useJSON)
  {
  }

  lemma SetUnhealthyResult(s: State, rs: string)
    ensures Apply(s, SetUnhealthy(rs)) == State(Down, rs, s.useJSON)
  {
  }

  /** Calling `SetHealthy` twice leaves the state that calling it once leaves. */
  lemma SetHealthyIdempotent(s: State)
    ensures Apply(Apply(s, SetHealthy), SetHealthy) == Apply(s, SetHealthy)
  {
  }

  /** `SetStatus` does not clear a previously stored reason: after
      `SetUnhealthy("x")`, `SetStatus(Up)` gives UP with reason "x". */
  lemma SetStatusKeepsStaleReason()
    ensures Apply(Apply(Initial, SetUnhealthy("x")), SetStatus(Up)) == State(Up, "x", false)
  {
  }

  /** Running one more call is applying it to the state run so far. */
  lemma {:induction false} RunSnoc(s: State, cmds: seq<Cmd>, c: Cmd)
    ensures Run(s, cmds + [c]) == Apply(Run(s, cmds), c)
    decreases |cmds|
  {
    if cmds == [] {
      assert [] + [c] == [c];
    } else {
      assert (cmds + [c])[1..] == cmds[1..] + [c];
      RunSnoc(Apply(s, cmds[0]), cmds[1..], c);
    }
  }

  lemma {:induction false} RunAppend(s: State, xs: seq<Cmd>, ys: seq<Cmd>)
    ensures Run(s, xs + ys) == Run(Run(s, xs), ys)
    decreases |xs|
  {
    if xs == [] {
      assert [] + ys == ys;
    } else {
      assert (xs + ys)[1..] == xs[1..] + ys;
      RunAppend(Apply(s, xs[0]), xs[1..], ys);
    }
  }

  /** No sequence of setter calls changes the output mode. */
  lemma {:induction false} RunKeepsMode(s: State, cmds: seq<Cmd>)
    ensures Run(s, cmds).useJSON == s.useJSON
    decreases |cmds|
  {
    if cmds != [] {
      RunKeepsMode(Apply(s, cmds[0]), cmds[1..]);
    }
  }

  /** After a sequence ending in `SetHealthy` the state is UP with no reason,
      and after one ending in `SetUnhealthy(r)` it is DOWN with reason `r`,
      whatever came before. */
  lemma RunEndsHealthyOrUnhealthy(s: State, cmds: seq<Cmd>, c: Cmd)
    requires c.SetHealthy? || c.SetUnhealthy?
    ensures Run(s, cmds + [c]).status == (if c.SetHealthy? then Up else Down)
    ensures Run(s, cmds + [c]).reason == (if c.SetHealthy? then "" else c.reason)
    ensures Run(s, cmds + [c]).useJSON == s.useJSON
  {
    RunSnoc(s, cmds, c);
    RunKeepsMode(s, cmds);
  }

  /** Sequences made only of `SetHealthy` and `SetUnhealthy`. */
  predicate OnlyHealthyUnhealthy(cmds: seq<Cmd>)
  {
    forall i :: 0 <= i < |cmds| ==> cmds[i].SetHealthy? || cmds[i].SetUnhealthy?
  }

  /** "The reason is cleared whenever the status is UP." */
  predicate ReasonClearedWhenUp(s: State)
  {
    s.status == Up ==> s.reason == ""
  }

  /** `SetHealthy` and `SetUnhealthy` keep the reason clear while UP, from any start. */
  lemma {:induction false} HealthyUnhealthyKeepReasonCleared(s: State, cmds: seq<Cmd>)
    requires OnlyHealthyUnhealthy(cmds)
    requires ReasonClearedWhenUp(s)
    ensures ReasonClearedWhenUp(Run(s, cmds))
    decreases |cmds|
  {
    if cmds != [] {
      assert cmds[0].SetHealthy? || cmds[0].SetUnhealthy?;
      ApplyFieldwise(s, cmds[0]);
      assert OnlyHealthyUnhealthy(cmds[1..]) by {
        forall i | 0 <= i < |cmds[1..]|
          ensures cmds[1..][i].SetHealthy? || cmds[1..][i].SetUnhealthy?
        {
          assert cmds[1..][i] == cmds[i + 1];
        }
      }
      HealthyUnhealthyKeepReasonCleared(Apply(s, cmds[0]), cmds[1..]);
    }
  }

  /** With `SetStatus` and `SetReason` available that no longer holds. */
  lemma IndependentSettersBreakReasonCleared()
    ensures ReasonClearedWhenUp(Initial)
    ensures !ReasonClearedWhenUp(Run(Initial, [SetReason("stale")]))
  {
  }
}
