/**
 * The supervisor as one state machine: the registry, the worker processes
 * still running, and every status probe it has started, the latest
 * `viewAllTokens` call's probes last. Operator actions, worker exits, worker
 * messages and timer expiries are events. The bulk commands read the state
 * without changing it and are the methods of `Registry`.
 */
module Supervisor {
  import opened Wrappers
  import opened Protocol
  import Registry
  import Correlator

  /** Which exit handler, reply listener and status timer the supervisor runs. */
  datatype Build =
    | AsWritten   // the handlers of app.js
    | Corrected   // `Registry.OnExit`, `Correlator.OnMessage`, `Correlator.OnTimeout`

  /**
   * `procs` holds the running worker processes with the token each was
   * started for; a killed process stays there until its exit is handled.
   * `probes[view..]` is the query the table waits for; earlier probes stay
   * because their timers are never cancelled. `fault` is the error that
   * ended the supervisor, if one did.
   */
  datatype State = State(
    reg: Registry.Registry,
    procs: set<(Token, Registry.Handle)>,
    probes: Correlator.Query,
    view: nat,
    fault: Option<Fault>)

  datatype Event =
    | Add(t: Token)                                // addToken
    | Remove(t: Token)                             // removeToken
    | Exited(t: Token, h: Registry.Handle)         // the exit of worker h, started for t
    | ViewAll(ids: seq<RequestId>)                 // viewAllTokens, one id per stored entry
    | Heard(from: Registry.Handle, m: Upstream)    // a message from worker `from`
    | Expired(i: nat)                              // the timer of probe i

  /** The start-up state: the registry of `Registry.Boot`, whose workers all run. */
  function Initial(reg: Registry.Registry): State {
    State(reg, set t | t in reg.workers :: (t, reg.workers[t]), [], 0, None)
  }

  /** The menu is shown: no status table is being waited for. */
  predicate Idle(s: State) {
    s.view <= |s.probes| && Correlator.Done(s.probes[s.view..])
  }

  /**
   * Which events can happen while the supervisor runs: the operator acts
   * only from the menu and removes only a stored token, a view supplies one
   * id per stored entry, only a running process exits, and only an armed
   * timer expires.
   */
  predicate Enabled(s: State, e: Event) {
    && s.fault.None?
    && match e
       case Add(_) => Idle(s)
       case Remove(t) => Idle(s) && t in Registry.Stored(s.reg)
       case ViewAll(ids) => Idle(s) && |ids| == |Registry.Stored(s.reg)|
       case Exited(t, h) => (t, h) in s.procs
       case Heard(_, _) => true
       case Expired(i) => i < |s.probes| && s.probes[i].timer
  }

  /** The processes an operator action starts: the spawn `addToken` may do. */
  function Started(before: Registry.Registry, after: Registry.Registry, t: Token): set<(Token, Registry.Handle)> {
    if t in after.workers && t !in before.workers then {(t, after.workers[t])} else {}
  }

  /**
   * One event. Only a worker message or a timer can end the supervisor,
   * and only with the handlers as written; a view appends its probes and
   * leaves the registry alone; an exit is handled once.
   */
  function Step(s: State, e: Event, b: Build): (r: (State, seq<Registry.Effect>))
    requires Enabled(s, e)
    ensures b.Corrected? ==> r.0.fault.None?
    ensures r.0.fault.Some? ==>
      && (e.Heard? || e.Expired?)
      && r.0.fault == Some(ReadOfUndefined("off"))
      && r.0.reg == s.reg && r.0.probes == s.probes && r.1 == []
    ensures e.Add? || e.Remove? || e.Exited? ==>
      r.0.probes == s.probes && r.0.view == s.view && r.0.fault.None?
    ensures e.Exited? ==> r.0.procs == s.procs - {(e.t, e.h)} && r.1 == []
    ensures e.ViewAll? ==>
      var (q, out) := Correlator.StartQuery(s.reg.workers, Registry.Stored(s.reg), e.ids);
      && r.0.reg == s.reg && r.0.procs == s.procs && r.0.fault.None?
      && r.0.view == |s.probes| && |r.0.probes| == |s.probes| + |q|
      && r.0.probes[..|s.probes|] == s.probes && r.0.probes[|s.probes|..] == q
      && r.1 == out
    ensures e.Heard? || e.Expired? ==>
      r.0.reg == s.reg && r.0.procs == s.procs && r.0.view == s.view && r.1 == [] && |r.0.probes| == |s.probes|
  {
    match e
    case Add(t) =>
      var (reg, out) := Registry.AddToken(s.reg, t);
      (s.(reg := reg, procs := s.procs + Started(s.reg, reg, t)), out)
    case Remove(t) =>
      var (reg, out) := Registry.RemoveToken(s.reg, t);
      (s.(reg := reg), out)
    case Exited(t, h) =>
      var reg := if b.AsWritten? then Registry.OnExitAsWritten(s.reg, t) else Registry.OnExit(s.reg, t, h);
      (s.(reg := reg, procs := s.procs - {(t, h)}), [])
    case ViewAll(ids) =>
      var (q, out) := Correlator.StartQuery(s.reg.workers, Registry.Stored(s.reg), ids);
      assert (s.probes + q)[..|s.probes|] == s.probes && (s.probes + q)[|s.probes|..] == q;
      (s.(probes := s.probes + q, view := |s.probes|), out)
    case Heard(from, m) =>
      if b.Corrected? then (s.(probes := Correlator.QueryOnMessage(s.probes, from, m)), [])
      else (
        match Correlator.QueryOnMessageAsWritten(s.probes, from, m, s.reg.workers)
        case Delivered(q) => (s.(probes := q), [])
        case Aborted(f) => (s.(fault := Some(f)), []))
    case Expired(i) =>
      if b.Corrected? then (s.(probes := Correlator.QueryTimeout(s.probes, i)), [])
      else (
        match Correlator.OnTimeoutAsWritten(s.probes[i], s.reg.workers)
        case Ran(p) => (s.(probes := s.probes[i := p]), [])
        case Threw(f) => (s.(fault := Some(f)), []))
  }

  /**
   * The registry is valid; every entry's process is running with that
   * token; every running process was issued; the views before the current
   * one are finished; every probe is well formed and asked an issued worker.
   */
  ghost predicate Inv(s: State) {
    && Registry.Valid(s.reg)
    && (forall t :: t in s.reg.workers ==> (t, s.reg.workers[t]) in s.procs)
    && (forall t, h :: (t, h) in s.procs ==> h.pid < s.reg.nextPid)
    && s.view <= |s.probes|
    && (forall i :: 0 <= i < s.view ==> s.probes[i].result.Some?)
    && (forall i :: 0 <= i < |s.probes| ==> Correlator.WellFormed(s.probes[i]))
    && (forall i :: 0 <= i < |s.probes| && s.probes[i].h.Some? ==> s.probes[i].h.value.pid < s.reg.nextPid)
  }

  /** Start-up meets the invariant and shows the menu. */
  lemma InitialInv(reg: Registry.Registry)
    requires Registry.Valid(reg)
    ensures Inv(Initial(reg)) && Idle(Initial(reg))
  {
  }

  /** Every enabled event keeps the invariant, with either build. */
  lemma {:induction false} StepPreservesInv(s: State, e: Event, b: Build)
    requires Inv(s) && Enabled(s, e)
    ensures Inv(Step(s, e, b).0)
  {
    match e
    case Add(t) => AddKeepsInv(s, t, b);
    case Remove(t) => RemoveKeepsInv(s, t, b);
    case Exited(t, h) => ExitKeepsInv(s, t, h, b);
    case ViewAll(ids) => ViewKeepsInv(s, ids, b);
    case Heard(from, m) => HeardKeepsInv(s, from, m, b);
    case Expired(i) => ExpiredKeepsInv(s, i, b);
  }

  lemma AddKeepsInv(s: State, t: Token, b: Build)
    requires Inv(s) && Enabled(s, Add(t))
    ensures Inv(Step(s, Add(t), b).0)
  {
    var r := Step(s, Add(t), b).0;
    assert s.reg.nextPid <= r.reg.nextPid;
    forall u | u in r.reg.workers ensures (u, r.reg.workers[u]) in r.procs {
      if u != t {
        assert (u, s.reg.workers[u]) in s.procs;
      } else if t in s.reg.workers {
        assert r.reg.workers[t] == s.reg.workers[t];
      }
    }
  }

  lemma RemoveKeepsInv(s: State, t: Token, b: Build)
    requires Inv(s) && Enabled(s, Remove(t))
    ensures Inv(Step(s, Remove(t), b).0)
  {
    var r := Step(s, Remove(t), b).0;
    forall u | u in r.reg.workers ensures (u, r.reg.workers[u]) in r.procs {
      assert (u, s.reg.workers[u]) in s.procs;
    }
  }

  lemma ExitKeepsInv(s: State, t: Token, h: Registry.Handle, b: Build)
    requires Inv(s) && Enabled(s, Exited(t, h))
    ensures Inv(Step(s, Exited(t, h), b).0)
  {
    var r := Step(s, Exited(t, h), b).0;
    forall u | u in r.reg.workers ensures (u, r.reg.workers[u]) in r.procs {
      assert (u, s.reg.workers[u]) in s.procs;
    }
  }

  lemma ViewKeepsInv(s: State, ids: seq<RequestId>, b: Build)
    requires Inv(s) && Enabled(s, ViewAll(ids))
    ensures Inv(Step(s, ViewAll(ids), b).0)
  {
    var r := Step(s, ViewAll(ids), b).0;
    var ts := Registry.Stored(s.reg);
    var q := Correlator.StartQuery(s.reg.workers, ts, ids).0;
    Correlator.StartQueryFollows(s.reg.workers, ts, ids);
    assert r.probes == s.probes + q;
    forall i | 0 <= i < |r.probes|
      ensures Correlator.WellFormed(r.probes[i])
      ensures r.probes[i].h.Some? ==> r.probes[i].h.value.pid < r.reg.nextPid
    {
      if i >= |s.probes| {
        var k := i - |s.probes|;
        assert r.probes[i] == q[k] == Correlator.Request(s.reg.workers, ts[k], ids[k]).0;
      }
    }
    forall i | 0 <= i < r.view
      ensures r.probes[i].result.Some?
    {
      assert r.probes[i] == s.probes[i];
      if i >= s.view {
        assert s.probes[s.view..][i - s.view] == s.probes[i];
      }
    }
  }

  lemma HeardKeepsInv(s: State, from: Registry.Handle, m: Upstream, b: Build)
    requires Inv(s) && Enabled(s, Heard(from, m))
    ensures Inv(Step(s, Heard(from, m), b).0)
  {
    var r := Step(s, Heard(from, m), b).0;
    if r.fault.None? {
      var q := Correlator.QueryOnMessage(s.probes, from, m);
      assert r.probes == q;
      forall i | 0 <= i < |q|
        ensures Correlator.WellFormed(q[i]) && q[i].h == s.probes[i].h
        ensures s.probes[i].result.Some? ==> q[i].result.Some?
      {
        assert q[i] == Correlator.OnMessage(s.probes[i], from, m);
      }
    }
  }

  lemma ExpiredKeepsInv(s: State, i: nat, b: Build)
    requires Inv(s) && Enabled(s, Expired(i))
    ensures Inv(Step(s, Expired(i), b).0)
  {
    var r := Step(s, Expired(i), b).0;
    if r.fault.None? {
      var q := Correlator.QueryTimeout(s.probes, i);
      assert r.probes == q;
    }
  }

  /**
   * After a view, the menu returns once every probe of that view has resolved,
   * which the expiry of its armed timers guarantees.
   */
  lemma ViewEndsAfterTimers(s: State, ids: seq<RequestId>, b: Build)
    requires Inv(s) && Enabled(s, ViewAll(ids))
    ensures var r := Step(s, ViewAll(ids), b).0;
      var q := r.probes[r.view..];
      && Correlator.Done(Correlator.ExpireAll(q))
      && |q| == |Registry.Stored(s.reg)|
  {
    var ts := Registry.Stored(s.reg);
    Correlator.StartQueryFollows(s.reg.workers, ts, ids);
  }

  /** Viewing a one-entry list whose worker runs appends one listening probe. */
  lemma ViewOfOne(s: State, t: Token, id: RequestId)
    requires Inv(s) && Idle(s) && s.fault.None?
    requires Registry.Stored(s.reg) == [t] && t in s.reg.workers
    ensures var s1 := Step(s, ViewAll([id]), AsWritten).0;
      && s1.fault.None? && s1.reg == s.reg && s1.view == |s.probes| && |s1.probes| == |s.probes| + 1
      && s1.probes[|s.probes|] == Correlator.Request(s.reg.workers, t, id).0
      && forall i :: 0 <= i < |s.probes| ==> s1.probes[i].result.Some?
  {
    var s1 := Step(s, ViewAll([id]), AsWritten).0;
    var q := Correlator.StartQuery(s.reg.workers, [t], [id]).0;
    assert s1.probes[|s.probes|] == s1.probes[|s.probes|..][0] == q[0];
    forall i | 0 <= i < |s.probes| ensures s1.probes[i].result.Some? {
      assert s1.probes[i] == s1.probes[..|s.probes|][i] == s.probes[i];
      if i >= s.view {
        assert s.probes[s.view..][i - s.view] == s.probes[i];
      }
    }
  }

  /**
   * The reply to the only unresolved probe, from a worker that still has its
   * entry, resolves that probe and leaves the menu showing.
   */
  lemma ReplyToLastProbe(s: State, t: Token, id: RequestId, payload: ReplyPayload)
    requires s.fault.None? && |s.probes| > 0 && s.view == |s.probes| - 1
    requires forall i :: 0 <= i < s.view ==> s.probes[i].result.Some?
    requires var p := s.probes[s.view];
      p.token == t && p.id == id && Correlator.Listening(p) && t in s.reg.workers
    ensures var k := s.view;
      var s2 := Step(s, Heard(s.probes[k].h.value, Reply(id, payload)), AsWritten).0;
      && s2.fault.None? && s2.reg == s.reg && s2.view == k && |s2.probes| == |s.probes|
      && s2.probes[k] == s.probes[k].(result := Some(Correlator.Reported(t, payload)))
      && Idle(s2)
  {
    var k := s.view;
    var m := Reply(id, payload);
    var h := s.probes[k].h.value;
    forall i | 0 <= i < |s.probes| && Correlator.Answers(s.probes[i], h, m)
      ensures s.probes[i].token in s.reg.workers
    {
      assert i == k;
    }
    var s2 := Step(s, Heard(h, m), AsWritten).0;
    var q := Correlator.QueryOnMessage(s.probes, h, m);
    assert s2.probes == q;
    assert s2.probes[k..] == [q[k]];
  }

  /**
   * The timer hazard as the operator meets it: with one stored token, view
   * the table, get the worker's reply, then remove the token before the
   * timer fires. The supervisor as written ends with the timer's TypeError;
   * the corrected one keeps running and the probe keeps its reply.
   */
  lemma RemoveBeforeTimerCrashes(s: State, t: Token, id: RequestId, payload: ReplyPayload)
    requires Inv(s) && Idle(s) && s.fault.None?
    requires Registry.Stored(s.reg) == [t] && t in s.reg.workers
    ensures var h := s.reg.workers[t];
      var k := |s.probes|;
      var s1 := Step(s, ViewAll([id]), AsWritten).0;
      && Enabled(s1, Heard(h, Reply(id, payload)))
      && var s2 := Step(s1, Heard(h, Reply(id, payload)), AsWritten).0;
      && Enabled(s2, Remove(t))
      && var s3 := Step(s2, Remove(t), AsWritten).0;
      && Enabled(s3, Expired(k))
      && Step(s3, Expired(k), AsWritten).0.fault == Some(ReadOfUndefined("off"))
      && Step(s3, Expired(k), Corrected).0.fault.None?
      && Step(s3, Expired(k), Corrected).0.probes[k].result == Some(Correlator.Reported(t, payload))
  {
    var h := s.reg.workers[t];
    var k := |s.probes|;
    ViewOfOne(s, t, id);
    var s1 := Step(s, ViewAll([id]), AsWritten).0;
    ReplyToLastProbe(s1, t, id, payload);
    var s2 := Step(s1, Heard(h, Reply(id, payload)), AsWritten).0;
    var s3 := Step(s2, Remove(t), AsWritten).0;
    assert t !in s3.reg.workers && s3.probes == s2.probes;
    assert s3.probes[k].timer;
  }
}
