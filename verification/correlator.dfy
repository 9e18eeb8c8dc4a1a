/**
 * `getWorkerStatus` and the status table of `viewAllTokens`: a status
 * request is a probe that waits for the reply carrying its id, or for its
 * timer, whichever comes first. Replies, exits and timer expiries are input
 * events; the 3-second delay itself is not modelled.
 */
module Correlator {
  import opened Wrappers
  import opened Protocol
  import Registry
  import Seqs

  /** The object a status promise resolves to. */
  datatype StatusView =
    | Offline(token: Token)                            // { token, ready: false }
    | Reported(token: Token, payload: ReplyPayload)    // { token, ...msg.payload }

  /**
   * One `getWorkerStatus(token)` call: the worker it asked (none when the
   * token had no handle), the request id, whether its timer is still pending,
   * and the value its promise resolved to, if any.
   */
  datatype Probe = Probe(token: Token, h: Option<Registry.Handle>, id: RequestId, timer: bool, result: Option<StatusView>)

  /** The reply listener is attached exactly while the probe asked a worker and is unresolved. */
  predicate Listening(p: Probe) {
    p.h.Some? && p.result.None?
  }

  /**
   * A probe's resolved value names the probe's own token, and a probe whose
   * timer is gone has resolved.
   */
  predicate WellFormed(p: Probe) {
    && (p.result.Some? ==> p.result.value.token == p.token)
    && (!p.timer ==> p.result.Some?)
  }

  /**
   * `getWorkerStatus(t)` with request id `id`: no handle resolves at once to
   * offline and sends nothing; otherwise a `status` command goes to the
   * token's worker and the probe waits with its timer armed.
   */
  function Request(workers: map<Token, Registry.Handle>, t: Token, id: RequestId): (r: (Probe, seq<Registry.Effect>))
    ensures r.0.token == t && WellFormed(r.0)
    ensures t !in workers <==> r.0.result == Some(Offline(t))
    ensures t !in workers ==> r.1 == [] && !r.0.timer && r.0.h.None?
    ensures t in workers ==>
      && Listening(r.0) && r.0.timer && r.0.h == Some(workers[t]) && r.0.id == id
      && r.1 == [Registry.Deliver(workers[t], StatusCommand(id))]
  {
    if t !in workers then (Probe(t, None, id, false, Some(Offline(t))), [])
    else (Probe(t, Some(workers[t]), id, true, None), [Registry.Deliver(workers[t], StatusCommand(id))])
  }

  /** The reply a probe waits for: from its own worker, of type reply, with its id. */
  predicate Answers(p: Probe, from: Registry.Handle, m: Upstream) {
    Listening(p) && p.h.value == from && m.Reply? && m.requestId == p.id
  }

  /**
   * The probe's message listener: the first matching reply resolves it with
   * that reply's payload; every other message, and anything after
   * resolution, leaves it as it is.
   */
  function OnMessage(p: Probe, from: Registry.Handle, m: Upstream): (r: Probe)
    ensures r.token == p.token && r.h == p.h && r.id == p.id && r.timer == p.timer
    ensures Answers(p, from, m) ==> r.result == Some(Reported(p.token, m.payload))
    ensures !Answers(p, from, m) ==> r == p
    ensures WellFormed(p) ==> WellFormed(r)
  {
    if Answers(p, from, m) then p.(result := Some(Reported(p.token, m.payload))) else p
  }

  /** What a listener or timer call does to the supervisor: the probe after it, or the error it throws. */
  datatype Outcome = Ran(p: Probe) | Threw(fault: Fault)

  /** The listener as written throws on this probe: it matches, and its token's entry is gone. */
  predicate Trips(p: Probe, from: Registry.Handle, m: Upstream, workers: map<Token, Registry.Handle>) {
    Answers(p, from, m) && p.token !in workers
  }

  /**
   * The listener as written: on the reply it waits for, it first looks the
   * worker up again by token to detach itself, and throws when the token has
   * no entry any more; the probe then never resolves.
   */
  function OnMessageAsWritten(p: Probe, from: Registry.Handle, m: Upstream, workers: map<Token, Registry.Handle>): (r: Outcome)
    ensures r.Threw? <==> Trips(p, from, m, workers)
    ensures r.Threw? ==> r.fault == ReadOfUndefined("off")
    ensures r.Ran? ==> r.p == OnMessage(p, from, m)
  {
    if Trips(p, from, m, workers) then Threw(ReadOfUndefined("off"))
    else Ran(OnMessage(p, from, m))
  }

  /**
   * The timer as written: it looks the worker up again by token to detach
   * the listener, and throws when the token has no entry any more, whether
   * or not the probe was already resolved.
   */
  function OnTimeoutAsWritten(p: Probe, workers: map<Token, Registry.Handle>): (r: Outcome)
    ensures !p.timer ==> r == Ran(p)
    ensures p.timer ==> (r.Threw? <==> p.token !in workers)
    ensures r.Threw? ==> r.fault == ReadOfUndefined("off")
    ensures r.Ran? ==> r.p == OnTimeout(p)
  {
    if !p.timer then Ran(p)
    else if p.token !in workers then Threw(ReadOfUndefined("off"))
    else Ran(OnTimeout(p))
  }

  /**
   * The timer, detaching the listener from the worker the probe asked: an
   * unresolved probe resolves to offline, a resolved one keeps its value.
   */
  function OnTimeout(p: Probe): (r: Probe)
    ensures !r.timer
    ensures WellFormed(p) ==> !Listening(r) && r.result.Some?
    ensures r.token == p.token && r.h == p.h && r.id == p.id
    ensures p.result.Some? ==> r.result == p.result
    ensures p.timer && p.result.None? ==> r.result == Some(Offline(p.token))
    ensures WellFormed(p) ==> WellFormed(r)
  {
    if !p.timer then p
    else p.(timer := false, result := if p.result.None? then Some(Offline(p.token)) else p.result)
  }

  /** A resolved probe never changes its value: a promise resolves once. */
  lemma ResolvesOnce(p: Probe, from: Registry.Handle, m: Upstream)
    requires p.result.Some?
    ensures OnMessage(p, from, m).result == p.result
    ensures OnTimeout(p).result == p.result
  {
  }

  /**
   * The timer hazard: a worker that exits after being asked for its status
   * leaves a pending timer that throws in the supervisor, even when the
   * reply came first; the corrected timer resolves the probe as usual.
   */
  lemma TimerAfterExitCrashes(reg: Registry.Registry, t: Token, id: RequestId, payload: ReplyPayload)
    requires t in reg.workers
    ensures var (p, _) := Request(reg.workers, t, id);
      var h := reg.workers[t];
      var gone := Registry.OnExit(reg, t, h).workers;
      var answered := OnMessage(p, h, Reply(id, payload));
      && OnTimeoutAsWritten(p, gone) == Threw(ReadOfUndefined("off"))
      && OnTimeoutAsWritten(answered, gone) == Threw(ReadOfUndefined("off"))
      && OnTimeout(p).result == Some(Offline(t))
      && OnTimeout(answered).result == Some(Reported(t, payload))
  {
  }

  /**
   * The same hazard from the menu: removing a token while its status timer is
   * still pending makes the timer as written throw, although the probe was
   * already answered.
   */
  lemma TimerAfterRemoveCrashes(reg: Registry.Registry, t: Token, id: RequestId, payload: ReplyPayload)
    requires t in reg.workers && |Registry.Stored(reg)| > 0
    ensures var (p, _) := Request(reg.workers, t, id);
      var answered := OnMessage(p, reg.workers[t], Reply(id, payload));
      && answered.result == Some(Reported(t, payload)) && answered.timer
      && OnTimeoutAsWritten(answered, Registry.RemoveToken(reg, t).0.workers) == Threw(ReadOfUndefined("off"))
      && OnTimeout(answered).result == Some(Reported(t, payload))
  {
  }

  /**
   * The listener hazard: when the worker's exit is handled before its
   * matching reply, the listener as written throws instead of resolving.
   */
  lemma ReplyAfterExitCrashes(reg: Registry.Registry, t: Token, id: RequestId, payload: ReplyPayload)
    requires t in reg.workers
    ensures var (p, _) := Request(reg.workers, t, id);
      var h := reg.workers[t];
      var gone := Registry.OnExitAsWritten(reg, t).workers;
      && OnMessageAsWritten(p, h, Reply(id, payload), gone) == Threw(ReadOfUndefined("off"))
      && OnMessage(p, h, Reply(id, payload)).result == Some(Reported(t, payload))
  {
  }

  /** The probes of one `viewAllTokens` call, in stored-list order. */
  type Query = seq<Probe>

  /**
   * `Promise.all(tokens.map(getWorkerStatus))`: one probe per stored entry,
   * duplicates included, the i-th with request id `ids[i]`.
   */
  function StartQuery(workers: map<Token, Registry.Handle>, ts: seq<Token>, ids: seq<RequestId>): (r: (Query, seq<Registry.Effect>))
    requires |ids| == |ts|
    ensures |r.0| == |ts| && |r.1| <= |ts|
    ensures forall i :: 0 <= i < |ts| ==> r.0[i] == Request(workers, ts[i], ids[i]).0
    ensures forall i :: 0 <= i < |ts| && ts[i] in workers ==> Registry.Deliver(workers[ts[i]], StatusCommand(ids[i])) in r.1
    ensures forall e :: e in r.1 ==> exists i :: 0 <= i < |ts| && ts[i] in workers && e == Registry.Deliver(workers[ts[i]], StatusCommand(ids[i]))
    ensures |r.1| == |Seqs.Filter(Registry.HasHandle(workers), ts)|
    decreases |ts|
  {
    if |ts| == 0 then ([], [])
    else
      var (p, sent) := Request(workers, ts[0], ids[0]);
      var (rest, more) := StartQuery(workers, ts[1..], ids[1..]);
      ([p] + rest, sent + more)
  }

  /** No two probes carry the same request id. */
  predicate DistinctIds(q: Query) {
    forall i, j :: 0 <= i < j < |q| ==> q[i].id != q[j].id
  }

  /**
   * Every probe's listener sees the worker's message: exactly the probes
   * waiting for it resolve, and with distinct ids at most one does.
   */
  function QueryOnMessage(q: Query, from: Registry.Handle, m: Upstream): (r: Query)
    ensures |r| == |q|
    ensures forall i :: 0 <= i < |q| ==> r[i] == OnMessage(q[i], from, m)
    ensures forall i :: 0 <= i < |q| ==> r[i].token == q[i].token && r[i].id == q[i].id && r[i].timer == q[i].timer
    ensures forall i :: 0 <= i < |q| ==> (r[i] != q[i] <==> Answers(q[i], from, m))
    ensures DistinctIds(q) ==> forall i, j :: 0 <= i < j < |q| && r[i] != q[i] ==> r[j] == q[j]
  {
    seq(|q|, i requires 0 <= i < |q| => OnMessage(q[i], from, m))
  }

  /**
   * The timer of the i-th probe expires: that probe alone changes, it has
   * resolved afterwards, and a finished table is not altered by a late timer.
   */
  function QueryTimeout(q: Query, i: nat): (r: Query)
    requires i < |q|
    ensures |r| == |q| && r[i] == OnTimeout(q[i])
    ensures forall j :: 0 <= j < |q| && j != i ==> r[j] == q[j]
    ensures WellFormed(q[i]) ==> r[i].result.Some? && !r[i].timer
    ensures Done(q) ==> Done(r) && Statuses(r) == Statuses(q)
  {
    q[i := OnTimeout(q[i])]
  }

  /** The outcome of one worker message for all probes, with the listeners as written. */
  datatype Delivery = Delivered(q: Query) | Aborted(fault: Fault)

  /**
   * The listeners as written, run in registration order: the first one that
   * throws ends the delivery, and the supervisor with it.
   */
  function QueryOnMessageAsWritten(q: Query, from: Registry.Handle, m: Upstream, workers: map<Token, Registry.Handle>): (r: Delivery)
    ensures r.Aborted? <==> exists i :: 0 <= i < |q| && Trips(q[i], from, m, workers)
    ensures r.Aborted? ==> r.fault == ReadOfUndefined("off")
    ensures r.Delivered? ==> r.q == QueryOnMessage(q, from, m)
    decreases |q|
  {
    if |q| == 0 then Delivered([])
    else
      match OnMessageAsWritten(q[0], from, m, workers)
      case Threw(f) => Aborted(f)
      case Ran(p) =>
        match QueryOnMessageAsWritten(q[1..], from, m, workers)
        case Aborted(f) =>
          TripsInTail(q, from, m, workers);
          Aborted(f)
        case Delivered(rest) =>
          TripsInTail(q, from, m, workers);
          QueryOnMessageCons(q, from, m);
          Delivered([p] + rest)
  }

  /** A probe of a non-empty query trips exactly when its head or a probe of its tail does. */
  lemma TripsInTail(q: Query, from: Registry.Handle, m: Upstream, workers: map<Token, Registry.Handle>)
    requires |q| > 0
    ensures (exists i :: 0 <= i < |q| && Trips(q[i], from, m, workers)) <==>
      Trips(q[0], from, m, workers) || exists i :: 0 <= i < |q[1..]| && Trips(q[1..][i], from, m, workers)
  {
    if exists i :: 0 <= i < |q| && Trips(q[i], from, m, workers) {
      var i :| 0 <= i < |q| && Trips(q[i], from, m, workers);
      if i > 0 {
        assert q[1..][i - 1] == q[i];
      }
    }
  }

  /** Delivering to a non-empty query is delivering to its head, then to its tail. */
  lemma QueryOnMessageCons(q: Query, from: Registry.Handle, m: Upstream)
    requires |q| > 0
    ensures QueryOnMessage(q, from, m) == [OnMessage(q[0], from, m)] + QueryOnMessage(q[1..], from, m)
  {
    var r := QueryOnMessage(q, from, m);
    var rest := QueryOnMessage(q[1..], from, m);
    assert forall i :: 1 <= i < |q| ==> r[i] == rest[i - 1];
  }

  /** `Promise.all` has settled: every probe has resolved. */
  predicate Done(q: Query) {
    forall i :: 0 <= i < |q| ==> q[i].result.Some?
  }

  /** The resolved values, in probe order. */
  function Statuses(q: Query): (r: seq<StatusView>)
    requires Done(q)
    ensures |r| == |q|
    ensures forall i :: 0 <= i < |q| ==> Some(r[i]) == q[i].result
  {
    seq(|q|, i requires 0 <= i < |q| => q[i].result.value)
  }

  /** The i-th probe belongs to the i-th stored entry and carries the i-th id. */
  ghost predicate Follows(q: Query, ts: seq<Token>, ids: seq<RequestId>) {
    && |q| == |ts| == |ids|
    && (forall i :: 0 <= i < |q| ==> q[i].token == ts[i] && q[i].id == ids[i] && WellFormed(q[i]))
  }

  /** A fresh query follows the stored list. */
  lemma StartQueryFollows(workers: map<Token, Registry.Handle>, ts: seq<Token>, ids: seq<RequestId>)
    requires |ids| == |ts|
    ensures Follows(StartQuery(workers, ts, ids).0, ts, ids)
  {
  }

  /** Messages and timer expiries keep every probe at its stored-list position. */
  lemma EventsKeepOrder(q: Query, ts: seq<Token>, ids: seq<RequestId>, from: Registry.Handle, m: Upstream, i: nat)
    requires Follows(q, ts, ids) && i < |q|
    ensures Follows(QueryOnMessage(q, from, m), ts, ids)
    ensures Follows(QueryTimeout(q, i), ts, ids)
  {
  }

  /**
   * With pairwise distinct request ids, one message resolves at most one
   * probe, even when two probes ask the same worker.
   */
  lemma NoCrossResolution(q: Query, ts: seq<Token>, ids: seq<RequestId>, from: Registry.Handle, m: Upstream)
    requires Follows(q, ts, ids)
    requires forall i, j :: 0 <= i < j < |ids| ==> ids[i] != ids[j]
    ensures forall i, j :: 0 <= i < j < |q| ==> !(Answers(q[i], from, m) && Answers(q[j], from, m))
  {
  }

  /** All timers expiring, in any order, resolve every probe. */
  function ExpireAll(q: Query): (r: Query)
    ensures |r| == |q|
    ensures forall i :: 0 <= i < |q| ==> r[i] == OnTimeout(q[i]) && !r[i].timer
    ensures (forall i :: 0 <= i < |q| ==> WellFormed(q[i])) ==> Done(r)
  {
    seq(|q|, i requires 0 <= i < |q| => OnTimeout(q[i]))
  }

  /**
   * The status table lists the stored entries in stored order: once the query
   * is done, the i-th status is the i-th stored token's, offline exactly when
   * it had no reply in time.
   */
  lemma StatusesFollowStoredOrder(q: Query, ts: seq<Token>, ids: seq<RequestId>)
    requires Follows(q, ts, ids) && Done(q)
    ensures |Statuses(q)| == |ts|
    ensures forall i :: 0 <= i < |ts| ==> Statuses(q)[i].token == ts[i]
  {
  }

  /** The full `viewAllTokens` query of a registry: one probe per stored entry. */
  lemma QueryOfRegistry(reg: Registry.Registry, ids: seq<RequestId>)
    requires |ids| == |Registry.Stored(reg)|
    ensures var (q, _) := StartQuery(reg.workers, Registry.Stored(reg), ids);
      && Follows(q, Registry.Stored(reg), ids)
      && forall i :: 0 <= i < |q| ==> (Listening(q[i]) <==> q[i].token in reg.workers)
  {
    StartQueryFollows(reg.workers, Registry.Stored(reg), ids);
  }
}
