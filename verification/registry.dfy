/**
 * The supervisor's worker registry: the credential file, the map from token
 * to worker handle, and the operations that start, stop and address workers.
 * Process creation, killing and IPC sends are returned as effects.
 */
module Registry {
  import opened Wrappers
  import opened Protocol
  import TokenStore
  import Seqs

  /** A forked worker process, identified by its process number. */
  datatype Handle = Handle(pid: nat)

  /** What a supervisor operation does outside its own state. */
  datatype Effect =
    | Spawn(token: Token, h: Handle)   // fork worker.js with the token as argument
    | Kill(h: Handle)                  // worker.kill()
    | Deliver(h: Handle, msg: Msg)     // worker.send(msg)

  /** The credential file, the live registry, and the next unused process number. */
  datatype Registry = Registry(file: Option<string>, workers: map<Token, Handle>, nextPid: nat)

  /** The stored list, as `loadTokens` reads it on every operation. */
  function Stored(reg: Registry): seq<Token> {
    TokenStore.Load(reg.file)
  }

  /** Every handle is one already issued, and no two tokens share a handle. */
  ghost predicate Valid(reg: Registry) {
    && (forall t :: t in reg.workers ==> reg.workers[t].pid < reg.nextPid)
    && (forall t, u :: t in reg.workers && u in reg.workers && t != u ==> reg.workers[t] != reg.workers[u])
  }

  /** `startWorker`: a no-op for a token that has a handle, otherwise a fresh worker. */
  function StartWorker(reg: Registry, t: Token): (r: (Registry, seq<Effect>))
    ensures t in r.0.workers && r.0.file == reg.file && reg.nextPid <= r.0.nextPid
    ensures t in reg.workers ==> r == (reg, [])
    ensures t !in reg.workers ==> r.1 == [Spawn(t, r.0.workers[t])]
    ensures t !in reg.workers && Valid(reg) ==> forall u :: u in reg.workers ==> reg.workers[u] != r.0.workers[t]
    ensures forall u :: u != t ==> (u in r.0.workers <==> u in reg.workers)
    ensures forall u :: u != t && u in reg.workers ==> r.0.workers[u] == reg.workers[u]
    ensures Valid(reg) ==> Valid(r.0)
  {
    if t in reg.workers then (reg, [])
    else
      var h := Handle(reg.nextPid);
      (reg.(workers := reg.workers[t := h], nextPid := reg.nextPid + 1), [Spawn(t, h)])
  }

  /** Starting a worker twice leaves one handle for the token and spawns once. */
  lemma StartWorkerIdempotent(reg: Registry, t: Token)
    ensures var (r1, out1) := StartWorker(reg, t);
      && StartWorker(r1, t) == (r1, [])
      && |out1| <= 1
  {
  }

  /**
   * The exit handler as written: it deletes whatever entry the token has,
   * whichever process exited.
   */
  function OnExitAsWritten(reg: Registry, t: Token): (r: Registry)
    ensures t !in r.workers && r.file == reg.file && r.nextPid == reg.nextPid
    ensures forall u :: u != t ==> (u in r.workers <==> u in reg.workers)
    ensures forall u :: u != t && u in reg.workers ==> r.workers[u] == reg.workers[u]
  {
    reg.(workers := reg.workers - {t})
  }

  /**
   * The exit handler of process `h`, started for token `t`: it removes the
   * token's entry only while that entry is still `h`.
   */
  function OnExit(reg: Registry, t: Token, h: Handle): (r: Registry)
    ensures r.file == reg.file && r.nextPid == reg.nextPid
    ensures t in r.workers <==> t in reg.workers && reg.workers[t] != h
    ensures forall u :: u in r.workers ==> u in reg.workers && r.workers[u] == reg.workers[u]
    ensures forall u :: u != t && u in reg.workers ==> u in r.workers
    ensures Valid(reg) ==> Valid(r)
  {
    if t in reg.workers && reg.workers[t] == h then reg.(workers := reg.workers - {t}) else reg
  }

  /**
   * `addToken`: an absent token is appended to the file and gets a worker;
   * a stored token changes nothing.
   */
  function AddToken(reg: Registry, t: Token): (r: (Registry, seq<Effect>))
    ensures t in Stored(reg) ==> r == (reg, [])
    ensures t !in Stored(reg) ==>
      && t in r.0.workers
      && r.1 == (if t in reg.workers then [] else [Spawn(t, r.0.workers[t])])
    ensures r.0.file == (if t in Stored(reg) then reg.file else Some(TokenStore.Save(TokenStore.WithToken(Stored(reg), t))))
    ensures reg.nextPid <= r.0.nextPid
    ensures forall u :: u != t ==> (u in r.0.workers <==> u in reg.workers)
    ensures forall u :: u != t && u in reg.workers ==> r.0.workers[u] == reg.workers[u]
    ensures Valid(reg) ==> Valid(r.0)
  {
    var ts := Stored(reg);
    if t in ts then (reg, [])
    else
      StartWorker(reg.(file := Some(TokenStore.Save(TokenStore.WithToken(ts, t)))), t)
  }

  /**
   * A storable token that `addToken` accepts ends up last in the stored list,
   * behind the earlier tokens in their order; a list without duplicates stays so.
   */
  lemma AddTokenAppends(reg: Registry, t: Token)
    requires TokenStore.Storable(t)
    ensures var r := AddToken(reg, t).0;
      && (t !in Stored(reg) ==> Stored(r) == Stored(reg) + [t])
      && (TokenStore.NoDuplicates(Stored(reg)) ==> TokenStore.NoDuplicates(Stored(r)))
  {
    var ts := Stored(reg);
    if t !in ts {
      assert TokenStore.WithToken(ts, t) == ts + [t];
      TokenStore.LoadAfterSave(ts + [t]);
    }
  }

  /**
   * `removeToken`: with a non-empty stored list, every occurrence of the token
   * leaves the file and its worker (if any) is killed and forgotten; with an
   * empty list nothing happens.
   */
  function RemoveToken(reg: Registry, t: Token): (r: (Registry, seq<Effect>))
    ensures |Stored(reg)| == 0 ==> r == (reg, [])
    ensures |Stored(reg)| > 0 ==>
      && Stored(r.0) == TokenStore.WithoutToken(Stored(reg), t)
      && t !in r.0.workers
      && r.1 == (if t in reg.workers then [Kill(reg.workers[t])] else [])
    ensures r.0.nextPid == reg.nextPid
    ensures forall u :: u in r.0.workers ==> u in reg.workers && r.0.workers[u] == reg.workers[u]
    ensures |Stored(reg)| > 0 ==> forall u :: u != t && u in reg.workers ==> u in r.0.workers
    ensures Valid(reg) ==> Valid(r.0)
  {
    var ts := Stored(reg);
    if |ts| == 0 then (reg, [])
    else
      var ts' := TokenStore.WithoutToken(ts, t);
      Seqs.SubseqMembers(ts', ts);
      TokenStore.LoadAfterSave(ts');
      var saved := reg.(file := Some(TokenStore.Save(ts')));
      if t in reg.workers then (saved.(workers := reg.workers - {t}), [Kill(reg.workers[t])])
      else (saved, [])
  }

  /**
   * A token with no printable character is given a worker but never reaches
   * the file: bulk commands, which walk the stored list, never address it and
   * `removeToken`, which offers only stored tokens, cannot stop it.
   */
  lemma BlankTokenIsNeverStored(reg: Registry, t: Token)
    requires !TokenStore.IsEntry(t) && t !in Stored(reg)
    ensures var r := AddToken(reg, t).0;
      t in r.workers && t !in Stored(r)
  {
  }

  /** Removing a token and adding it back yields a handle unlike any before. */
  lemma ReAddGivesFreshHandle(reg: Registry, t: Token)
    requires Valid(reg) && t in reg.workers && t in Stored(reg)
    ensures var r1 := RemoveToken(reg, t).0;
      var r2 := AddToken(r1, t).0;
      t in r2.workers && r2.workers[t].pid >= reg.nextPid
  {
    var r1 := RemoveToken(reg, t).0;
    assert t !in Stored(r1);
  }

  /**
   * A stale exit: after `removeToken` and `addToken` of the same token, the
   * exit notice of the killed process, as written, deletes the successor's
   * entry although the successor still runs; the guarded handler keeps it.
   */
  lemma StaleExitDropsSuccessor(reg: Registry, t: Token)
    requires Valid(reg) && t in reg.workers && t in Stored(reg)
    ensures var old_h := reg.workers[t];
      var (r1, kills) := RemoveToken(reg, t);
      var (r2, spawns) := AddToken(r1, t);
      && kills == [Kill(old_h)]
      && spawns == [Spawn(t, r2.workers[t])] && r2.workers[t] != old_h
      && t !in OnExitAsWritten(r2, t).workers
      && t in OnExit(r2, t, old_h).workers && OnExit(r2, t, old_h).workers[t] == r2.workers[t]
  {
    var r1 := RemoveToken(reg, t).0;
    assert t !in Stored(r1);
  }

  /** The predicate "has a registry entry", for filtering the stored list. */
  function HasHandle(workers: map<Token, Handle>): Token -> bool {
    t => t in workers
  }

  /**
   * `out` sends `msg` once per occurrence, in the stored list, of a token that
   * has a handle, in stored order, each to that token's handle.
   */
  ghost predicate FannedOut(reg: Registry, msg: Msg, out: seq<Effect>) {
    var targets := Seqs.Filter(HasHandle(reg.workers), Stored(reg));
    && |out| == |targets|
    && forall i :: 0 <= i < |out| ==> targets[i] in reg.workers && out[i] == Deliver(reg.workers[targets[i]], msg)
  }

  /**
   * `tokens.forEach(t => workers[t]?.send(msg))`: one delivery per element of
   * `ts` that has a handle, in order.
   */
  method FanOut(workers: map<Token, Handle>, ts: seq<Token>, msg: Msg) returns (out: seq<Effect>)
    ensures var targets := Seqs.Filter(HasHandle(workers), ts);
      && |out| == |targets|
      && forall i :: 0 <= i < |out| ==> targets[i] in workers && out[i] == Deliver(workers[targets[i]], msg)
  {
    out := [];
    var i := 0;
    while i < |ts|
      invariant 0 <= i <= |ts|
      invariant var done := Seqs.Filter(HasHandle(workers), ts[..i]);
        && |out| == |done|
        && forall k :: 0 <= k < |out| ==> done[k] in workers && out[k] == Deliver(workers[done[k]], msg)
    {
      var t := ts[i];
      assert ts[..i + 1] == ts[..i] + [t];
      Seqs.FilterAppend(HasHandle(workers), ts[..i], [t]);
      if t in workers {
        out := out + [Deliver(workers[t], msg)];
      }
      i := i + 1;
    }
    assert ts[..|ts|] == ts;
  }

  /**
   * The loop shared by the bulk commands, over the stored list. Tokens without
   * a handle are skipped, and a handle whose token is not stored receives nothing.
   */
  method Broadcast(reg: Registry, msg: Msg) returns (out: seq<Effect>)
    ensures FannedOut(reg, msg, out)
    ensures forall i :: 0 <= i < |out| ==> out[i].Deliver? && out[i].msg == msg
    ensures Valid(reg) ==>
      forall i, u :: 0 <= i < |out| && u in reg.workers && u !in Stored(reg) ==> out[i].h != reg.workers[u]
  {
    var ts := Stored(reg);
    out := FanOut(reg.workers, ts, msg);
    var targets := Seqs.Filter(HasHandle(reg.workers), ts);
    Seqs.SubseqMembers(targets, ts);
  }

  /** `joinAllTokens`: a `join` command to every stored token that has a worker. */
  method JoinAllTokens(reg: Registry, serverId: string, channelId: string, id: RequestId) returns (out: seq<Effect>)
    ensures FannedOut(reg, JoinCommand(serverId, channelId, id), out)
  {
    out := Broadcast(reg, JoinCommand(serverId, channelId, id));
  }

  /** `leaveAllTokens`: a `disconnect` command with an empty payload to every stored token that has a worker. */
  method LeaveAllTokens(reg: Registry, id: RequestId) returns (out: seq<Effect>)
    ensures FannedOut(reg, DisconnectCommand(id), out)
  {
    out := Broadcast(reg, DisconnectCommand(id));
  }

  /** `sendMessageToChannel`: a `sendMessage` command to every stored token that has a worker. */
  method SendMessageToChannel(reg: Registry, channelId: string, message: string, id: RequestId) returns (out: seq<Effect>)
    ensures FannedOut(reg, SendMessageCommand(channelId, message, id), out)
  {
    out := Broadcast(reg, SendMessageCommand(channelId, message, id));
  }

  /** `sendMessageToUser`: a `sendDM` command to every stored token that has a worker. */
  method SendMessageToUser(reg: Registry, userId: string, message: string, id: RequestId) returns (out: seq<Effect>)
    ensures FannedOut(reg, SendDMCommand(userId, message, id), out)
  {
    out := Broadcast(reg, SendDMCommand(userId, message, id));
  }

  /** `tokenControl`: one command to one token's worker, dropped when it has none. */
  function SendTo(reg: Registry, t: Token, msg: Msg): (out: seq<Effect>)
    ensures |out| <= 1
    ensures |out| == 1 <==> t in reg.workers
    ensures |out| == 1 ==> out[0] == Deliver(reg.workers[t], msg)
  {
    if t in reg.workers then [Deliver(reg.workers[t], msg)] else []
  }

  /** `ts.forEach(startWorker)`: one fresh worker per distinct token, in first-occurrence order. */
  method StartAll(reg0: Registry, ts: seq<Token>) returns (reg: Registry, out: seq<Effect>)
    requires Valid(reg0) && reg0.workers == map[]
    ensures reg.file == reg0.file && Valid(reg)
    ensures forall t :: t in reg.workers <==> t in ts
    ensures |out| == |reg.workers|
    ensures forall i :: 0 <= i < |out| ==> out[i].Spawn? && out[i].token in reg.workers && out[i].h == reg.workers[out[i].token]
    ensures forall i, j :: 0 <= i < j < |out| ==> out[i].token != out[j].token
  {
    reg := reg0;
    out := [];
    var i := 0;
    while i < |ts|
      invariant 0 <= i <= |ts|
      invariant reg.file == reg0.file && Valid(reg)
      invariant forall j :: 0 <= j < i ==> ts[j] in reg.workers
      invariant forall t :: t in reg.workers ==> t in ts
      invariant |out| == |reg.workers|
      invariant forall k :: 0 <= k < |out| ==> out[k].Spawn? && out[k].token in reg.workers && out[k].h == reg.workers[out[k].token]
      invariant forall k, j :: 0 <= k < j < |out| ==> out[k].token != out[j].token
    {
      var t := ts[i];
      var step := StartWorker(reg, t);
      if t !in reg.workers {
        assert step.0.workers == reg.workers[t := step.0.workers[t]];
      }
      reg, out := step.0, out + step.1;
      i := i + 1;
    }
  }

  /** Start-up: `loadTokens().forEach(startWorker)` from an empty registry. */
  method Boot(file: Option<string>) returns (reg: Registry, out: seq<Effect>)
    ensures reg.file == file && Valid(reg)
    ensures forall t :: t in reg.workers <==> t in TokenStore.Load(file)
    ensures |out| == |reg.workers|
    ensures forall i :: 0 <= i < |out| ==> out[i].Spawn? && out[i].token in reg.workers && out[i].h == reg.workers[out[i].token]
    ensures forall i, j :: 0 <= i < j < |out| ==> out[i].token != out[j].token
  {
    reg, out := StartAll(Registry(file, map[], 0), TokenStore.Load(file));
  }
}
