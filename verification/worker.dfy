/**
 * One worker process: the session it wraps and its command dispatcher, as a
 * pure step `(WorkerState, Msg) -> (WorkerState, effects)`. The chat library's
 * calls that can fail (login, fetch, send, voice join) are decided by an
 * `Env` input instead of the network.
 */
module Worker {
  import opened Wrappers
  import opened Protocol
  import Seqs

  datatype User = User(id: string, username: string, globalName: Option<string>)

  datatype Channel = Channel(id: string, joinable: bool)

  datatype VoiceState = VoiceState(channelId: Option<string>)

  /** A guild with its channel cache and voice-state cache (keyed by user id). */
  datatype Guild = Guild(id: string, channels: map<string, Channel>, voiceStates: map<string, VoiceState>)

  /**
   * The chat client: the logged-in user (absent until a login succeeds) and
   * the guild cache in its iteration order; `get(id)` is the first guild with that id.
   */
  datatype Client = Client(user: Option<User>, guilds: seq<Guild>)

  /** The voice channel the worker last joined, as `{serverId, channelId}`. */
  datatype Voice = Voice(serverId: Option<string>, channelId: Option<string>)

  const NoVoice := Voice(None, None)

  /**
   * The worker's state: its credential (`null` when the argument was missing
   * or empty), the client (`null` until a login is attempted), `currentVoice`,
   * and the guild ids holding a live voice connection in the voice library.
   */
  datatype WorkerState = WorkerState(
    token: Option<string>,
    client: Option<Client>,
    currentVoice: Voice,
    connections: set<string>)

  /** How a login attempt ends. */
  datatype LoginOutcome = LoginOk(user: User, guilds: seq<Guild>) | LoginRejected(err: Fault)

  /** Which library call of a command, counted from 0, throws (if any). */
  datatype Io = AllOk | FailsAt(call: nat, err: Fault)

  /** The outcomes of the fallible library calls one message may make. */
  datatype Env = Env(login: LoginOutcome, joinFault: Option<Fault>, io: Io)

  /** What handling a message does: IPC to the supervisor, or a post on the platform. */
  datatype Effect =
    | Emit(m: Upstream)
    | Posted(channelId: Option<string>, content: Option<string>)
    | DirectMessaged(userId: Option<string>, content: Option<string>)

  /** How a command branch ends: with a reply payload, or by throwing. */
  datatype Completion = Normal(payload: ReplyPayload) | Abrupt(fault: Fault)

  /** A branch's new state, the effects it had before replying, and how it ended. */
  datatype Run = Run(state: WorkerState, effects: seq<Effect>, completion: Completion)

  /** JavaScript truthiness of an optional string. */
  predicate Truthy(o: Option<string>) {
    o.Some? && o.value != ""
  }

  /** `String(x)` of an optional string, as `+` coerces it. */
  function JsString(o: Option<string>): string {
    o.GetOr("undefined")
  }

  /** `!!(client && client.user)` */
  predicate IsReady(c: Option<Client>) {
    c.Some? && c.value.user.Some?
  }

  predicate IsReplyEffect(e: Effect) {
    e.Emit? && e.m.Reply?
  }

  /** The reply envelopes among some effects, in order. */
  function Replies(effects: seq<Effect>): seq<Effect> {
    Seqs.Filter(IsReplyEffect, effects)
  }

  /** None of the effects is a reply envelope. */
  predicate NoReplies(effects: seq<Effect>) {
    forall i :: 0 <= i < |effects| ==> !IsReplyEffect(effects[i])
  }

  /** The library call that throws within the first `n` calls, if one does. */
  function FailureWithin(io: Io, n: nat): Option<Fault> {
    if io.FailsAt? && io.call < n then Some(io.err) else None
  }

  // ---------------------------------------------------------------- login

  /** `safeLogin`: idle without a credential, otherwise a fresh client that logs in or not. */
  function SafeLogin(st: WorkerState, login: LoginOutcome): (r: (WorkerState, seq<Effect>))
    ensures r.0.token == st.token && r.0.currentVoice == st.currentVoice
    ensures r.0.connections == st.connections
    ensures st.token.None? ==> r.0 == st && r.1 == [Emit(Log(NoToken))]
    ensures st.token.Some? ==> r.0.client.Some? && (IsReady(r.0.client) <==> login.LoginOk?)
    ensures st.token.Some? && login.LoginRejected? ==> r.0.client == Some(Client(None, []))
  {
    if st.token.None? then (st, [Emit(Log(NoToken))])
    else
      match login
      case LoginOk(u, gs) => (st.(client := Some(Client(Some(u), gs))), [Emit(Log(LoggedIn))])
      case LoginRejected(_) => (st.(client := Some(Client(None, []))), [Emit(Log(LoginFailed))])
  }

  /** Worker start-up: `process.argv[2] || null`, then `safeLogin`. */
  function Boot(arg: Option<string>, login: LoginOutcome): (r: (WorkerState, seq<Effect>))
    ensures r.0.currentVoice == NoVoice && r.0.connections == {}
    ensures Truthy(arg) ==> r.0.token == arg
    ensures !Truthy(arg) ==> r.0.token.None? && r.0.client.None? && r.1 == [Emit(Log(NoToken))]
    ensures IsReady(r.0.client) <==> Truthy(arg) && login.LoginOk?
  {
    var token := if Truthy(arg) then arg else None;
    SafeLogin(WorkerState(token, None, NoVoice, {}), login)
  }

  /**
   * The lazy login of `join`: only when there is no client or it has no user;
   * afterwards the client is ready exactly when it was already, or a
   * credential exists and the login succeeds.
   */
  function LoginIfNeeded(st: WorkerState, login: LoginOutcome): (r: (WorkerState, seq<Effect>))
    ensures r.0.token == st.token && r.0.currentVoice == st.currentVoice && r.0.connections == st.connections
    ensures IsReady(st.client) ==> r == (st, [])
    ensures IsReady(r.0.client) <==> IsReady(st.client) || (st.token.Some? && login.LoginOk?)
  {
    if IsReady(st.client) then (st, []) else SafeLogin(st, login)
  }

  // --------------------------------------------------------------- status

  predicate InVoiceIn(g: Guild, userId: string) {
    userId in g.voiceStates && Truthy(g.voiceStates[userId].channelId)
  }

  /** The index of the first guild, in iteration order, where the user sits in a voice channel. */
  function FirstVoiceGuild(gs: seq<Guild>, userId: string): (r: Option<nat>)
    ensures r.Some? ==> r.value < |gs| && InVoiceIn(gs[r.value], userId)
    ensures r.Some? ==> forall j :: 0 <= j < r.value ==> !InVoiceIn(gs[j], userId)
    ensures r.None? ==> forall j :: 0 <= j < |gs| ==> !InVoiceIn(gs[j], userId)
  {
    if |gs| == 0 then None
    else if InVoiceIn(gs[0], userId) then Some(0)
    else
      match FirstVoiceGuild(gs[1..], userId)
      case None => None
      case Some(i) => Some(i + 1)
  }

  /** The `status` reply: readiness, identity, and the first voice channel found. */
  function StatusReport(client: Option<Client>): (p: ReplyPayload)
    ensures p.StatusInfo?
    ensures p.ready <==> IsReady(client)
    ensures !p.ready ==> p == StatusInfo(false, None, None, false, None, None)
    ensures p.ready ==>
      var u := client.value.user.value;
      && p.username == Some(u.username)
      && p.displayName == (if Truthy(u.globalName) then u.globalName else Some(u.username))
    ensures p.ready ==>
      var u := client.value.user.value;
      var gs := client.value.guilds;
      p.inVoice <==> exists i :: 0 <= i < |gs| && InVoiceIn(gs[i], u.id)
    ensures p.inVoice ==>
      var u := client.value.user.value;
      var gs := client.value.guilds;
      exists i :: 0 <= i < |gs| && InVoiceIn(gs[i], u.id)
        && (forall j :: 0 <= j < i ==> !InVoiceIn(gs[j], u.id))
        && p.serverId == Some(gs[i].id)
        && p.channelId == gs[i].voiceStates[u.id].channelId
    ensures !p.inVoice ==> p.serverId.None? && p.channelId.None?
  {
    if !IsReady(client) then StatusInfo(false, None, None, false, None, None)
    else
      var u := client.value.user.value;
      var gs := client.value.guilds;
      var display := if Truthy(u.globalName) then u.globalName else Some(u.username);
      match FirstVoiceGuild(gs, u.id)
      case None => StatusInfo(true, Some(u.username), display, false, None, None)
      case Some(i) =>
        StatusInfo(true, Some(u.username), display, true, Some(gs[i].id), gs[i].voiceStates[u.id].channelId)
  }

  // ----------------------------------------------------------------- join

  /** `client.guilds.cache.get(id)`: the first guild with that id. */
  function FindGuild(gs: seq<Guild>, id: Option<string>): (r: Option<Guild>)
    ensures r.Some? ==> r.value in gs && id == Some(r.value.id)
    ensures r.None? ==> forall i :: 0 <= i < |gs| ==> id != Some(gs[i].id)
  {
    if |gs| == 0 then None
    else if id == Some(gs[0].id) then Some(gs[0])
    else FindGuild(gs[1..], id)
  }

  /** The guild exists, holds the channel, and the channel accepts a voice join. */
  predicate JoinableTarget(c: Client, serverId: Option<string>, channelId: Option<string>) {
    match FindGuild(c.guilds, serverId)
    case None => false
    case Some(g) => channelId.Some? && channelId.value in g.channels && g.channels[channelId.value].joinable
  }

  /** The `join` branch. */
  function JoinVoice(st: WorkerState, payload: Option<Payload>, env: Env): (r: Run)
    ensures NoReplies(r.effects)
    ensures r.state.token == st.token
    ensures payload.None? ==> r == Run(st, [], Abrupt(DestructureUndefined("serverId")))
    ensures r.completion != Normal(Succeeded) ==>
      r.state.currentVoice == st.currentVoice && r.state.connections == st.connections
    ensures r.completion == Normal(Succeeded) ==>
      && payload.Some? && payload.value.serverId.Some?
      && r.state.currentVoice == Voice(payload.value.serverId, payload.value.channelId)
      && r.state.connections == st.connections + {payload.value.serverId.value}
    ensures payload.Some? ==>
      var s1 := LoginIfNeeded(st, env.login).0;
      var p := payload.value;
      && r.state.client == s1.client
      && (s1.client.None? ==> r.completion == Abrupt(ReadOfNull("guilds")))
      && (s1.client.Some? && !JoinableTarget(s1.client.value, p.serverId, p.channelId) ==>
            r.completion == Normal(Failed("Invalid guild/channel")))
      && (s1.client.Some? && JoinableTarget(s1.client.value, p.serverId, p.channelId) ==>
            r.completion == (if env.joinFault.None? then Normal(Succeeded) else Normal(Failed(env.joinFault.value.message))))
  {
    if payload.None? then Run(st, [], Abrupt(DestructureUndefined("serverId")))
    else
      var serverId := payload.value.serverId;
      var channelId := payload.value.channelId;
      var (s1, logs) := LoginIfNeeded(st, env.login);
      if s1.client.None? then Run(s1, logs, Abrupt(ReadOfNull("guilds")))
      else if !JoinableTarget(s1.client.value, serverId, channelId) then
        Run(s1, logs + [Emit(Log(InvalidTarget))], Normal(Failed("Invalid guild/channel")))
      else
        var guild := FindGuild(s1.client.value.guilds, serverId).value;
        match env.joinFault
        case Some(f) => Run(s1, logs + [Emit(Log(JoinFailed))], Normal(Failed(f.message)))
        case None =>
          Run(s1.(currentVoice := Voice(serverId, channelId), connections := s1.connections + {guild.id}),
              logs + [Emit(Log(Joined))], Normal(Succeeded))
  }

  // ----------------------------------------------------------- disconnect

  /** The `disconnect` branch. */
  function DisconnectVoice(st: WorkerState, payload: Option<Payload>): (r: Run)
    ensures NoReplies(r.effects)
    ensures r.state.token == st.token && r.state.client == st.client
    ensures r.completion.Normal?
    ensures
      var target := if payload.Some? && Truthy(payload.value.serverId) then payload.value.serverId
                    else st.currentVoice.serverId;
      && (!Truthy(target) ==> r.state == st && r.completion == Normal(Failed("Not connected")))
      && (Truthy(target) && target.value !in st.connections ==>
            r.state == st && r.completion == Normal(Failed("No connection found")))
      && (Truthy(target) && target.value in st.connections ==>
            && r.completion == Normal(Succeeded)
            && r.state.currentVoice == NoVoice
            && r.state.connections == st.connections - {target.value})
  {
    var target := if payload.Some? && Truthy(payload.value.serverId) then payload.value.serverId
                  else st.currentVoice.serverId;
    if !Truthy(target) then Run(st, [Emit(Log(NotConnected))], Normal(Failed("Not connected")))
    else if target.value in st.connections then
      Run(st.(connections := st.connections - {target.value}, currentVoice := NoVoice),
          [Emit(Log(Disconnected))], Normal(Succeeded))
    else Run(st, [Emit(Log(NoConnection))], Normal(Failed("No connection found")))
  }

  // ------------------------------------------------------------ messaging

  /** The three texts `sendMessage` posts, in order. */
  function ChannelTexts(message: Option<string>): seq<Option<string>> {
    [message, Some(JsString(message) + "1"), Some(JsString(message) + "2")]
  }

  /** The `sendMessage` branch: fetch the channel (call 0), then three sends (calls 1 to 3). */
  function SendToChannel(st: WorkerState, payload: Option<Payload>, env: Env): (r: Run)
    ensures r.state == st
    ensures NoReplies(r.effects)
    ensures payload.None? ==> r.effects == [] && r.completion == Abrupt(DestructureUndefined("channelId"))
    ensures payload.Some? ==> r.completion.Normal?
    ensures r.completion == Normal(Succeeded) <==>
      payload.Some? && st.client.Some? && FailureWithin(env.io, 4).None?
    ensures r.completion == Normal(Succeeded) ==>
      var p := payload.value;
      var texts := ChannelTexts(p.message);
      r.effects == [Posted(p.channelId, texts[0]), Posted(p.channelId, texts[1]),
                    Posted(p.channelId, texts[2]), Emit(Log(MessageSent))]
    ensures payload.Some? && st.client.None? ==>
      r.completion == Normal(Failed(ReadOfNull("channels").message))
    ensures payload.Some? && st.client.Some? && FailureWithin(env.io, 4).Some? ==>
      && r.completion == Normal(Failed(env.io.err.message))
      && |r.effects| == (if env.io.call == 0 then 0 else env.io.call - 1) + 1
      && forall i :: 0 <= i < |r.effects| - 1 ==>
           r.effects[i] == Posted(payload.value.channelId, ChannelTexts(payload.value.message)[i])
  {
    if payload.None? then Run(st, [], Abrupt(DestructureUndefined("channelId")))
    else
      var channelId := payload.value.channelId;
      var texts := ChannelTexts(payload.value.message);
      if st.client.None? then
        Run(st, [Emit(Log(MessageFailed))], Normal(Failed(ReadOfNull("channels").message)))
      else
        match FailureWithin(env.io, 4)
        case None =>
          Run(st, [Posted(channelId, texts[0]), Posted(channelId, texts[1]), Posted(channelId, texts[2]),
                   Emit(Log(MessageSent))], Normal(Succeeded))
        case Some(f) =>
          var sent := if env.io.call == 0 then 0 else env.io.call - 1;
          var posts := seq(sent, i requires 0 <= i < sent => Posted(channelId, texts[i]));
          Run(st, posts + [Emit(Log(MessageFailed))], Normal(Failed(f.message)))
  }

  /** The `sendDM` branch: fetch the user (call 0), then one send (call 1). */
  function SendToUser(st: WorkerState, payload: Option<Payload>, env: Env): (r: Run)
    ensures r.state == st
    ensures NoReplies(r.effects)
    ensures payload.None? ==> r.effects == [] && r.completion == Abrupt(DestructureUndefined("userId"))
    ensures payload.Some? ==> r.completion.Normal?
    ensures r.completion == Normal(Succeeded) <==>
      payload.Some? && st.client.Some? && FailureWithin(env.io, 2).None?
    ensures r.completion == Normal(Succeeded) ==>
      r.effects == [DirectMessaged(payload.value.userId, payload.value.message), Emit(Log(DMSent))]
    ensures payload.Some? && st.client.None? ==>
      r.completion == Normal(Failed(ReadOfNull("users").message))
    ensures payload.Some? && st.client.Some? && FailureWithin(env.io, 2).Some? ==>
      && r.completion == Normal(Failed(env.io.err.message))
      && r.effects == [Emit(Log(DMFailed))]
  {
    if payload.None? then Run(st, [], Abrupt(DestructureUndefined("userId")))
    else if st.client.None? then
      Run(st, [Emit(Log(DMFailed))], Normal(Failed(ReadOfNull("users").message)))
    else
      match FailureWithin(env.io, 2)
      case None =>
        Run(st, [DirectMessaged(payload.value.userId, payload.value.message), Emit(Log(DMSent))], Normal(Succeeded))
      case Some(f) => Run(st, [Emit(Log(DMFailed))], Normal(Failed(f.message)))
  }

  // ------------------------------------------------------------- dispatch

  predicate IsCommand(msg: Msg) {
    msg.Envelope? && msg.kind == "cmd"
  }

  /** The try-block of the message handler: one branch per command name. */
  function Execute(st: WorkerState, cmd: Option<string>, payload: Option<Payload>, env: Env): (r: Run)
    ensures NoReplies(r.effects)
    ensures r.state.token == st.token
  {
    if cmd == Some("status") then Run(st, [], Normal(StatusReport(st.client)))
    else if cmd == Some("join") then JoinVoice(st, payload, env)
    else if cmd == Some("disconnect") then DisconnectVoice(st, payload)
    else if cmd == Some("sendMessage") then SendToChannel(st, payload, env)
    else if cmd == Some("sendDM") then SendToUser(st, payload, env)
    else Run(st, [Emit(Log(UnknownCommand))], Normal(Failed("Unknown command")))
  }

  /** The worker's reply payload for a completed branch; the outer `catch` turns a thrown error into `String(err)`. */
  function ReplyOf(c: Completion): ReplyPayload {
    match c
    case Normal(p) => p
    case Abrupt(f) => Failed(Describe(f))
  }

  /** The effects that end a command: a logged error if one was thrown, then the reply. */
  function Conclude(c: Completion, id: RequestId): seq<Effect> {
    (if c.Abrupt? then [Emit(Log(Crashed))] else []) + [Emit(Reply(id, ReplyOf(c)))]
  }

  /** A concluding reply is the only reply among the concluding effects, and comes last. */
  lemma ConcludeReplies(c: Completion, id: RequestId)
    ensures var tail := Conclude(c, id);
      && |tail| >= 1
      && Replies(tail) == [tail[|tail| - 1]]
      && tail[|tail| - 1] == Emit(Reply(id, ReplyOf(c)))
  {
    var tail := Conclude(c, id);
    if c.Abrupt? {
      assert tail == [tail[0]] + [tail[1]];
      Seqs.FilterAppend(IsReplyEffect, [tail[0]], [tail[1]]);
    }
  }

  /** Effects without replies contribute nothing to the replies of a longer run. */
  lemma RepliesAfterQuiet(a: seq<Effect>, b: seq<Effect>)
    requires NoReplies(a)
    ensures Replies(a + b) == Replies(b)
  {
    Seqs.FilterAppend(IsReplyEffect, a, b);
    Seqs.FilterNone(IsReplyEffect, a);
  }

  /**
   * `process.on("message")`: anything but a `"cmd"` envelope is ignored;
   * a command gets exactly one reply, carrying its request id, as its last effect.
   */
  function Dispatch(st: WorkerState, msg: Msg, env: Env): (r: (WorkerState, seq<Effect>))
    ensures !IsCommand(msg) ==> r == (st, [])
    ensures IsCommand(msg) ==>
      && |r.1| >= 1
      && Replies(r.1) == [r.1[|r.1| - 1]]
      && r.1[|r.1| - 1] == Emit(Reply(msg.requestId, ReplyOf(Execute(st, msg.cmd, msg.payload, env).completion)))
    ensures IsCommand(msg) ==> r.0 == Execute(st, msg.cmd, msg.payload, env).state
  {
    if !IsCommand(msg) then (st, [])
    else
      var run := Execute(st, msg.cmd, msg.payload, env);
      var tail := Conclude(run.completion, msg.requestId);
      ConcludeReplies(run.completion, msg.requestId);
      RepliesAfterQuiet(run.effects, tail);
      (run.state, run.effects + tail)
  }

  // ------------------------------------------------------- dispatch facts

  /** `status` answers from the current state and changes nothing. */
  lemma StatusIsReadOnly(st: WorkerState, payload: Option<Payload>, id: RequestId, env: Env)
    ensures var r := Dispatch(st, Envelope("cmd", Some("status"), payload, id), env);
      && r.0 == st
      && r.1 == [Emit(Reply(id, StatusReport(st.client)))]
  {
    var msg := Envelope("cmd", Some("status"), payload, id);
    var r := Dispatch(st, msg, env);
    assert Execute(st, msg.cmd, msg.payload, env) == Run(st, [], Normal(StatusReport(st.client)));
    assert r.1 == [] + [Emit(Reply(id, StatusReport(st.client)))];
  }

  /**
   * An unrecognised command name is answered with "Unknown command" and leaves
   * the worker as it was, so a following `status` reports exactly what it would have.
   */
  lemma UnknownCommandIsHarmless(st: WorkerState, cmd: Option<string>, payload: Option<Payload>,
                                 id: RequestId, env: Env, next: RequestId, env': Env)
    requires cmd !in {Some("status"), Some("join"), Some("disconnect"), Some("sendMessage"), Some("sendDM")}
    ensures var r := Dispatch(st, Envelope("cmd", cmd, payload, id), env);
      && r.0 == st
      && r.1 == [Emit(Log(UnknownCommand)), Emit(Reply(id, Failed("Unknown command")))]
      && Dispatch(r.0, StatusCommand(next), env').1 == [Emit(Reply(next, StatusReport(st.client)))]
  {
    var msg := Envelope("cmd", cmd, payload, id);
    assert Execute(st, cmd, payload, env) == Run(st, [Emit(Log(UnknownCommand))], Normal(Failed("Unknown command")));
    StatusIsReadOnly(st, None, next, env');
  }

  /**
   * A worker started without a credential never gets a client, so `join`
   * throws on the null client and the outer `catch` replies with `String(err)`,
   * "TypeError: Cannot read properties of null (reading 'guilds')".
   */
  lemma JoinWithoutCredentialFails(st: WorkerState, p: Payload, id: RequestId, env: Env)
    requires st.token.None? && st.client.None?
    ensures var r := Dispatch(st, Envelope("cmd", Some("join"), Some(p), id), env);
      && r.0 == st
      && r.1[|r.1| - 1] == Emit(Reply(id, Failed(Describe(ReadOfNull("guilds")))))
  {
    var run := JoinVoice(st, Some(p), env);
    assert run.completion == Abrupt(ReadOfNull("guilds"));
  }
}
