/**
 * The messages exchanged between the supervisor and its worker processes,
 * and the JavaScript error values that the worker turns into replies.
 */
module Protocol {
  import opened Wrappers

  /** An opaque account credential; it is also the registry key. */
  type Token = string

  /** A correlation id: a JavaScript number (`Date.now()`, or `Date.now() + Math.random()`). */
  type RequestId = real

  /** The fields a command payload may carry; each one may be `undefined`. */
  datatype Payload = Payload(
    serverId: Option<string>,
    channelId: Option<string>,
    userId: Option<string>,
    message: Option<string>)

  const EmptyPayload := Payload(None, None, None, None)

  /** What a worker's message handler receives: a falsy value, or an envelope `{type, cmd, payload, requestId}`. */
  datatype Msg =
    | NoMsg
    | Envelope(kind: string, cmd: Option<string>, payload: Option<Payload>, requestId: RequestId)

  /** The command envelope the supervisor sends. */
  function Command(name: string, payload: Option<Payload>, id: RequestId): Msg {
    Envelope("cmd", Some(name), payload, id)
  }

  function StatusCommand(id: RequestId): Msg {
    Command("status", None, id)
  }

  function JoinCommand(serverId: string, channelId: string, id: RequestId): Msg {
    Command("join", Some(EmptyPayload.(serverId := Some(serverId), channelId := Some(channelId))), id)
  }

  function DisconnectCommand(id: RequestId): Msg {
    Command("disconnect", Some(EmptyPayload), id)
  }

  function SendMessageCommand(channelId: string, message: string, id: RequestId): Msg {
    Command("sendMessage", Some(EmptyPayload.(channelId := Some(channelId), message := Some(message))), id)
  }

  function SendDMCommand(userId: string, message: string, id: RequestId): Msg {
    Command("sendDM", Some(EmptyPayload.(userId := Some(userId), message := Some(message))), id)
  }

  /** A thrown JavaScript `Error` with its `name` and `message`. */
  datatype Fault = Fault(name: string, message: string)

  /** `String(err)`, as `Error.prototype.toString` renders it. */
  function Describe(f: Fault): (r: string)
    ensures f.name != "" ==> |f.name| <= |r| && r[..|f.name|] == f.name
    ensures |f.message| <= |r| && r[|r| - |f.message|..] == f.message
    ensures f.name != "" && f.message != "" ==> |r| == |f.name| + 2 + |f.message| && r[|f.name|..|f.name| + 2] == ": "
    ensures f.name == "" || f.message == "" ==> |r| == |f.name| + |f.message|
  {
    if f.name == "" then f.message
    else if f.message == "" then f.name
    else f.name + ": " + f.message
  }

  /** The error property access on a `null` client raises. */
  function ReadOfNull(property: string): Fault {
    Fault("TypeError", "Cannot read properties of null (reading '" + property + "')")
  }

  /** The error property access on `undefined` raises. */
  function ReadOfUndefined(property: string): Fault {
    Fault("TypeError", "Cannot read properties of undefined (reading '" + property + "')")
  }

  /** The error destructuring an `undefined` payload raises. */
  function DestructureUndefined(property: string): Fault {
    Fault("TypeError", "Cannot destructure property '" + property + "' of 'payload' as it is undefined.")
  }

  /** The `payload` of a reply envelope. */
  datatype ReplyPayload =
    | StatusInfo(
        ready: bool,
        username: Option<string>,
        displayName: Option<string>,
        inVoice: bool,
        serverId: Option<string>,
        channelId: Option<string>)
    | Succeeded              // { success: true }
    | Failed(error: string)  // { success: false, error }

  /** The log lines a worker emits; their coloured text is presentation only. */
  datatype LogKind =
    | NoToken | LoggedIn | LoginFailed
    | InvalidTarget | Joined | JoinFailed
    | NotConnected | Disconnected | NoConnection
    | MessageSent | MessageFailed | DMSent | DMFailed
    | UnknownCommand | Crashed

  /** Worker-to-supervisor messages. */
  datatype Upstream =
    | Reply(requestId: RequestId, payload: ReplyPayload)
    | Log(kind: LogKind)
}
