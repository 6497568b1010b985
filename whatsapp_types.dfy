/**
 * The data the WhatsApp push-channel orchestrator works on: session state, the flow graph's
 * blocks, channel-agnostic messages and actions, WhatsApp wire messages, the events the
 * orchestrator causes in the outside world, and the collaborators it calls.
 */
module WhatsappTypes {
  import opened Wrappers

  type BlockId = string

  /** `state.whatsappComponent`: the socket client that sends, and the recipient's phone. */
  datatype WhatsappComponent = WhatsappComponent(clientId: Option<string>, phone: Option<string>)

  /** The typing-emulation settings; only passed on to the typing estimator. */
  datatype TypingEmulation = TypingEmulation(enabled: bool, speed: nat, maxDelay: nat)

  datatype BlockType = WhatsappIntegration | OtherBlockType(name: string)

  /** Options of a WhatsApp integration block: both fields optional. */
  datatype WhatsappOptions = WhatsappOptions(phone: Option<string>, credentialsId: Option<string>)

  datatype Block = Block(id: BlockId, blockType: BlockType, options: Option<WhatsappOptions>)

  /** One flow graph of the queue; its groups' blocks are listed in group order. */
  datatype Typebot = Typebot(blocks: seq<Block>)

  datatype SessionState = SessionState(
    sessionId: Option<string>,
    currentBlockId: Option<BlockId>,
    typebotsQueue: seq<Typebot>,
    whatsappComponent: Option<WhatsappComponent>,
    typingEmulation: Option<TypingEmulation>,
    variables: map<string, string>)

  /** A channel-agnostic bubble; `content` stands for its text, media or menu payload. */
  datatype Message = Message(id: string, content: string)

  /** The input the flow waits for; `content` stands for its kind and options. */
  datatype Input = Input(id: string, content: string)

  datatype ActionKind = Wait(secondsToWaitFor: nat) | OtherAction(name: string)

  /** A client-side action; an absent `lastBubbleBlockId` means "before any message". */
  datatype ClientSideAction = ClientSideAction(
    kind: ActionKind,
    expectsDedicatedReply: bool,
    lastBubbleBlockId: Option<string>)

  datatype InteractiveBody = InteractiveBody(text: Option<string>)
  datatype Interactive = Interactive(text: Option<string>, body: Option<InteractiveBody>)

  /** A message in the WhatsApp socket wire format, by its `type`. */
  datatype WireMessage =
    | TextMessage(body: string)
    | InteractiveMessage(interactive: Option<Interactive>)
    | AudioMessage(link: string)
    | VideoMessage(link: string)
    | ImageMessage(link: string)

  /** What one call of the flow continuation engine returns. */
  datatype ChatResponse = ChatResponse(
    messages: seq<Message>,
    input: Option<Input>,
    clientSideActions: seq<ClientSideAction>,
    newSessionState: Option<SessionState>,
    visitedEdges: seq<string>,
    logs: seq<string>)

  /** The errors a collaborator can throw, told apart as the source's catch blocks do. */
  datatype Exception = HttpError(status: nat) | TrpcError(code: string) | OtherError(description: string)

  datatype SendResult = Accepted | Rejected(error: Exception)

  datatype EngineResult = Answered(response: ChatResponse) | Threw(error: Exception)

  /** Everything the orchestrator does to the outside world, in order. */
  datatype Event =
    | EngineCall(reply: Option<string>, state: SessionState, multipleIntegration: bool)
    | Save(sessionId: string, state: SessionState, input: Option<Input>, logs: seq<string>,
           clientSideActions: seq<ClientSideAction>, visitedEdges: seq<string>)
    | Delay(ms: nat)
    | Send(clientId: string, phone: string, message: WireMessage, result: SendResult)

  /**
   * The collaborators whose code is not part of this model. The socket send and the database
   * save also receive the position of their event in the trace, so that their answers may
   * depend on everything that happened before; the engine answers as a function of what it
   * is given.
   */
  datatype Env = Env(
    continueBotFlow: (Option<string>, SessionState, bool) -> EngineResult,
    sendSocketWhatsappMessage: (nat, string, string, WireMessage) -> SendResult,
    saveStateToDatabase: (nat, string, SessionState) -> Option<Exception>,
    convertMessageToWhatsappComponent: Message -> Option<WireMessage>,
    convertInputToWhatsAppComponent: Input -> seq<Option<WireMessage>>,
    computeTypingDuration: (string, Option<TypingEmulation>) -> nat)

  /** Why a turn or an auto-continuation stopped with an error. */
  datatype Fault =
    | ComponentNotConfigured
    | PhoneNotConfigured
    | EngineFailed(error: Exception)
    | SendFailed(error: Exception)
    | SaveFailed(error: Exception)
    | NoMessages
    | BlockNotFound(id: BlockId)

  /** `Unfinished`: the model stopped following restarts after its budget of re-entries. */
  datatype Outcome = Completed | Failed(fault: Fault) | Unfinished

  /** The finder the orchestrator uses to resolve a block id in the active flow graph. */
  function FindBlock(blocks: seq<Block>, id: BlockId): (r: Option<Block>)
    ensures r.Some? ==> r.value.id == id && r.value in blocks
    ensures r.None? <==> forall k :: 0 <= k < |blocks| ==> blocks[k].id != id
    ensures r.Some? ==> exists k :: 0 <= k < |blocks| && blocks[k] == r.value
                          && forall j :: 0 <= j < k ==> blocks[j].id != id
  {
    if blocks == [] then None
    else if blocks[0].id == id then Some(blocks[0])
    else
      var r := FindBlock(blocks[1..], id);
      assert forall k :: 1 <= k < |blocks| ==> blocks[k] == blocks[1..][k - 1];
      r
  }

  /** A block id looked up in the first flow graph of the queue; an empty queue finds nothing. */
  function GetBlockById(id: BlockId, typebotsQueue: seq<Typebot>): (r: Option<Block>)
    ensures r.Some? ==> |typebotsQueue| > 0 && r.value.id == id && r.value in typebotsQueue[0].blocks
    ensures r.None? <==> |typebotsQueue| == 0 || forall b :: b in typebotsQueue[0].blocks ==> b.id != id
  {
    if |typebotsQueue| == 0 then None else FindBlock(typebotsQueue[0].blocks, id)
  }
}
