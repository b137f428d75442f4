/** The chat with one peer (project/src/components/messages/Messages.js):
    connection flags driven by socket events, the incoming-message filter,
    the send guard and the two halves of a send, and the history load. */
module Messages {
  import opened Wrappers
  import opened Domain
  import opened Seqs
  import opened Strings

  const ReconnectingError: string := "Connection error. Trying to reconnect..."
  const SocketError: string := "Connection error. Please try again later."
  const LoadFailed: string := "Failed to load messages. Please try again later."
  const SendFailed: string := "Failed to send message. Please try again."

  /** A message belongs to the chat with `peer` when the peer sent it or
      is its recipient. */
  predicate Involves(peer: string, m: Message)
  {
    m.senderId == peer || m.recipientId == peer
  }

  /** The list after a socket `message` event carrying `m`. */
  function AcceptIncoming(ms: seq<Message>, m: Message, peer: string): (r: seq<Message>)
    ensures Involves(peer, m) ==> r == ms + [m]
    ensures !Involves(peer, m) ==> r == ms
  {
    if Involves(peer, m) then ms + [m] else ms
  }

  /** The list after a run of `message` events, one at a time. */
  function ReceiveAll(ms: seq<Message>, events: seq<Message>, peer: string): seq<Message>
    decreases |events|
  {
    if events == [] then ms
    else ReceiveAll(AcceptIncoming(ms, events[0], peer), events[1..], peer)
  }

  /** Whatever arrives, exactly the messages involving the peer are added,
      at the end and in arrival order. */
  lemma {:induction false} ReceiveAllAppendsInvolved(ms: seq<Message>, events: seq<Message>, peer: string)
    ensures ReceiveAll(ms, events, peer) == ms + Filter(events, m => Involves(peer, m))
    decreases |events|
  {
    if events != [] {
      ReceiveAllAppendsInvolved(AcceptIncoming(ms, events[0], peer), events[1..], peer);
      if Involves(peer, events[0]) {
        assert ms + [events[0]] + Filter(events[1..], m => Involves(peer, m))
          == ms + ([events[0]] + Filter(events[1..], m => Involves(peer, m)));
      }
    }
  }

  /** `!newMessage.trim() || sending || !isConnected`: the send handler
      returns early. */
  predicate SendRejected(newMessage: string, sending: bool, isConnected: bool)
  {
    Trim(newMessage) == "" || sending || !isConnected
  }

  /** The send button's `disabled` attribute. */
  predicate SendButtonDisabled(newMessage: string, isConnected: bool, sending: bool)
  {
    Trim(newMessage) == "" || !isConnected || sending
  }

  /** The button is disabled exactly when the handler would reject, and a
      blank input is one made of whitespace only. */
  lemma SendButtonMatchesGuard(newMessage: string, sending: bool, isConnected: bool)
    ensures SendButtonDisabled(newMessage, isConnected, sending) <==> SendRejected(newMessage, sending, isConnected)
    ensures SendRejected(newMessage, sending, isConnected) <==>
      (forall i :: 0 <= i < |newMessage| ==> IsWhitespace(newMessage[i])) || sending || !isConnected
  {
    TrimEmptyIff(newMessage);
  }

  /** How far the history load (`fetchData`) has got: not running, waiting
      for the recipient request, or waiting for the history request. */
  datatype LoadStage = Idle | AwaitingRecipient | AwaitingHistory

  /** The page's state for the peer `recipientId` taken from the route. */
  class ChatChannel {
    const recipientId: string
    var messages: seq<Message>
    var newMessage: string
    var recipient: Option<User>
    var loading: bool
    var error: Option<string>
    var sending: bool
    var isConnected: bool
    var stage: LoadStage

    constructor (peer: string)
      ensures recipientId == peer && messages == [] && newMessage == "" && recipient == None
      ensures loading && error == None && !sending && !isConnected && stage == Idle
    {
      recipientId := peer;
      messages := [];
      newMessage := "";
      recipient := None;
      loading := true;
      error := None;
      sending := false;
      isConnected := false;
      stage := Idle;
    }

    /** The `connect` event. */
    method OnConnect()
      modifies this
      ensures isConnected && error == None
      ensures messages == old(messages) && newMessage == old(newMessage) && sending == old(sending)
      ensures recipient == old(recipient) && loading == old(loading) && stage == old(stage)
    {
      isConnected := true;
      error := None;
    }

    /** The `connect_error` event. */
    method OnConnectError()
      modifies this
      ensures !isConnected && error == Some(ReconnectingError)
      ensures messages == old(messages) && newMessage == old(newMessage) && sending == old(sending)
      ensures recipient == old(recipient) && loading == old(loading) && stage == old(stage)
    {
      isConnected := false;
      error := Some(ReconnectingError);
    }

    /** The `disconnect` event: the error, if any, stays. */
    method OnDisconnect()
      modifies this
      ensures !isConnected && error == old(error)
      ensures messages == old(messages) && newMessage == old(newMessage) && sending == old(sending)
      ensures recipient == old(recipient) && loading == old(loading) && stage == old(stage)
    {
      isConnected := false;
    }

    /** The socket's `error` event: the connected flag stays. */
    method OnSocketError()
      modifies this
      ensures isConnected == old(isConnected) && error == Some(SocketError)
      ensures messages == old(messages) && newMessage == old(newMessage) && sending == old(sending)
      ensures recipient == old(recipient) && loading == old(loading) && stage == old(stage)
    {
      error := Some(SocketError);
    }

    /** The socket's `message` event; it may arrive at any time, a history
        load in progress included. */
    method OnMessage(m: Message)
      modifies this
      ensures messages == AcceptIncoming(old(messages), m, recipientId)
      ensures newMessage == old(newMessage) && error == old(error)
      ensures isConnected == old(isConnected) && sending == old(sending)
      ensures recipient == old(recipient) && loading == old(loading) && stage == old(stage)
    {
      if m.senderId == recipientId || m.recipientId == recipientId {
        messages := messages + [m];
      }
    }

    /** Typing into the input, which is disabled while the socket is down
        or a send is in flight. */
    method HandleInputChange(value: string)
      requires isConnected && !sending
      modifies this
      ensures newMessage == value && messages == old(messages) && error == old(error)
      ensures isConnected == old(isConnected) && sending == old(sending)
      ensures recipient == old(recipient) && loading == old(loading) && stage == old(stage)
    {
      newMessage := value;
    }

    /** The synchronous start of `handleSendMessage`. A rejected send
        returns `None` and changes nothing; otherwise the trimmed input,
        never blank, is the content posted, `sending` is set and the error
        cleared. */
    method BeginSend() returns (content: Option<string>)
      modifies this
      ensures content.None? <==> SendRejected(old(newMessage), old(sending), old(isConnected))
      ensures content.None? ==>
        sending == old(sending) && error == old(error)
      ensures content.Some? ==>
        && content.value == Trim(old(newMessage)) && content.value != ""
        && sending && error == None
      ensures messages == old(messages) && newMessage == old(newMessage) && isConnected == old(isConnected)
      ensures recipient == old(recipient) && loading == old(loading) && stage == old(stage)
    {
      if Trim(newMessage) == "" || sending || !isConnected {
        return None;
      }
      sending := true;
      error := None;
      content := Some(Trim(newMessage));
    }

    /** The rest of `handleSendMessage` once the POST settles: the server's
        message is appended and the input cleared, or the error is set and
        the input kept. `sending` ends false either way. */
    method FinishSend(outcome: Outcome<Message>)
      requires sending
      modifies this
      ensures !sending
      ensures outcome.Ok? ==>
        messages == old(messages) + [outcome.value] && newMessage == "" && error == old(error)
      ensures outcome.Failed? ==>
        && messages == old(messages) && newMessage == old(newMessage)
        && error == Some(MessageOr(outcome.error, SendFailed))
      ensures isConnected == old(isConnected)
      ensures recipient == old(recipient) && loading == old(loading) && stage == old(stage)
    {
      match outcome {
        case Ok(m) =>
          messages := messages + [m];
          newMessage := "";
        case Failed(e) =>
          error := Some(MessageOr(e, SendFailed));
      }
      sending := false;
    }

    /** The start of `fetchData`. Without a token or a peer it returns at
        once and nothing changes, `loading` included; otherwise loading
        starts, the error clears and the recipient request is awaited. */
    method BeginLoad(token: Option<string>) returns (started: bool)
      requires stage == Idle
      modifies this
      ensures started <==> Truthy(token) && recipientId != ""
      ensures started ==> loading && error == None && stage == AwaitingRecipient
      ensures !started ==> loading == old(loading) && error == old(error) && stage == Idle
      ensures messages == old(messages) && recipient == old(recipient) && newMessage == old(newMessage)
      ensures sending == old(sending) && isConnected == old(isConnected)
    {
      started := Truthy(token) && recipientId != "";
      if started {
        loading := true;
        error := None;
        stage := AwaitingRecipient;
      }
    }

    /** The recipient request settles: on success the recipient is set and
        the history request is awaited; on failure the `catch` sets the
        error and the `finally` ends loading. */
    method RecipientLoaded(outcome: Outcome<User>)
      requires stage == AwaitingRecipient
      modifies this
      ensures outcome.Ok? ==>
        recipient == Some(outcome.value) && stage == AwaitingHistory
        && loading == old(loading) && error == old(error)
      ensures outcome.Failed? ==>
        && recipient == old(recipient) && stage == Idle && !loading
        && error == Some(MessageOr(outcome.error, LoadFailed))
      ensures messages == old(messages) && newMessage == old(newMessage)
      ensures sending == old(sending) && isConnected == old(isConnected)
    {
      match outcome {
        case Ok(r) =>
          recipient := Some(r);
          stage := AwaitingHistory;
        case Failed(e) =>
          error := Some(MessageOr(e, LoadFailed));
          loading := false;
          stage := Idle;
      }
    }

    /** The history request settles. On success the history REPLACES the
        list, so a message the socket appended while the load was pending
        is gone from it; on failure the list stays and the error is set.
        Loading ends either way. */
    method HistoryLoaded(outcome: Outcome<seq<Message>>)
      requires stage == AwaitingHistory
      modifies this
      ensures !loading && stage == Idle
      ensures outcome.Ok? ==> messages == outcome.value && error == old(error)
      ensures outcome.Failed? ==>
        messages == old(messages) && error == Some(MessageOr(outcome.error, LoadFailed))
      ensures recipient == old(recipient) && newMessage == old(newMessage)
      ensures sending == old(sending) && isConnected == old(isConnected)
    {
      match outcome {
        case Ok(ms) =>
          messages := ms;
        case Failed(e) =>
          error := Some(MessageOr(e, LoadFailed));
      }
      loading := false;
      stage := Idle;
    }
  }

  /** A message from the peer that arrives over the socket while the
      history request is pending is accepted, then dropped when the history
      (here one that does not contain it) replaces the list. */
  method LiveMessageLostDuringLoad(peer: User, m: Message, history: seq<Message>) returns (c: ChatChannel, shownBefore: bool)
    requires peer.id != "" && m.senderId == peer.id && m !in history
    ensures shownBefore && m !in c.messages && c.messages == history
  {
    c := new ChatChannel(peer.id);
    var started := c.BeginLoad(Some("token"));
    c.RecipientLoaded(Ok(peer));
    c.OnMessage(m);
    shownBefore := m in c.messages;
    c.HistoryLoaded(Ok(history));
  }
}
