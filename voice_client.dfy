/** The relay client (src/client/client.py): the five bounded queues shared
    between the window's process and the Socket.IO child process, the
    drop-oldest producers `send_package` and `send_chat_message`, the
    Socket.IO event handlers that fill the receive-side queues, and one
    iteration of each loop that consumes a queue. The Socket.IO session
    itself is outside the model: whether it is connected is a parameter,
    and what it emits is recorded in `emitted`. */
module VoiceClient {
  import opened Wrappers
  import opened Payload
  import opened DropOldestQueue

  /** `multiprocessing.Queue(maxsize=1000)` for outbound and inbound voice. */
  const VoiceQueueCapacity: nat := 1000
  /** `multiprocessing.Queue(maxsize=100)` for chat and presence. */
  const ChatQueueCapacity: nat := 100

  /** `{"name": name, "join": join}`, put on the users queue by the
      `new_user` and `disconnect_user` handlers. */
  datatype Presence = Presence(name: string, join: bool)

  /** One `sio.emit` made by the child process. */
  datatype Emission = VoiceEvent(payload: Value) | ChatEvent(message: string)

  /** The window callback `_receive_name_loop` invokes for a presence record. */
  datatype Dispatch = UsersOnline(name: string) | RemoveUser(name: string)

  /** `f"{name}: {msg}"`. The sender's name and the message can be read back. */
  function ChatLine(name: string, msg: string): (r: string)
    ensures |r| == |name| + 2 + |msg|
    ensures r[..|name|] == name && r[|name| + 2..] == msg
  {
    name + ": " + msg
  }

  /** What the sender loop emits for one package: `package["data"]["data"]`,
      converted with `tolist()` when it is a numpy array. A package of any
      other shape raises inside the loop and is dropped (None). */
  function VoiceToEmit(package: Value): (r: Option<Value>)
    ensures r.Some? ==> !r.value.Samples?
    ensures r.Some? <==> Field(package, "data").Some? && Field(Field(package, "data").value, "data").Some?
  {
    match Field(package, "data")
    case None => None
    case Some(inner) =>
      match Field(inner, "data")
      case None => None
      case Some(d) => Some(if d.Samples? then ToList(d.block) else d)
  }

  /** `send_package` puts `{"data": data}`; the sender loop takes
      `["data"]["data"]` back out, so a captured block wrapped once more by
      `send_package` is emitted as exactly that block, as a list. */
  lemma VoiceUnwrap(block: seq<real>)
    ensures VoiceToEmit(Wrap(Wrap(Samples(block)))) == Some(ToList(block))
  {
    assert Field(Wrap(Wrap(Samples(block))), "data") == Some(Wrap(Samples(block)));
  }

  /** The callback `_receive_name_loop` invokes for a record: nothing unless
      both presence callbacks are set, otherwise users-online for a join and
      remove-user for a leave, with the record's name. */
  function Route(user: Presence, hasUsersOnline: bool, hasRemoveUser: bool): (r: Option<Dispatch>)
    ensures r.Some? <==> hasUsersOnline && hasRemoveUser
    ensures r.Some? ==> r.value.name == user.name && (r.value.UsersOnline? <==> user.join)
  {
    if hasUsersOnline && hasRemoveUser then
      Some(if user.join then UsersOnline(user.name) else RemoveUser(user.name))
    else
      None
  }

  /** `Client` together with the queues it shares with its child process.
      A `has...` field says whether that callback was given. */
  class Client {
    const name: string
    const sendQueue: BoundedQueue<Value>
    const receiveQueue: BoundedQueue<Value>
    const chatSendQueue: BoundedQueue<string>
    const chatReceiveQueue: BoundedQueue<Value>
    const usersReceiveQueue: BoundedQueue<Presence>
    const hasPlaySound: bool
    const hasChatMessage: bool
    const hasUsersOnline: bool
    const hasRemoveUser: bool
    var emitted: seq<Emission>

    ghost predicate Valid()
      reads this, sendQueue, receiveQueue, chatSendQueue, chatReceiveQueue, usersReceiveQueue
    {
      && sendQueue.Valid() && sendQueue.capacity == VoiceQueueCapacity
      && receiveQueue.Valid() && receiveQueue.capacity == VoiceQueueCapacity
      && chatSendQueue.Valid() && chatSendQueue.capacity == ChatQueueCapacity
      && chatReceiveQueue.Valid() && chatReceiveQueue.capacity == ChatQueueCapacity
      && usersReceiveQueue.Valid() && usersReceiveQueue.capacity == ChatQueueCapacity
      && sendQueue != receiveQueue && sendQueue != chatReceiveQueue && receiveQueue != chatReceiveQueue
      && (forall v :: v in receiveQueue.items ==> v.List?)
    }

    /** `__init__`: five empty queues with their capacities. */
    constructor (name: string, hasPlaySound: bool, hasChatMessage: bool,
                 hasUsersOnline: bool, hasRemoveUser: bool)
      ensures Valid()
      ensures fresh(sendQueue) && fresh(receiveQueue) && fresh(chatSendQueue)
      ensures fresh(chatReceiveQueue) && fresh(usersReceiveQueue)
      ensures this.name == name && emitted == []
      ensures sendQueue.items == [] && receiveQueue.items == [] && chatSendQueue.items == []
      ensures chatReceiveQueue.items == [] && usersReceiveQueue.items == []
      ensures this.hasPlaySound == hasPlaySound && this.hasChatMessage == hasChatMessage
      ensures this.hasUsersOnline == hasUsersOnline && this.hasRemoveUser == hasRemoveUser
    {
      this.name := name;
      sendQueue := new BoundedQueue<Value>(VoiceQueueCapacity);
      receiveQueue := new BoundedQueue<Value>(VoiceQueueCapacity);
      chatSendQueue := new BoundedQueue<string>(ChatQueueCapacity);
      chatReceiveQueue := new BoundedQueue<Value>(ChatQueueCapacity);
      usersReceiveQueue := new BoundedQueue<Presence>(ChatQueueCapacity);
      this.hasPlaySound := hasPlaySound;
      this.hasChatMessage := hasChatMessage;
      this.hasUsersOnline := hasUsersOnline;
      this.hasRemoveUser := hasRemoveUser;
      emitted := [];
    }

    /** `send_package`: a drop-oldest put of `{"data": data}`. */
    method SendPackage(data: Value)
      requires Valid()
      modifies sendQueue
      ensures Valid()
      ensures sendQueue.items == Pushed(old(sendQueue.items), VoiceQueueCapacity, Wrap(data))
    {
      sendQueue.Push(Wrap(data));
    }

    /** `send_chat_message`: a drop-oldest put of `name: msg`. */
    method SendChatMessage(msg: string)
      requires Valid()
      modifies chatSendQueue
      ensures Valid()
      ensures chatSendQueue.items == Pushed(old(chatSendQueue.items), ChatQueueCapacity, ChatLine(name, msg))
    {
      chatSendQueue.Push(ChatLine(name, msg));
    }

    /** One iteration of `sender_thread`: takes one package, if any, and
        emits its voice data only while connected; otherwise (or when the
        package has the wrong shape) the package is dropped, not put back. */
    method SenderStep(connected: bool)
      requires Valid()
      modifies sendQueue, this`emitted
      ensures Valid()
      ensures old(sendQueue.items) == [] ==> sendQueue.items == [] && emitted == old(emitted)
      ensures old(sendQueue.items) != [] ==>
                && sendQueue.items == old(sendQueue.items)[1..]
                && emitted == old(emitted) +
                     (if connected && VoiceToEmit(old(sendQueue.items)[0]).Some?
                      then [VoiceEvent(VoiceToEmit(old(sendQueue.items)[0]).value)] else [])
    {
      var package := sendQueue.GetNowait();
      if package.Some? && connected {
        var data := VoiceToEmit(package.value);
        if data.Some? {
          emitted := emitted + [VoiceEvent(data.value)];
        }
      }
    }

    /** One iteration of `chat_sender_thread`: takes one message, if any,
        and emits it only while connected. */
    method ChatSenderStep(connected: bool)
      requires Valid()
      modifies chatSendQueue, this`emitted
      ensures Valid()
      ensures old(chatSendQueue.items) == [] ==> chatSendQueue.items == [] && emitted == old(emitted)
      ensures old(chatSendQueue.items) != [] ==>
                && chatSendQueue.items == old(chatSendQueue.items)[1..]
                && emitted == old(emitted) + (if connected then [ChatEvent(old(chatSendQueue.items)[0])] else [])
    {
      var msg := chatSendQueue.GetNowait();
      if msg.Some? && connected {
        emitted := emitted + [ChatEvent(msg.value)];
      }
    }

    /** `on_voice_data`: only a list is queued for playback; anything else
        leaves the receive queue unchanged. */
    method OnVoiceData(data: Value)
      requires Valid()
      modifies receiveQueue
      ensures Valid()
      ensures receiveQueue.items ==
                if data.List? && |old(receiveQueue.items)| < VoiceQueueCapacity
                then old(receiveQueue.items) + [data] else old(receiveQueue.items)
    {
      if data.List? {
        var ok := receiveQueue.PutNowait(data);
      }
    }

    /** `on_chat_message`: the message is queued as received. */
    method OnChatMessage(msg: Value)
      requires Valid()
      modifies chatReceiveQueue
      ensures Valid()
      ensures chatReceiveQueue.items ==
                if |old(chatReceiveQueue.items)| < ChatQueueCapacity
                then old(chatReceiveQueue.items) + [msg] else old(chatReceiveQueue.items)
    {
      var ok := chatReceiveQueue.PutNowait(msg);
    }

    /** `on_new_user`: queues `{"name": name, "join": True}`. */
    method OnNewUser(userName: string)
      requires Valid()
      modifies usersReceiveQueue
      ensures Valid()
      ensures usersReceiveQueue.items ==
                if |old(usersReceiveQueue.items)| < ChatQueueCapacity
                then old(usersReceiveQueue.items) + [Presence(userName, true)] else old(usersReceiveQueue.items)
    {
      var ok := usersReceiveQueue.PutNowait(Presence(userName, true));
    }

    /** `on_disconnect_user`: queues `{"name": name, "join": False}`. */
    method OnDisconnectUser(userName: string)
      requires Valid()
      modifies usersReceiveQueue
      ensures Valid()
      ensures usersReceiveQueue.items ==
                if |old(usersReceiveQueue.items)| < ChatQueueCapacity
                then old(usersReceiveQueue.items) + [Presence(userName, false)] else old(usersReceiveQueue.items)
    {
      var ok := usersReceiveQueue.PutNowait(Presence(userName, false));
    }

    /** One iteration of `_receive_loop`: takes one voice list, if any, and
        returns the samples handed to the play-sound callback (None when
        nothing is played: no item, no callback, or a list that is not a
        list of numbers). */
    method ReceiveStep() returns (played: Option<seq<real>>)
      requires Valid()
      modifies receiveQueue
      ensures Valid()
      ensures old(receiveQueue.items) == [] ==> receiveQueue.items == [] && played == None
      ensures old(receiveQueue.items) != [] ==>
                && receiveQueue.items == old(receiveQueue.items)[1..]
                && played == (if hasPlaySound then ToSamples(old(receiveQueue.items)[0]) else None)
    {
      var dataList := receiveQueue.GetNowait();
      played := None;
      if dataList.Some? && hasPlaySound {
        played := ToSamples(dataList.value);
      }
    }

    /** One iteration of `_chat_receive_loop`: the message handed to the
        chat callback, if any. */
    method ChatReceiveStep() returns (shown: Option<Value>)
      requires Valid()
      modifies chatReceiveQueue
      ensures Valid()
      ensures old(chatReceiveQueue.items) == [] ==> chatReceiveQueue.items == [] && shown == None
      ensures old(chatReceiveQueue.items) != [] ==>
                && chatReceiveQueue.items == old(chatReceiveQueue.items)[1..]
                && shown == (if hasChatMessage then Some(old(chatReceiveQueue.items)[0]) else None)
    {
      var msg := chatReceiveQueue.GetNowait();
      shown := None;
      if msg.Some? && hasChatMessage {
        shown := msg;
      }
    }

    /** One iteration of `_receive_name_loop`: takes one presence record,
        if any, and returns the callback it is routed to. */
    method ReceiveNameStep() returns (d: Option<Dispatch>)
      requires Valid()
      modifies usersReceiveQueue
      ensures Valid()
      ensures old(usersReceiveQueue.items) == [] ==> usersReceiveQueue.items == [] && d == None
      ensures old(usersReceiveQueue.items) != [] ==>
                && usersReceiveQueue.items == old(usersReceiveQueue.items)[1..]
                && d == Route(old(usersReceiveQueue.items)[0], hasUsersOnline, hasRemoveUser)
    {
      var user := usersReceiveQueue.GetNowait();
      d := None;
      if user.Some? {
        d := Route(user.value, hasUsersOnline, hasRemoveUser);
      }
    }
  }
}
