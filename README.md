# Voice chat client: a Dafny model

This project models the client side of a small voice and text chat
application written in Python. A window (Qt) lets the user pick a microphone
and an output device. It then starts two parts:

- a microphone listener. It captures audio blocks and hands each one to the
  network client. It plays the audio received from other participants
  through a monitor queue.
- a relay client. It passes voice blocks, chat lines and presence records
  between the window's process and a Socket.IO child process through five
  bounded queues.

All of the application's queues are bounded FIFOs. Every producer on the
sending side writes the same "drop oldest" put: if the queue is full, take
one element off the front, then put the new one at the back.

The model has seven modules:

- `Wrappers`: Option and Result.
- `Payload`: the Python values that travel on the queues: dictionaries,
  lists, numbers and numpy sample blocks.
- `DropOldestQueue`: the specification functions `Pushed`, `PushedAll` and
  `LastN`, the drop-oldest law, and the `BoundedQueue` class that the
  producers and consumers operate on.
- `AudioListener`: `MicrophoneListener` (src/audio/audio.py). It covers the
  monitor queue of capacity 200, the gain and the clip to [-1, 1], the output
  callback that writes one output block in place, and the running / stopped
  life cycle.
- `VoiceClient`: `Client` (src/client/client.py). It covers the five queues
  and their capacities (1000 for voice, 100 for chat and presence), the two
  drop-oldest producers, the Socket.IO event handlers, and one iteration of
  each sender and receiver loop.
- `ChatText`: Python's `str.strip` and the rule that blank chat text is
  never sent.
- `HomeWindow`: the non-widget logic of `MyMainWindow`
  (src/window/home.py). It covers sorting the audio devices into input and
  output name-to-index tables, choosing a device from those tables, the
  roster of online users, and sending the chat text box.

Audio samples are mathematical reals. The Socket.IO connection state is a
parameter of the sender steps. Whether the audio streams could be opened is
a parameter of `Run`. What the child process emits is recorded in the
client's `emitted` sequence.

## Model

| member | source | states |
|---|---|---|
| Payload.Wrap | src/audio/audio.py:46 | `{"data": v}` is a one-key dictionary whose `"data"` entry is v |
| Payload.Field | src/client/client.py:84 | indexing yields a value exactly when the value is a dictionary holding the key; otherwise the lookup raises (None) |
| Payload.ToList | src/client/client.py:85-86 | `tolist()` of a block is a list of the same length whose i-th element is the i-th sample |
| Payload.ToSamples | src/client/client.py:224 | converting a received list succeeds exactly when every element is a number, and keeps every value in place |
| Payload.SamplesRoundTrip | src/client/client.py:224 | converting a block to a list and back gives the same samples |
| DropOldestQueue.Pushed | src/audio/audio.py:55-69 | a drop-oldest put keeps the newest cap elements of q + [x]; the queue is non-empty, bounded by cap and ends with x; below capacity nothing is evicted |
| DropOldestQueue.PushedKeepsOldOrNew | src/audio/audio.py:55-69 | after a drop-oldest put, every element was already queued or is the new one |
| DropOldestQueue.PushedAll | src/audio/audio.py:51-71 | any sequence of drop-oldest puts keeps the queue within its capacity |
| DropOldestQueue.DropOldestLaw | src/audio/audio.py:51-71 | after any sequence of drop-oldest puts, the queue holds exactly the cap most recent elements in put order |
| DropOldestQueue.FifoWithoutOverflow | src/client/client.py:273-286 | while the puts never exceed the capacity, nothing is evicted: the queue is its old contents followed by the new elements |
| DropOldestQueue.BurstKeepsNewest | src/client/client.py:273-286 | a burst of at least cap puts leaves exactly the last cap elements of the burst, whatever was queued before |
| DropOldestQueue.OverflowScenario | src/audio/audio.py:23 | frames 1..205 put into an empty monitor queue of capacity 200 leave frames 6..205 in order |
| DropOldestQueue.BoundedQueue.constructor | src/audio/audio.py:23 | a new queue is empty and has the given positive capacity |
| DropOldestQueue.BoundedQueue.Full | src/audio/audio.py:55 | `full()` holds when the queue has maxsize elements; a valid queue then holds exactly its capacity |
| DropOldestQueue.BoundedQueue.Empty | src/audio/audio.py:184 | `empty()` holds exactly when nothing is queued; a valid empty queue is never full |
| DropOldestQueue.BoundedQueue.GetNowait | src/audio/audio.py:186 | an empty queue yields None and stays empty; otherwise the front element is returned and removed |
| DropOldestQueue.BoundedQueue.PutNowait | src/audio/audio.py:69 | a non-blocking put appends exactly when the queue is not full, and reports whether it did |
| DropOldestQueue.BoundedQueue.Push | src/audio/audio.py:55-69 | the full-then-evict-then-put sequence leaves exactly `Pushed` of the old contents |
| DropOldestQueue.BoundedQueue.Drain | src/audio/audio.py:184-188 | the drain loop empties the queue |
| AudioListener.Clip | src/audio/audio.py:67 | a clipped sample lies in [-1, 1]; a sample already in range is unchanged |
| AudioListener.ClipIsNearest | src/audio/audio.py:67 | the clipped sample is the nearest point of [-1, 1] to the input |
| AudioListener.ClampGain | src/audio/audio.py:200 | the stored gain lies in [0, 1]; a gain already in range is unchanged |
| AudioListener.ClampGainIsNearest | src/audio/audio.py:200 | the clamped gain is the nearest point of [0, 1] to the requested gain |
| AudioListener.GainSample | src/audio/audio.py:66-67 | a sample times the gain, clipped, lies in [-1, 1] |
| AudioListener.Scaled | src/audio/audio.py:62-67 | the stored frame has the input's length and every sample in [-1, 1] |
| AudioListener.ScaledWithinRangeIsExact | src/audio/audio.py:66-67 | for in-range samples and a gain in [0, 1], each stored sample is exactly input times gain |
| AudioListener.Fit | src/audio/audio.py:81-85 | the output block has the buffer's length: frame samples first, then silence when the frame is shorter; truncated when it is longer |
| AudioListener.FitExactLength | src/audio/audio.py:84-85 | a frame as long as the buffer is played unchanged |
| AudioListener.CapturedPackage | src/audio/audio.py:45-46 | the capture callback hands over a dictionary whose `"data"` entry is the captured block |
| AudioListener.CopyInto | src/audio/audio.py:82 | the slice assignment overwrites exactly positions start .. start + n - 1 with the source |
| AudioListener.ZeroFrom | src/audio/audio.py:83 | the positions from start on become zero; those before are unchanged |
| AudioListener.MicrophoneListener.constructor | src/audio/audio.py:14-32 | a new listener is stopped, holds no streams, has an empty monitor queue of capacity 200 and stores the gain as given |
| AudioListener.MicrophoneListener.AudioQueuePut | src/audio/audio.py:51-71 | the monitor queue becomes the drop-oldest put of the frame scaled by the current gain and clipped; it stays bounded by 200 and holds only in-range frames |
| AudioListener.MicrophoneListener.OutputCallback | src/audio/audio.py:73-92 | with frames queued, exactly the front frame is removed and the buffer becomes that frame fitted to its length; with none, the queue stays empty and the buffer becomes silence |
| AudioListener.MicrophoneListener.Run | src/audio/audio.py:94-159 | with the streams started, the listener is running on both devices and `on_start` fires once; otherwise `on_error` fires and the `finally` stop leaves it stopped and drained |
| AudioListener.MicrophoneListener.Stop | src/audio/audio.py:161-191 | a running listener is stopped, both streams are dropped, the monitor queue is emptied and `on_stop` fires once; a stopped one is left unchanged |
| AudioListener.MicrophoneListener.IsRunning | src/audio/audio.py:193-195 | reports the running flag |
| AudioListener.MicrophoneListener.SetMonitorGain | src/audio/audio.py:197-200 | the gain becomes the requested gain clamped to [0, 1] |
| AudioListener.StopTwice | src/audio/audio.py:161-191 | after two stops the listener is stopped, its queue is empty if it was running, and `on_stop` fired once if it was running and never a second time |
| VoiceClient.ChatLine | src/client/client.py:296 | `name: msg` has the expected length, and the name and the message can be read back from it |
| VoiceClient.VoiceToEmit | src/client/client.py:84-86 | a package yields a payload exactly when `["data"]["data"]` exists; a numpy block is never emitted as is |
| VoiceClient.VoiceUnwrap | src/client/client.py:84-87 | a block wrapped by the capture callback and again by `send_package` is emitted as exactly that block, as a list |
| VoiceClient.Route | src/client/client.py:237-241 | a record is routed only when both presence callbacks are set: a join to users-online and a leave to remove-user, with the record's name |
| VoiceClient.Client.constructor | src/client/client.py:145-178 | five empty, distinct queues with capacities 1000, 1000, 100, 100 and 100 |
| VoiceClient.Client.SendPackage | src/client/client.py:273-286 | the send queue becomes the drop-oldest put of `{"data": data}` and stays bounded by 1000 |
| VoiceClient.Client.SendChatMessage | src/client/client.py:288-298 | the chat send queue becomes the drop-oldest put of `name: msg` and stays bounded by 100 |
| VoiceClient.Client.SenderStep | src/client/client.py:76-91 | one item is consumed if any; it is emitted as voice only while connected and well-formed, and otherwise dropped, never re-queued |
| VoiceClient.Client.ChatSenderStep | src/client/client.py:96-106 | one message is consumed if any; it is emitted only while connected, and otherwise dropped |
| VoiceClient.Client.OnVoiceData | src/client/client.py:46-48 | only a list is queued for playback; any other payload leaves the receive queue unchanged |
| VoiceClient.Client.OnChatMessage | src/client/client.py:50-51 | the received message is queued as it arrived |
| VoiceClient.Client.OnNewUser | src/client/client.py:53-54 | a join record with the user's name is queued |
| VoiceClient.Client.OnDisconnectUser | src/client/client.py:56-57 | a leave record with the user's name is queued |
| VoiceClient.Client.ReceiveStep | src/client/client.py:212-229 | one received list is consumed if any, and its samples go to the play-sound callback when it is set |
| VoiceClient.Client.ChatReceiveStep | src/client/client.py:247-260 | one received message is consumed if any, and goes to the chat callback when it is set |
| VoiceClient.Client.ReceiveNameStep | src/client/client.py:231-245 | one presence record is consumed if any, and is routed as `Route` says |
| ChatText.IsSpace | src/window/home.py:149 | the characters `strip()` removes, by code-point ranges: 0x09-0x0D, 0x1C-0x20, 0x85, 0xA0, 0x1680, 0x2000-0x200A, 0x2028, 0x2029, 0x202F, 0x205F, 0x3000 |
| ChatText.IsSpaceIsPythonWhitespace | src/window/home.py:149 | those ranges hold exactly the 29 whitespace characters of Python's `str.isspace`, listed one by one |
| ChatText.TrimStart | src/window/home.py:149 | the result is a suffix of the text, everything cut off is whitespace, and it does not start with whitespace |
| ChatText.TrimEnd | src/window/home.py:149 | the result is a prefix of the text, everything cut off is whitespace, and it does not end with whitespace |
| ChatText.Strip | src/window/home.py:149 | the stripped text is a slice of the text, only whitespace is cut from either end, and it neither starts nor ends with whitespace |
| ChatText.ChatToSend | src/window/home.py:149-150 | what is sent is the stripped text, and it is never empty |
| ChatText.NothingSentIffBlank | src/window/home.py:149-150 | nothing is sent exactly when the text is empty or all whitespace |
| HomeWindow.InputChannels | src/window/home.py:123 | a device's input channel count, 0 when the key is missing |
| HomeWindow.OutputChannels | src/window/home.py:123 | a device's output channel count, 0 when the key is missing |
| HomeWindow.NameOf | src/window/home.py:129 | a device's name, "Unknown" when the key is missing |
| HomeWindow.KindOf | src/window/home.py:122-128 | input-only exactly with input and no output channels, output-only exactly with output and no input channels, input/output otherwise (both or neither) |
| HomeWindow.File | src/window/home.py:133-137 | filing device i sets its name to i in each table it belongs to, overwriting an earlier index, and leaves the other table alone |
| HomeWindow.Classify | src/window/home.py:121-137 | the tables after filing every device in list order; every index in them is a position in the list |
| HomeWindow.ServesIffChannels | src/window/home.py:122-137 | a device with both or neither kind of channel is in both tables; input-only is only an input and output-only is only an output |
| HomeWindow.ListDevices | src/window/home.py:116-139 | the loop builds exactly the tables that filing every device in list order gives |
| HomeWindow.TableOfSnoc | src/window/home.py:133-137 | filing one more device sets its name to its index in each table it belongs to and leaves the other table alone |
| HomeWindow.ClassifyKeepsLastIndex | src/window/home.py:121-137 | every table entry is a valid index of a device with that name filed in that table; no later such device exists; every filed device's name is present |
| HomeWindow.ChooseDevices | src/window/home.py:25-49 | no input candidates or a cancelled input dialog aborts before any choice; a choice succeeds exactly when both dialogs return a name, and yields the tables' indices for those names |
| HomeWindow.ChosenDevicesAreValid | src/window/home.py:25-49 | a chosen device index points at a listed device with the chosen name that is filed in that direction |
| HomeWindow.Added | src/window/home.py:182-206 | adding a user keeps every shown label and adds a label only for a name not shown yet |
| HomeWindow.Removed | src/window/home.py:208-213 | removing a user deletes only that name's label |
| HomeWindow.AddIdempotent | src/window/home.py:186-187 | adding the same user twice is the same as adding it once |
| HomeWindow.RemoveAbsentIsNoOp | src/window/home.py:209 | removing a user who is not shown changes nothing |
| HomeWindow.AddThenRemoveRestores | src/window/home.py:203-213 | adding a new user and removing it again restores the roster |
| HomeWindow.Apply | src/window/home.py:157-161 | a users-online callback adds the name to the roster's keys, a remove-user callback takes it out, and every other label is kept |
| HomeWindow.PresenceUpdatesRoster | src/window/home.py:157-161 | a routed join puts the name on the roster, a routed leave takes it off, and no other name changes |
| HomeWindow.VoicePathRoundTrip | src/client/client.py:84-87 | a captured block leaves the sender loop as a list of its samples, and the receiving side rebuilds the same samples |
| HomeWindow.MainWindow.constructor | src/window/home.py:183-184 | a new window shows no users and an empty text box |
| HomeWindow.MainWindow.AddNewUser | src/window/home.py:182-206 | the roster becomes `Added` of the old roster |
| HomeWindow.MainWindow.RemoveUser | src/window/home.py:208-213 | the roster becomes `Removed` of the old roster |
| HomeWindow.MainWindow.HandleDispatch | src/window/home.py:157-161 | a users-online callback adds the name and a remove-user callback removes it |
| HomeWindow.MainWindow.SendChatMessage | src/window/home.py:147-152 | non-blank text is sent once, stripped and prefixed with the user's name, and the box is cleared; blank text sends nothing and changes nothing |

## Left out

- Audio hardware: opening, starting, stopping and closing the sounddevice streams, the device queries, and the 1 ms waiting loop in `run`. They are foreign calls and timing. `Run` takes whether the streams started as a parameter, and models `run` only up to its waiting loop.
- The time-based throttling of status messages and all printing. These are clock and console side effects only.
- The block size `int(samplerate * (blocksize_ms / 1000.0))`. It is a floating-point computation that nothing in the model depends on.
- Floating point: samples and gains are reals, with no float32 rounding. Frames are mono sequences of samples rather than (frames, channels) arrays.
- The `_input_callback` status message and its `on_error` path. `CapturedPackage` models only what the callback hands to `send_package`.
- The Socket.IO connect, reconnect and polling-fallback loops, the `sleep(5)` before the `new_user` emit, `disconnect`, and the start, join and terminate of processes and threads (`run_socketio_client`, `Client.stop`). These are network I/O and process management. The connection state is a parameter of the sender steps.
- Concurrency: the queues are shared between threads and processes, and `full()` followed by `put(block=False)` is not atomic there. The model runs every operation sequentially on single-owner queues. It does not model a `stop` that overlaps a `run` still opening its streams.
- The loops themselves (`while not stop_event.is_set()`). Each is modelled as one iteration: `SenderStep`, `ChatSenderStep`, `ReceiveStep`, `ChatReceiveStep`, `ReceiveNameStep`. A `get` whose timeout expires is a `get_nowait` that finds the queue empty.
- VoiceClient.Client.OnVoiceData: the source's `put` blocks while the receive queue is full. The model refuses the item instead, because a sequential model cannot wait for the consumer.
- VoiceClient.Client.OnChatMessage: the same blocking `put` is modelled as a refusal when the queue is full.
- VoiceClient.Client.OnNewUser: the same blocking `put` is modelled as a refusal when the queue is full.
- VoiceClient.Client.OnDisconnectUser: the same blocking `put` is modelled as a refusal when the queue is full.
- Payload.ToSamples: numpy also converts booleans, numeric strings, `None` (to NaN) and nested lists into samples. The model accepts only a flat list of numbers, so it rejects `Null` as well, and treats every other list as the exception the receive loop catches.
- VoiceClient.Client.ReceiveNameStep: a record missing its `"join"` or `"name"` key raises inside the loop. The handlers only ever build complete records, so `Presence` always has both fields.
- AudioListener.MicrophoneListener.Run: on success it stops at the waiting loop. The `finally` stop that follows once the flag is cleared is `Stop`.
- The server (server.py) is not part of this model. It only rebroadcasts `voice` and `chat_message` to every client and keeps no room or presence state.
- src/utils/thread_utils.py (OS priorities and thread factories), src/window/window.py, the Qt widgets, labels, dialogs and styling of src/window/home.py, src/main.py and devices.py are not part of this model. They are UI and OS calls. The dialog answers are inputs of `ChooseDevices`.
- `set_monitor_volume` (src/window/home.py:215-218) is not modelled: it calls `SetMonitorGain` with the slider value divided by 100.
- `start_and_stop_listening` (src/window/home.py:220-248) is not modelled. When a listener is running it calls `Stop`. Otherwise it builds a new listener with `monitor_gain=0.7`, which discards any gain set earlier and the old listener's monitor queue, and starts that listener's `run` on a new thread. The model has no window operation for this replacement; the new listener is the listener's constructor followed by `Run`.
