/** The window logic of src/window/home.py that is not widget code: sorting
    the audio devices into an input and an output name-to-index table, the
    device choice made from those tables, the online-user roster, and the
    rule that only non-blank chat text is sent. */
module HomeWindow {
  import opened Wrappers
  import opened Payload
  import opened DropOldestQueue
  import opened VoiceClient
  import AudioListener
  import opened ChatText

  // ---------------------------------------------------------------------
  // Devices

  /** One entry of `sd.query_devices()`; a missing key is None. */
  datatype DeviceInfo = DeviceInfo(name: Option<string>, maxInputChannels: Option<int>, maxOutputChannels: Option<int>)

  /** `d.get('max_input_channels', 0)`: a device without the key counts as
      having no input channels. */
  function InputChannels(d: DeviceInfo): (r: int)
    ensures d.maxInputChannels.Some? ==> r == d.maxInputChannels.value
    ensures d.maxInputChannels.None? ==> r == 0
  {
    d.maxInputChannels.GetOr(0)
  }

  /** `d.get('max_output_channels', 0)`: a device without the key counts as
      having no output channels. */
  function OutputChannels(d: DeviceInfo): (r: int)
    ensures d.maxOutputChannels.Some? ==> r == d.maxOutputChannels.value
    ensures d.maxOutputChannels.None? ==> r == 0
  {
    d.maxOutputChannels.GetOr(0)
  }

  /** `d.get('name', 'Unknown')`: a device without a name is filed as
      "Unknown", so all such devices share one table entry. */
  function NameOf(d: DeviceInfo): (r: string)
    ensures d.name.Some? ==> r == d.name.value
    ensures d.name.None? ==> r == "Unknown"
  {
    d.name.GetOr("Unknown")
  }

  /** The `tipo` a device is filed under; it starts as "input/output". */
  datatype Kind = InputOutput | InputOnly | OutputOnly

  /** The `if`/`elif` chain: input-only exactly when there are input
      channels and no output channels, output-only exactly when the
      reverse, and input/output otherwise (both, or neither). */
  function KindOf(d: DeviceInfo): (r: Kind)
    ensures r == InputOnly <==> InputChannels(d) > 0 && OutputChannels(d) <= 0
    ensures r == OutputOnly <==> InputChannels(d) <= 0 && OutputChannels(d) > 0
    ensures r == InputOutput <==> (InputChannels(d) > 0) == (OutputChannels(d) > 0)
  {
    if InputChannels(d) > 0 && OutputChannels(d) > 0 then InputOutput
    else if InputChannels(d) > 0 then InputOnly
    else if OutputChannels(d) > 0 then OutputOnly
    else InputOutput
  }

  /** The two tables of `list_dispositivos`. */
  datatype Direction = Input | Output

  datatype DeviceTables = DeviceTables(input: map<string, nat>, output: map<string, nat>) {
    function Table(dir: Direction): map<string, nat> {
      if dir == Input then input else output
    }
  }

  /** Whether a device is filed in the table of the given direction. */
  predicate Serves(d: DeviceInfo, dir: Direction) {
    KindOf(d) == InputOutput || KindOf(d) == (if dir == Input then InputOnly else OutputOnly)
  }

  /** A device is filed as an input unless it has output channels and no
      input channels, and as an output unless it has input channels and no
      output channels: a device with both, or with neither, is in both. */
  lemma ServesIffChannels(d: DeviceInfo)
    ensures Serves(d, Input) <==> InputChannels(d) > 0 || OutputChannels(d) <= 0
    ensures Serves(d, Output) <==> OutputChannels(d) > 0 || InputChannels(d) <= 0
    ensures InputChannels(d) > 0 && OutputChannels(d) > 0 ==> Serves(d, Input) && Serves(d, Output)
    ensures InputChannels(d) <= 0 && OutputChannels(d) <= 0 ==> Serves(d, Input) && Serves(d, Output)
    ensures InputChannels(d) > 0 && OutputChannels(d) <= 0 ==> Serves(d, Input) && !Serves(d, Output)
    ensures InputChannels(d) <= 0 && OutputChannels(d) > 0 ==> !Serves(d, Input) && Serves(d, Output)
  {
  }

  /** The tables after filing device number i (a later device with the same
      name overwrites the index). */
  function File(t: DeviceTables, i: nat, d: DeviceInfo): (r: DeviceTables)
    ensures forall dir :: r.Table(dir) ==
              if Serves(d, dir) then t.Table(dir)[NameOf(d) := i] else t.Table(dir)
  {
    match KindOf(d)
    case InputOutput => DeviceTables(t.input[NameOf(d) := i], t.output[NameOf(d) := i])
    case InputOnly => t.(input := t.input[NameOf(d) := i])
    case OutputOnly => t.(output := t.output[NameOf(d) := i])
  }

  /** The tables after filing every device of ds in order. */
  function Classify(ds: seq<DeviceInfo>): (r: DeviceTables)
    ensures forall dir, n :: n in r.Table(dir) ==> r.Table(dir)[n] < |ds|
    decreases |ds|
  {
    if ds == [] then DeviceTables(map[], map[])
    else File(Classify(ds[..|ds| - 1]), |ds| - 1, ds[|ds| - 1])
  }

  /** `listar_dispositivos` over a given device list. */
  method ListDevices(devices: seq<DeviceInfo>) returns (tables: DeviceTables)
    ensures tables == Classify(devices)
  {
    tables := DeviceTables(map[], map[]);
    var i := 0;
    while i < |devices|
      invariant 0 <= i <= |devices|
      invariant tables == Classify(devices[..i])
    {
      var d := devices[i];
      var kind := KindOf(d);
      var name := NameOf(d);
      if kind == InputOutput {
        tables := tables.(input := tables.input[name := i]);
        tables := tables.(output := tables.output[name := i]);
      } else if kind == InputOnly {
        tables := tables.(input := tables.input[name := i]);
      } else {
        tables := tables.(output := tables.output[name := i]);
      }
      assert devices[..i + 1][..i] == devices[..i];
      i := i + 1;
    }
    assert devices[..|devices|] == devices;
  }

  /** The name-to-index table of one direction after filing ds. */
  function TableOf(ds: seq<DeviceInfo>, dir: Direction): map<string, nat> {
    Classify(ds).Table(dir)
  }

  /** Filing one more device updates its direction's table at its name, or
      leaves the table alone. */
  lemma TableOfSnoc(ds: seq<DeviceInfo>, dir: Direction)
    requires ds != []
    ensures var k := |ds| - 1;
            TableOf(ds, dir) ==
              if Serves(ds[k], dir) then TableOf(ds[..k], dir)[NameOf(ds[k]) := k] else TableOf(ds[..k], dir)
  {
  }

  /** Each table maps a name to the LAST device with that name filed in it:
      the index is valid, the device there has that name and is filed in
      the table, no later device with that name is, and every device filed
      in the table has its name present. */
  lemma {:induction false} ClassifyKeepsLastIndex(ds: seq<DeviceInfo>, dir: Direction)
    ensures forall n :: n in TableOf(ds, dir) ==>
              TableOf(ds, dir)[n] < |ds| && NameOf(ds[TableOf(ds, dir)[n]]) == n && Serves(ds[TableOf(ds, dir)[n]], dir)
    ensures forall n, j :: n in TableOf(ds, dir) && TableOf(ds, dir)[n] < j < |ds| ==>
              !(NameOf(ds[j]) == n && Serves(ds[j], dir))
    ensures forall i :: 0 <= i < |ds| && Serves(ds[i], dir) ==> NameOf(ds[i]) in TableOf(ds, dir)
    decreases |ds|
  {
    if ds != [] {
      var k := |ds| - 1;
      var p := ds[..k];
      ClassifyKeepsLastIndex(p, dir);
      TableOfSnoc(ds, dir);
      var m := TableOf(p, dir);
      var m' := TableOf(ds, dir);
      var d := ds[k];
      forall n | n in m'
        ensures m'[n] < |ds| && NameOf(ds[m'[n]]) == n && Serves(ds[m'[n]], dir)
      {
        if !(Serves(d, dir) && n == NameOf(d)) {
          assert ds[m[n]] == p[m[n]];
        }
      }
      forall n, j | n in m' && m'[n] < j < |ds|
        ensures !(NameOf(ds[j]) == n && Serves(ds[j], dir))
      {
        if j < k {
          assert ds[j] == p[j];
        }
      }
      forall i | 0 <= i < |ds| && Serves(ds[i], dir)
        ensures NameOf(ds[i]) in m'
      {
        if i < k {
          assert ds[i] == p[i];
        }
      }
    }
  }

  /** Why the device dialog did not produce a device: no candidates (the
      window shows an error and exits) or the dialog was cancelled. */
  datatype ChoiceError = NoInputDevices | InputCancelled | NoOutputDevices | OutputCancelled

  /** The input and output device indices chosen in the window's
      constructor. A pick is the name the user selected in the dialog, None
      when cancelled; the dialog only offers names in the table. The input
      is chosen first, and an empty candidate list aborts before any choice. */
  function ChooseDevices(t: DeviceTables, inputPick: Option<string>, outputPick: Option<string>): (r: Result<(nat, nat), ChoiceError>)
    requires inputPick.Some? ==> inputPick.value in t.input
    requires outputPick.Some? ==> outputPick.value in t.output
    ensures t.input == map[] ==> r == Failure(NoInputDevices)
    ensures t.input != map[] && inputPick.None? ==> r == Failure(InputCancelled)
    ensures t.input != map[] && inputPick.Some? && t.output == map[] ==> r == Failure(NoOutputDevices)
    ensures t.input != map[] && inputPick.Some? && t.output != map[] && outputPick.None? ==> r == Failure(OutputCancelled)
    ensures r.Success? <==> inputPick.Some? && outputPick.Some?
    ensures r.Success? ==> r.value == (t.input[inputPick.value], t.output[outputPick.value])
  {
    if t.input == map[] then Failure(NoInputDevices)
    else if inputPick.None? then Failure(InputCancelled)
    else
      var inputDevice := t.input[inputPick.value];
      if t.output == map[] then Failure(NoOutputDevices)
      else if outputPick.None? then Failure(OutputCancelled)
      else Success((inputDevice, t.output[outputPick.value]))
  }

  /** A chosen input device is a device of the list that has the chosen
      name and is filed as an input; likewise for the output. */
  lemma ChosenDevicesAreValid(ds: seq<DeviceInfo>, inputPick: Option<string>, outputPick: Option<string>)
    requires inputPick.Some? ==> inputPick.value in Classify(ds).input
    requires outputPick.Some? ==> outputPick.value in Classify(ds).output
    ensures var r := ChooseDevices(Classify(ds), inputPick, outputPick);
            r.Success? ==>
              && r.value.0 < |ds| && NameOf(ds[r.value.0]) == inputPick.value && Serves(ds[r.value.0], Input)
              && r.value.1 < |ds| && NameOf(ds[r.value.1]) == outputPick.value && Serves(ds[r.value.1], Output)
  {
    ClassifyKeepsLastIndex(ds, Input);
    ClassifyKeepsLastIndex(ds, Output);
    assert Classify(ds).input == TableOf(ds, Input);
    assert Classify(ds).output == TableOf(ds, Output);
  }

  // ---------------------------------------------------------------------
  // Roster

  /** The label widget shown for an online user. */
  datatype Label = Label(text: string)

  /** The roster after `_add_new_user(n)`. */
  function Added(roster: map<string, Label>, n: string): (r: map<string, Label>)
    ensures r.Keys == roster.Keys + {n}
    ensures forall k :: k in roster ==> r[k] == roster[k]
    ensures n !in roster ==> r[n] == Label(n)
  {
    if n in roster then roster else roster[n := Label(n)]
  }

  /** The roster after `_remove_user(n)`. */
  function Removed(roster: map<string, Label>, n: string): (r: map<string, Label>)
    ensures r.Keys == roster.Keys - {n}
    ensures forall k :: k in r ==> r[k] == roster[k]
  {
    if n in roster then roster - {n} else roster
  }

  /** Adding a name twice is the same as adding it once. */
  lemma AddIdempotent(roster: map<string, Label>, n: string)
    ensures Added(Added(roster, n), n) == Added(roster, n)
  {
  }

  /** Removing an absent name changes nothing. */
  lemma RemoveAbsentIsNoOp(roster: map<string, Label>, n: string)
    requires n !in roster
    ensures Removed(roster, n) == roster
  {
  }

  /** Adding a new name and removing it again restores the roster. */
  lemma AddThenRemoveRestores(roster: map<string, Label>, n: string)
    requires n !in roster
    ensures Removed(Added(roster, n), n) == roster
  {
    assert Removed(Added(roster, n), n).Keys == roster.Keys;
  }

  /** The roster after the window handles a dispatched presence callback. */
  function Apply(roster: map<string, Label>, d: Dispatch): (r: map<string, Label>)
    ensures d.UsersOnline? ==> r.Keys == roster.Keys + {d.name}
    ensures d.RemoveUser? ==> r.Keys == roster.Keys - {d.name}
    ensures forall k :: k in r && k != d.name ==> r[k] == roster[k]
  {
    match d
    case UsersOnline(n) => Added(roster, n)
    case RemoveUser(n) => Removed(roster, n)
  }

  /** A routed join puts the name on the roster and a routed leave takes it
      off; nothing else on the roster changes. Unrouted records (a callback
      missing) leave the roster as it is. */
  lemma PresenceUpdatesRoster(roster: map<string, Label>, user: Presence, hasUsersOnline: bool, hasRemoveUser: bool)
    ensures var d := Route(user, hasUsersOnline, hasRemoveUser);
            d.Some? ==>
              && (user.name in Apply(roster, d.value) <==> user.join)
              && (forall k :: k != user.name ==> (k in Apply(roster, d.value) <==> k in roster))
  {
  }

  /** The voice path end to end, as the window wires it: the window passes
      the client's `send_package` to the listener as its capture sink
      (src/window/home.py:242) and its own `process_audio_data` to the
      client as the play-sound callback (src/window/home.py:71). The
      capture callback wraps a block, `send_package` wraps it again, the
      sender loop emits `["data"]["data"]` as a list, and the receiving
      side turns that list back into the same samples. */
  lemma VoicePathRoundTrip(block: seq<real>)
    ensures VoiceToEmit(Wrap(AudioListener.CapturedPackage(block))) == Some(ToList(block))
    ensures ToSamples(ToList(block)) == Some(block)
  {
    VoiceUnwrap(block);
    SamplesRoundTrip(block);
  }

  // ---------------------------------------------------------------------
  // Window state

  /** The parts of `MyMainWindow` the model keeps: its client, the chat
      text box and the roster of user labels (`user_labels`, created empty
      on first use). */
  class MainWindow {
    const client: Client
    var textEdit: string
    var userLabels: map<string, Label>

    constructor (client: Client)
      ensures this.client == client && textEdit == "" && userLabels == map[]
    {
      this.client := client;
      textEdit := "";
      userLabels := map[];
    }

    /** `_add_new_user`: no change if the name is shown already, otherwise
        a label for it is added. */
    method AddNewUser(n: string)
      modifies this`userLabels
      ensures userLabels == Added(old(userLabels), n)
    {
      if n in userLabels {
        return;
      }
      userLabels := userLabels[n := Label(n)];
    }

    /** `_remove_user`: deletes the name's label if present. */
    method RemoveUser(n: string)
      modifies this`userLabels
      ensures userLabels == Removed(old(userLabels), n)
    {
      if n in userLabels {
        userLabels := userLabels - {n};
      }
    }

    /** `receive_users_online` / `receive_remove_user`, through the window's
        signals. */
    method HandleDispatch(d: Dispatch)
      modifies this`userLabels
      ensures userLabels == Apply(old(userLabels), d)
    {
      match d {
        case UsersOnline(n) => AddNewUser(n);
        case RemoveUser(n) => RemoveUser(n);
      }
    }

    /** `send_chat_message`: when the stripped text is not empty it is sent
        once, through the client's chat queue, and the box is cleared;
        otherwise nothing changes. */
    method SendChatMessage()
      requires client.Valid()
      modifies this`textEdit, client.chatSendQueue
      ensures client.Valid()
      ensures ChatToSend(old(textEdit)).Some? ==>
                && client.chatSendQueue.items ==
                     Pushed(old(client.chatSendQueue.items), ChatQueueCapacity, ChatLine(client.name, ChatToSend(old(textEdit)).value))
                && textEdit == ""
      ensures ChatToSend(old(textEdit)).None? ==>
                client.chatSendQueue.items == old(client.chatSendQueue.items) && textEdit == old(textEdit)
    {
      var text := Strip(textEdit);
      if text != [] {
        client.SendChatMessage(text);
        textEdit := "";
      }
    }
  }
}
