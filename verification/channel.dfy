/** The single-instance control channel and the trigger invocation. A trigger
    (`clipspeak --speak`) sends the command `speak` to the running instance over
    a local socket; the running instance reads one payload per connection,
    decodes and strips it, and hands `on_click` to the GTK main loop only for
    the exact token `speak`. `on_click` then starts a speaking worker only when
    the clipboard holds text that is not all whitespace. */
module Channel {
  import opened Base
  import opened Strings
  import opened Utf8
  import opened Effects

  /** The only command the channel knows. */
  const SpeakCommand: string := "speak"

  /** The most a connection is read for (`conn.recv(1024)`). */
  const ReceiveLimit: nat := 1024

  /** The desktop notice a trigger sends when it cannot reach a running instance. */
  const NotRunningNotice: seq<string> := ["notify-send", "ClipSpeak", "The application is not running!"]

  /** `handle_client_command(command)`. */
  function HandleCommand(command: string): (events: seq<Event>)
    ensures |events| <= 1 && forall k :: 0 <= k < |events| ==> events[k] == ScheduleClick
  {
    if command == SpeakCommand then [ScheduleClick] else []
  }

  /** What the listener did with one connection: what it scheduled, and whether it closed it. */
  datatype Served = Served(events: seq<Event>, closed: bool)

  /** The body of the listener's loop for one accepted connection that delivered `data`.
      An empty read dispatches nothing; a payload that is not UTF-8 raises
      `UnicodeDecodeError`, which the loop's handler catches before `conn.close()`. */
  function ServeConnection(data: seq<byte>): (r: Served)
    ensures |r.events| <= 1 && (r.events != [] ==> r.closed)
    ensures !r.closed ==> Decode(data).None?
  {
    if data == [] then Served([], true)
    else match Decode(data)
      case None => Served([], false)
      case Some(text) => Served(HandleCommand(Strip(text)), true)
  }

  /** A connection schedules `on_click` at most once, and does so exactly when its payload
      decodes to `speak` with optional whitespace around it; every connection whose payload
      decodes is closed. */
  lemma ConnectionDispatchesOnlySpeak(data: seq<byte>)
    ensures |ServeConnection(data).events| <= 1
    ensures ServeConnection(data).events != []
            <==> Decode(data).Some? && Strip(Decode(data).value) == SpeakCommand
    ensures ServeConnection(data).closed <==> Decode(data).Some?
  {
    if data == [] {
      assert Decode(data) == Some("");
      assert Strip("") == "";
    }
  }

  /** The command surrounded by any whitespace, as UTF-8, dispatches `on_click` once and closes. */
  lemma PaddedSpeakDispatches(left: string, right: string)
    requires AllSpace(left) && AllSpace(right)
    ensures ServeConnection(Encode(left + SpeakCommand + right)) == Served([ScheduleClick], true)
  {
    var text := left + SpeakCommand + right;
    DecodeEncode(text);
    StripPadded(left, SpeakCommand, right);
    assert |Encode(text)| >= |text| > 0;
  }

  /** How connecting to the socket went: accepted, refused (`ConnectionRefusedError`),
      or failed with another error (its message). */
  datatype Connect = Accepted | Refused | Failed(message: string)

  /** How `send_command_to_running_instance` ended: it returned False because the socket
      file was absent or the connection was refused, it returned True after sending the
      payload, or an exception other than a refusal escaped it. */
  datatype Sent = NotRunning | Unreachable | Delivered(payload: seq<byte>) | Raised(message: string)

  /** `send_command_to_running_instance(cmd)`, given whether the socket file exists and
      how a connection attempt would go. */
  function SendCommand(cmd: string, socketExists: bool, connect: Connect): (r: Sent)
    ensures r.Delivered? ==> Decode(r.payload) == Some(cmd)
  {
    if !socketExists then NotRunning
    else match connect
      case Refused => Unreachable
      case Failed(m) => Raised(m)
      case Accepted => DecodeEncode(cmd); Delivered(Encode(cmd))
  }

  /** With no socket file, the outcome does not depend on any connection: none is attempted. */
  lemma NoSocketNoConnection(cmd: string, c1: Connect, c2: Connect)
    ensures SendCommand(cmd, false, c1) == SendCommand(cmd, false, c2) == NotRunning
  {
  }

  /** How a `--speak` invocation ends: its exit status and what it started. */
  datatype TriggerExit = TriggerExit(status: int, events: seq<Event>)

  /** Whether the command line asks for trigger mode. */
  predicate IsTriggerInvocation(argv: seq<string>) {
    |argv| > 1 && argv[1] == "--speak"
  }

  /** The `--speak` branch of the entry point: send `speak`, notify when that returned
      False, and exit with status 0; an exception escaping the send ends the process
      with Python's status 1 instead. */
  function Trigger(socketExists: bool, connect: Connect): (r: TriggerExit)
    ensures r.status == 0 || r.status == 1
    ensures |r.events| <= 1 && (r.events != [] ==> r.status == 0)
  {
    match SendCommand(SpeakCommand, socketExists, connect)
    case Delivered(_) => TriggerExit(0, [])
    case NotRunning => TriggerExit(0, [Launch(NotRunningNotice, NoInput)])
    case Unreachable => TriggerExit(0, [Launch(NotRunningNotice, NoInput)])
    case Raised(_) => TriggerExit(1, [])
  }

  /** The entry point's first decision: a command line asking for trigger mode runs the
      `--speak` branch and exits; any other starts the tray application, which this
      function represents as None. */
  function EntryPoint(argv: seq<string>, socketExists: bool, connect: Connect): (r: Option<TriggerExit>)
    ensures r.Some? <==> |argv| > 1 && argv[1] == "--speak"
    ensures r.Some? ==> (r.value.status == 0 <==> !SendCommand(SpeakCommand, socketExists, connect).Raised?)
    ensures r.Some? ==> r.value.events == if !socketExists || connect == Refused
                                          then [Launch(NotRunningNotice, NoInput)] else []
  {
    TriggerOutcome(socketExists, connect);
    if IsTriggerInvocation(argv) then Some(Trigger(socketExists, connect)) else None
  }

  /** Only the first argument selects trigger mode: arguments after `--speak` are ignored,
      and `--speak` in any later position starts the tray application. */
  lemma EntryPointModes(socketExists: bool, connect: Connect)
    ensures EntryPoint(["clipspeak", "--speak"], socketExists, connect).Some?
    ensures EntryPoint(["clipspeak", "--speak", "now"], socketExists, connect).Some?
    ensures EntryPoint(["clipspeak"], socketExists, connect).None?
    ensures EntryPoint(["clipspeak", "--quiet", "--speak"], socketExists, connect).None?
  {
  }

  /** A trigger exits with status 0 whenever the send returns, and notifies exactly when
      it returned False: no socket file, or a refused connection. */
  lemma TriggerOutcome(socketExists: bool, connect: Connect)
    ensures Trigger(socketExists, connect).status == 0
            <==> !SendCommand(SpeakCommand, socketExists, connect).Raised?
    ensures Trigger(socketExists, connect).events != []
            <==> !socketExists || connect == Refused
    ensures Trigger(socketExists, connect).events != []
            ==> Trigger(socketExists, connect).events == [Launch(NotRunningNotice, NoInput)]
  {
  }

  /** What a trigger sends reaches a running instance as one `on_click`, the connection
      then being closed. */
  lemma TriggerReachesDaemon()
    ensures SendCommand(SpeakCommand, true, Accepted).Delivered?
    ensures |SendCommand(SpeakCommand, true, Accepted).payload| <= ReceiveLimit
    ensures ServeConnection(SendCommand(SpeakCommand, true, Accepted).payload) == Served([ScheduleClick], true)
  {
    assert "" + SpeakCommand + "" == SpeakCommand;
    PaddedSpeakDispatches("", "");
  }

  /** `on_click`: read the clipboard (None when it holds no text), strip it, and start a
      speaking worker for what is left, if anything. */
  function OnClick(clipboard: Option<string>): (r: seq<Event>)
    ensures |r| <= 1
    ensures forall k :: 0 <= k < |r| ==> r[k].StartWorker? && r[k].text != []
    ensures r != [] ==> clipboard.Some?
  {
    if clipboard.Some? && clipboard.value != [] then
      var text := Strip(clipboard.value);
      if text != [] then [StartWorker(text)] else []
    else []
  }

  /** A worker is started exactly when the clipboard holds some non-whitespace text, and
      it is given that text with the surrounding whitespace removed. */
  lemma OnClickStartsWorkerForText(clipboard: Option<string>)
    ensures OnClick(clipboard) != [] <==> clipboard.Some? && !AllSpace(clipboard.value)
    ensures OnClick(clipboard) != [] ==>
              exists text :: OnClick(clipboard) == [StartWorker(text)]
                             && text != [] && IsStripOf(clipboard.value, text)
                             && !IsSpace(text[0]) && !IsSpace(text[|text| - 1])
  {
    if clipboard.Some? {
      var s := clipboard.value;
      StripEmptyIffAllSpace(s);
      if s == [] {
        assert AllSpace(s);
      } else if !AllSpace(s) {
        assert OnClick(clipboard) == [StartWorker(Strip(s))];
      }
    }
  }
}
