/** What the tray script does to the world, recorded as a log instead of done.
    Work handed to the GTK main loop with `GLib.idle_add` (an icon change, an
    error notification, a call of `on_click`) is appended when it is scheduled;
    a `subprocess.run` call is appended when it is made, whether or not the command
    could be started, and a worker thread when it is started. */
module Effects {
  import opened Base

  /** What a subprocess is fed on its standard input. */
  datatype Input = NoInput | TextInput(text: string) | AudioInput(pcm: seq<byte>)

  datatype Event =
    | SetIcon(name: string)                   // idle_add(set_indicator_icon, name)
    | Notify(summary: string, body: string)   // idle_add(show_error, summary, body)
    | Launch(argv: seq<string>, input: Input) // a call of subprocess.run(argv, input=...)
    | ScheduleClick                           // idle_add(on_click, None)
    | StartWorker(text: string)               // Thread(target=speak, args=(text,)).start()

  /** The notifications in a log, in order. */
  function NoticesIn(log: seq<Event>): (r: seq<Event>)
    ensures |r| <= |log|
    ensures forall k :: 0 <= k < |r| ==> r[k].Notify? && r[k] in log
  {
    if log == [] then []
    else (if log[0].Notify? then [log[0]] else []) + NoticesIn(log[1..])
  }

  /** The subprocess launches in a log, in order. */
  function LaunchesIn(log: seq<Event>): (r: seq<Event>)
    ensures |r| <= |log|
    ensures forall k :: 0 <= k < |r| ==> r[k].Launch? && r[k] in log
  {
    if log == [] then []
    else (if log[0].Launch? then [log[0]] else []) + LaunchesIn(log[1..])
  }

  /** The icon the indicator shows once every scheduled action has run, starting from `initial`. */
  function IconAfter(initial: string, log: seq<Event>): string
    decreases |log|
  {
    if log == [] then initial
    else IconAfter(if log[0].SetIcon? then log[0].name else initial, log[1..])
  }

  lemma {:induction false} NoticesInAppend(a: seq<Event>, b: seq<Event>)
    ensures NoticesIn(a + b) == NoticesIn(a) + NoticesIn(b)
  {
    if a == [] {
      assert a + b == b;
    } else {
      assert (a + b)[0] == a[0] && (a + b)[1..] == a[1..] + b;
      NoticesInAppend(a[1..], b);
    }
  }

  lemma {:induction false} LaunchesInAppend(a: seq<Event>, b: seq<Event>)
    ensures LaunchesIn(a + b) == LaunchesIn(a) + LaunchesIn(b)
  {
    if a == [] {
      assert a + b == b;
    } else {
      assert (a + b)[0] == a[0] && (a + b)[1..] == a[1..] + b;
      LaunchesInAppend(a[1..], b);
    }
  }

  /** Running a log in two parts leaves the same icon as running it at once. */
  lemma {:induction false} IconAfterAppend(initial: string, a: seq<Event>, b: seq<Event>)
    ensures IconAfter(initial, a + b) == IconAfter(IconAfter(initial, a), b)
    decreases |a|
  {
    if a == [] {
      assert a + b == b;
    } else {
      assert (a + b)[0] == a[0] && (a + b)[1..] == a[1..] + b;
      IconAfterAppend(if a[0].SetIcon? then a[0].name else initial, a[1..], b);
    }
  }

  /** Whatever came before, a log that ends by setting an icon leaves that icon. */
  lemma {:induction false} IconAfterLast(initial: string, log: seq<Event>, name: string)
    ensures IconAfter(initial, log + [SetIcon(name)]) == name
  {
    IconAfterAppend(initial, log, [SetIcon(name)]);
  }

  /** A log without notifications has none to show. */
  lemma {:induction false} NoticesInNone(log: seq<Event>)
    requires forall k :: 0 <= k < |log| ==> !log[k].Notify?
    ensures NoticesIn(log) == []
  {
    if log != [] {
      NoticesInNone(log[1..]);
    }
  }

  /** A log of notifications only is its own list of notifications. */
  lemma {:induction false} NoticesInAll(log: seq<Event>)
    requires forall k :: 0 <= k < |log| ==> log[k].Notify?
    ensures NoticesIn(log) == log
  {
    if log != [] {
      NoticesInAll(log[1..]);
    }
  }

  lemma {:induction false} LaunchesInNone(log: seq<Event>)
    requires forall k :: 0 <= k < |log| ==> !log[k].Launch?
    ensures LaunchesIn(log) == []
  {
    if log != [] {
      LaunchesInNone(log[1..]);
    }
  }

  lemma {:induction false} LaunchesInAll(log: seq<Event>)
    requires forall k :: 0 <= k < |log| ==> log[k].Launch?
    ensures LaunchesIn(log) == log
  {
    if log != [] {
      LaunchesInAll(log[1..]);
    }
  }

  /** A log made of four runs, where only the second holds launches and it holds nothing else,
      launches exactly the second. */
  lemma LaunchesInSecondOfFour(a: seq<Event>, b: seq<Event>, c: seq<Event>, d: seq<Event>)
    requires forall k :: 0 <= k < |a| ==> !a[k].Launch?
    requires forall k :: 0 <= k < |b| ==> b[k].Launch?
    requires forall k :: 0 <= k < |c| ==> !c[k].Launch?
    requires forall k :: 0 <= k < |d| ==> !d[k].Launch?
    ensures LaunchesIn(a + b + c + d) == b
  {
    LaunchesInAppend(a, b);
    LaunchesInAppend(a + b, c);
    LaunchesInAppend(a + b + c, d);
    LaunchesInNone(a);
    LaunchesInAll(b);
    LaunchesInNone(c);
    LaunchesInNone(d);
  }

  /** A log made of four runs, where only the third holds notifications and it holds nothing
      else, notifies exactly the third. */
  lemma NoticesInThirdOfFour(a: seq<Event>, b: seq<Event>, c: seq<Event>, d: seq<Event>)
    requires forall k :: 0 <= k < |a| ==> !a[k].Notify?
    requires forall k :: 0 <= k < |b| ==> !b[k].Notify?
    requires forall k :: 0 <= k < |c| ==> c[k].Notify?
    requires forall k :: 0 <= k < |d| ==> !d[k].Notify?
    ensures NoticesIn(a + b + c + d) == c
  {
    NoticesInAppend(a, b);
    NoticesInAppend(a + b, c);
    NoticesInAppend(a + b + c, d);
    NoticesInNone(a);
    NoticesInNone(b);
    NoticesInAll(c);
    NoticesInNone(d);
  }
}
