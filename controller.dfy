/** The program's event handler (`Update`) as a state machine.

    The state is the window size last reported, the `busy` flag and the
    spinner. The spinner is opaque: its state has type `S`, and its own
    update is the function `step`, which takes the spinner state and the
    message and gives the next spinner state and whether the spinner asked
    for a follow-up command (its next tick). Messages the handler does not
    name itself (spinner ticks among them) carry a payload of type `T`.
 */
module Controller {
  import Layout

  datatype Msg<T> =
    | SpendTimeDone                       // the pretend work has finished
    | WindowSize(height: int, width: int) // the terminal was resized
    | Key(name: string)                   // a key press, by its name
    | Other(payload: T)                   // anything else: spinner ticks

  /** The command the handler returns: none, quit the program, or the
      follow-up command the spinner asked for. */
  datatype Cmd = NoCmd | Quit | SpinnerCmd

  datatype State<S> = State(windowHeight: int, windowWidth: int, busy: bool, spinner: S)

  datatype Transition<S> = Transition(next: State<S>, cmd: Cmd)

  /** The keys that end the program. */
  predicate IsQuitKey(name: string) {
    name == "ctrl+c" || name == "q"
  }

  /** The state at start-up: no size reported yet, the work under way. */
  function Init<S>(spinner: S): (st: State<S>)
    ensures st.busy && st.windowHeight == 0 && st.windowWidth == 0 && st.spinner == spinner
  {
    State(0, 0, true, spinner)
  }

  /** The program's `Update`: the next state and the command for one message. */
  function Update<S, T>(st: State<S>, msg: Msg<T>, step: (S, T) -> (S, bool)): (r: Transition<S>)
    // busy is only ever cleared, and only by the completion message
    ensures r.next.busy <==> st.busy && !msg.SpendTimeDone?
    // only a resize changes the stored size, and it stores exactly what it carries
    ensures msg.WindowSize? ==> r.next.windowHeight == msg.height && r.next.windowWidth == msg.width
    ensures !msg.WindowSize? ==> r.next.windowHeight == st.windowHeight && r.next.windowWidth == st.windowWidth
    // the spinner is reached only by other messages while busy
    ensures st.busy && msg.Other? ==> r.next.spinner == step(st.spinner, msg.payload).0
    ensures !(st.busy && msg.Other?) ==> r.next.spinner == st.spinner
    // commands
    ensures r.cmd == Quit <==> msg.Key? && IsQuitKey(msg.name)
    ensures r.cmd == SpinnerCmd <==> st.busy && msg.Other? && step(st.spinner, msg.payload).1
  {
    match msg
    case SpendTimeDone => Transition(st.(busy := false), NoCmd)
    case WindowSize(h, w) => Transition(st.(windowHeight := h, windowWidth := w), NoCmd)
    case Key(name) => Transition(st, if IsQuitKey(name) then Quit else NoCmd)
    case Other(payload) =>
      if st.busy then
        var (spinner', ticked) := step(st.spinner, payload);
        Transition(st.(spinner := spinner'), if ticked then SpinnerCmd else NoCmd)
      else
        Transition(st, NoCmd)
  }

  /** The state after the handler has taken `msgs` in order. */
  function Run<S, T>(st: State<S>, msgs: seq<Msg<T>>, step: (S, T) -> (S, bool)): State<S>
    decreases |msgs|
  {
    if msgs == [] then st else Run(Update(st, msgs[0], step).next, msgs[1..], step)
  }

  /** The work is still under way after `msgs` exactly when it was before
      and no completion message came: busy goes from true to false once and
      never back. */
  lemma {:induction false} BusyUntilCompletion<S, T>(st: State<S>, msgs: seq<Msg<T>>, step: (S, T) -> (S, bool))
    ensures Run(st, msgs, step).busy <==> st.busy && forall i :: 0 <= i < |msgs| ==> !msgs[i].SpendTimeDone?
    decreases |msgs|
  {
    if msgs != [] {
      BusyUntilCompletion(Update(st, msgs[0], step).next, msgs[1..], step);
      assert forall i :: 1 <= i < |msgs| ==> msgs[i] == msgs[1..][i - 1];
    }
  }

  /** Once the work is done, no sequence of messages moves the spinner. */
  lemma {:induction false} FrozenWhenIdle<S, T>(st: State<S>, msgs: seq<Msg<T>>, step: (S, T) -> (S, bool))
    requires !st.busy
    ensures !Run(st, msgs, step).busy
    ensures Run(st, msgs, step).spinner == st.spinner
    decreases |msgs|
  {
    if msgs != [] {
      FrozenWhenIdle(Update(st, msgs[0], step).next, msgs[1..], step);
    }
  }

  /** The size reported by the last resize in `msgs`, or (`height`, `width`)
      when there is none: searched from the end. */
  function LatestSize<T>(height: int, width: int, msgs: seq<Msg<T>>): (int, int)
    decreases |msgs|
  {
    if msgs == [] then (height, width)
    else if msgs[|msgs| - 1].WindowSize? then (msgs[|msgs| - 1].height, msgs[|msgs| - 1].width)
    else LatestSize(height, width, msgs[..|msgs| - 1])
  }

  lemma {:induction false} LatestSizeAppend<T>(height: int, width: int, msgs: seq<Msg<T>>, m: Msg<T>)
    ensures LatestSize(height, width, msgs + [m]) ==
              if m.WindowSize? then (m.height, m.width) else LatestSize(height, width, msgs)
  {
    assert (msgs + [m])[..|msgs|] == msgs;
  }

  /** Dropping the first message from the front of a sequence. */
  lemma {:induction false} LatestSizeCons<T>(height: int, width: int, m: Msg<T>, msgs: seq<Msg<T>>)
    ensures LatestSize(height, width, [m] + msgs) ==
              LatestSize(if m.WindowSize? then m.height else height, if m.WindowSize? then m.width else width, msgs)
    decreases |msgs|
  {
    if msgs == [] {
      assert [m] + msgs == [] + [m];
      LatestSizeAppend(height, width, [], m);
    } else {
      var init, last := msgs[..|msgs| - 1], msgs[|msgs| - 1];
      assert msgs == init + [last];
      assert [m] + msgs == ([m] + init) + [last];
      LatestSizeAppend(height, width, [m] + init, last);
      LatestSizeCons(height, width, m, init);
      LatestSizeAppend(if m.WindowSize? then m.height else height, if m.WindowSize? then m.width else width, init, last);
    }
  }

  /** The stored size always reflects the most recently reported one. */
  lemma {:induction false} SizeIsLatest<S, T>(st: State<S>, msgs: seq<Msg<T>>, step: (S, T) -> (S, bool))
    ensures var end := Run(st, msgs, step);
            (end.windowHeight, end.windowWidth) == LatestSize(st.windowHeight, st.windowWidth, msgs)
    decreases |msgs|
  {
    if msgs != [] {
      var next := Update(st, msgs[0], step).next;
      SizeIsLatest(next, msgs[1..], step);
      assert msgs == [msgs[0]] + msgs[1..];
      LatestSizeCons(st.windowHeight, st.windowWidth, msgs[0], msgs[1..]);
    }
  }

  /** Start-up, a resize to 24 by 80, then completion: while busy the middle
      region is 80 by 20 and shows the spinner; afterwards it shows the
      instructions with the sizes 24, 80, 20, 40, 80 and 26. */
  lemma Scenario<S, T>(spinner: S, step: (S, T) -> (S, bool))
    ensures var st := Run(Init(spinner), [WindowSize(24, 80)], step);
            Layout.Render(st.busy, st.spinner, st.windowHeight, st.windowWidth)
            == Layout.Frame(40, 40, 26, 26, 28, 80, 20, Layout.Working(spinner))
    ensures var st := Run(Init(spinner), [WindowSize(24, 80), SpendTimeDone], step);
            Layout.Render(st.busy, st.spinner, st.windowHeight, st.windowWidth)
            == Layout.Frame(40, 40, 26, 26, 28, 80, 20,
                            Layout.Instructions(Layout.SizeReport(24, 80, 20, 40, 80, 26)))
  {
    var m1: seq<Msg<T>> := [WindowSize(24, 80)];
    var m2: seq<Msg<T>> := [WindowSize(24, 80), SpendTimeDone];
    assert m2[1..] == [SpendTimeDone];
    assert Run(Init(spinner), m1, step) == State(24, 80, true, spinner);
    assert Run(Init(spinner), m2, step) == State(24, 80, false, spinner);
  }
}
