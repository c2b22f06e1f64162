/** The program's model object: the handler of the program, one method per
    kind of message, with the state updated in place. */
module Program {
  import Controller
  import Layout

  /** The program's model: the window size (package-level variables in the
      program) with the busy flag and the spinner. */
  class Model<S> {
    var windowHeight: int
    var windowWidth: int
    var busy: bool
    var spinner: S

    function State(): Controller.State<S>
      reads this
    {
      Controller.State(windowHeight, windowWidth, busy, spinner)
    }

    constructor (spinner: S)
      ensures State() == Controller.Init(spinner)
    {
      windowHeight, windowWidth := 0, 0;
      busy := true;
      this.spinner := spinner;
    }

    /** The pretend work has finished: stop being busy. */
    method SpendTimeDone() returns (cmd: Controller.Cmd)
      modifies this`busy
      ensures !busy && cmd == Controller.NoCmd
    {
      busy := false;
      cmd := Controller.NoCmd;
    }

    /** The terminal was resized: store the new size. */
    method WindowSize(height: int, width: int) returns (cmd: Controller.Cmd)
      modifies this`windowHeight, this`windowWidth
      ensures windowHeight == height && windowWidth == width && cmd == Controller.NoCmd
    {
      windowHeight, windowWidth := height, width;
      cmd := Controller.NoCmd;
    }

    /** A key press: quit on ctrl+c or q, otherwise nothing. */
    method Key(name: string) returns (cmd: Controller.Cmd)
      ensures cmd == (if Controller.IsQuitKey(name) then Controller.Quit else Controller.NoCmd)
    {
      match name
      case "ctrl+c" => cmd := Controller.Quit;
      case "q" => cmd := Controller.Quit;
      case _ => cmd := Controller.NoCmd;
    }

    /** Any other message: hand it to the spinner while busy, drop it after. */
    method Other<T>(payload: T, step: (S, T) -> (S, bool)) returns (cmd: Controller.Cmd)
      modifies this`spinner
      ensures old(busy) ==> spinner == step(old(spinner), payload).0
      ensures !old(busy) ==> spinner == old(spinner)
      ensures cmd == (if busy && step(old(spinner), payload).1 then Controller.SpinnerCmd else Controller.NoCmd)
    {
      cmd := Controller.NoCmd;
      if busy {
        var (spinner', ticked) := step(spinner, payload);
        spinner := spinner';
        if ticked {
          cmd := Controller.SpinnerCmd;
        }
      }
    }

    /** One message: the state and command are those of the function Update. */
    method Update<T>(msg: Controller.Msg<T>, step: (S, T) -> (S, bool)) returns (cmd: Controller.Cmd)
      modifies this
      ensures Controller.Transition(State(), cmd) == Controller.Update(old(State()), msg, step)
    {
      match msg
      case SpendTimeDone => cmd := SpendTimeDone();
      case WindowSize(h, w) => cmd := WindowSize(h, w);
      case Key(name) => cmd := Key(name);
      case Other(payload) => cmd := Other(payload, step);
    }

    /** The frame the current state renders. */
    function View(): (f: Layout.Frame<S>)
      reads this
      ensures 0 <= windowWidth ==> f.topLeft + f.topRight == windowWidth
      ensures 0 <= windowWidth ==> f.bottomLeft + f.bottomCenter + f.bottomRight == windowWidth
      ensures f.middleWidth == windowWidth && f.middleHeight == windowHeight - 4
      ensures f.content.Working? <==> busy
      ensures busy ==> f.content.glyph == spinner
      ensures !busy ==> f.content.report == Layout.SizeReport(
                windowHeight, windowWidth, windowHeight - 4, f.topLeft, windowWidth, f.bottomLeft)
    {
      Layout.Render(busy, spinner, windowHeight, windowWidth)
    }
  }
}
