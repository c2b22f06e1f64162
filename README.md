# Three-row layout with a spinner, in Dafny

A model of the core of `three-row-with-spinner/main.go`, a terminal program
that draws a header row split in two, a content region, and a footer row
split in three, and that shows a spinner in the content region until a
pretend piece of work reports completion.

- `go_int.dfy` (module `GoInt`): Go's integer `/` (truncating toward zero)
  and `%` (sign of the dividend), written out because Dafny's operators are
  Euclidean. Both require a non-zero divisor, where Go panics.
- `layout.dfy` (module `Layout`): `fixSize`, and the part of `View` that
  sizes the regions and chooses what the content region shows. A rendered
  frame is reduced to its region widths and heights and to its content: the
  spinner's state while busy, otherwise the sizes the size report is built
  from, as the program hands them to the renderer.
- `controller.dfy` (module `Controller`): `Update` as a pure transition
  function over the state (window height and width, `busy`, spinner), a
  fold `Run` over a sequence of messages, and the lemmas about runs.
- `program.dfy` (module `Program`): the class `Model`, with one method per
  kind of message that updates the fields in place, and a method `Update`
  proved to agree with `Controller.Update`.

The spinner is opaque: its state is a type parameter `S`, and its own update
is a function parameter `step`, which returns the next spinner state and
whether the spinner asked for a follow-up command (its next tick). Messages
that `Update` does not name itself carry a payload of type `T`.

In the program the window size lives in two package-level variables and
`Update` has a value receiver, so it returns an updated copy of the model
that the runtime keeps. The model keeps the size as fields of `Model` beside
`busy` and the spinner, and updates them in place; the observable sequence
of states is the same.

## Model

| member | source | states |
|---|---|---|
| GoInt.Quo | three-row-with-spinner/main.go:154-156 | Go's `/`: agrees with Euclidean division for a non-negative dividend and positive divisor; the quotient times the divisor is within one divisor of the dividend and never beyond it in magnitude; the quotient's sign is the product of the operands' signs |
| GoInt.Rem | three-row-with-spinner/main.go:152 | Go's `%`: `a == b * (a / b) + a % b`, the remainder is smaller than the divisor in magnitude and has the dividend's sign; agrees with Euclidean `%` for non-negative operands |
| GoInt.QuoOdd | three-row-with-spinner/main.go:152-156 | truncation toward zero: negating the dividend negates both quotient and remainder |
| Layout.FixSize | three-row-with-spinner/main.go:151-158 | never below the plain share `total / parts`; equal to it exactly when the remainder is not positive; for `total >= 0` and `parts > 0`, `parts - 1` plain shares plus `fixSize` add up to `total` |
| Layout.FixSizeCases | three-row-with-spinner/main.go:151-158 | for `total >= 0`, `parts > 0`: `fixSize` is `total / parts` when the split is even and `total / parts + total % parts` otherwise, and it exceeds the plain share exactly when the remainder is non-zero |
| Layout.Render | three-row-with-spinner/main.go:83-119 | for a width `W >= 0` the two top widths and the three bottom widths each sum to `W`, the top-left region is at most one column wider than the top-right, the bottom-left and bottom-center are equal and the bottom-right is at most two wider; the middle region is `W` by `H - 4`; the content is the spinner exactly when busy, and otherwise carries the report built from `H`, `W` and the middle height, top-left width, middle width and bottom-left width handed to the renderer |
| Layout.SmallWindow | three-row-with-spinner/main.go:100 | no clamp: a window of at most four lines gives a middle height of at most zero, negative exactly when the window has fewer than four lines |
| Controller.Init | three-row-with-spinner/main.go:13-28 | the start state: size 0 by 0, busy, the initial spinner |
| Controller.Update | three-row-with-spinner/main.go:43-74 | busy after the message iff busy before and the message is not completion; a resize stores exactly its height and width and nothing else changes the size; the spinner moves (to `step`'s result) only on other messages while busy; the command is Quit iff the message is the key `ctrl+c` or `q`, and the spinner's command iff busy, an other message, and the spinner asked for one |
| Controller.BusyUntilCompletion | three-row-with-spinner/main.go:50-52 | after any sequence of messages the program is busy iff it was busy at the start and no completion message came: busy turns false once and never back |
| Controller.FrozenWhenIdle | three-row-with-spinner/main.go:65-71 | once not busy, no sequence of messages makes it busy again or changes the spinner |
| Controller.SizeIsLatest | three-row-with-spinner/main.go:54-57 | after any sequence of messages the stored size is that of the last resize in it (searched from the end), or the starting size if there was none |
| Controller.Scenario | three-row-with-spinner/main.go:54-119 | start, resize to 24 by 80: frame widths 40/40 and 26/26/28, middle 80 by 20, spinner shown; after completion the same sizes and the report 24, 80, 20, 40, 80, 26 |
| Program.Model.constructor | three-row-with-spinner/main.go:24-28 | the new model's state is `Controller.Init` of the spinner |
| Program.Model.SpendTimeDone | three-row-with-spinner/main.go:50-52 | clears `busy`, changes nothing else, returns no command |
| Program.Model.WindowSize | three-row-with-spinner/main.go:54-57 | stores exactly the given height and width, changes nothing else, returns no command |
| Program.Model.Key | three-row-with-spinner/main.go:59-64 | changes nothing; returns Quit for `ctrl+c` and `q`, no command for every other key |
| Program.Model.Other | three-row-with-spinner/main.go:65-71 | while busy the spinner becomes `step`'s result and the command is the spinner's when it asked for one; when not busy the spinner is unchanged and there is no command; nothing else changes |
| Program.Model.Update | three-row-with-spinner/main.go:43-74 | the new state and the command are exactly those of `Controller.Update` on the old state |
| Program.Model.View | three-row-with-spinner/main.go:77-121 | the frame of the current state: rows span the window for `W >= 0`, the middle region is `W` by `H - 4`; while busy the content is the current spinner state, otherwise the report of `H`, `W`, `H - 4`, the top-left width, `W` and the bottom-left width |

## Left out

- Rendering: borders, alignment, colours, the literal labels and phrases, and the joining of rows and columns belong to the rendering library; a frame is reduced to its sizes and content.
- The spinner's animation (`spinner.New`, its `Update`, `View` and `Tick`) is an external library: its state and step are parameters.
- `Init` and `mockSpendTime` (the two-second sleep and the delivery of the completion message in the background) are timing and concurrency, not logic.
- `main`: starting the program, the alternate screen, printing the error and exiting with status 1 are process and terminal I/O.
- Stopping the event loop after the Quit command is the runtime's behaviour; `Controller.Run` folds every message it is given.
- Go's `int` is 64 bits wide; the model uses unbounded integers, so `H - 4` does not wrap for a height near the minimum 64-bit value. Terminals never report such sizes.
- Layout.Render: the size report holds the height and widths the program passes to the renderer's Width and Height setters; the program prints what the renderer's getters return, and what those return, in particular for a negative height below four lines, is not modelled.
- The row partitions are stated for non-negative widths only: Go's truncating division is modelled for negative widths too, but terminals never report them.
