/** The event-loop closure of `lib.rs`: how window events, timer events and
    the outcome of `render` become calls on the `State` and the decision to
    leave the loop. The closure is an `App` whose `HandleEvent` runs once per
    event; `exited` is `elwt.exit()` having been called, `redrawRequests`
    counts `window.request_redraw()` and `errorReports` holds what
    `eprintln!` printed. */
module EventLoop {
  import opened Gpu
  import opened RenderState

  datatype WindowId = WindowId(id: nat)

  /** `CustomEvent`; the only one the timer thread sends is `Timer`. */
  datatype CustomEvent = Timer

  datatype WindowEvent = CloseRequested | Resized(newSize: PhysicalSize) | RedrawRequested | OtherWindowEvent

  datatype Event =
    | UserEvent(custom: CustomEvent)
    | WindowEventFor(windowId: WindowId, event: WindowEvent)
    | OtherEvent

  /** What the closure does with an event before `render` has answered. */
  datatype Action = RequestRedraw | Exit | ResizeTo(size: PhysicalSize) | RenderFrame | Ignore

  /** The outer and inner `match` of the closure. Only events of the app's
      own window act on the state; any user event asks for a redraw. */
  function Dispatch(event: Event, window: WindowId): (a: Action)
    ensures a == Exit <==> event == WindowEventFor(window, CloseRequested)
    ensures a == RenderFrame <==> event == WindowEventFor(window, RedrawRequested)
    ensures a.ResizeTo? <==> event.WindowEventFor? && event.windowId == window && event.event.Resized?
    ensures a.ResizeTo? ==> a.size == event.event.newSize
    ensures a == RequestRedraw <==> event.UserEvent?
    ensures event.WindowEventFor? && event.windowId != window ==> a == Ignore
  {
    match event
    case UserEvent(_) => RequestRedraw
    case WindowEventFor(id, e) =>
      if id != window then Ignore
      else (match e
            case CloseRequested => Exit
            case Resized(s) => ResizeTo(s)
            case RedrawRequested => RenderFrame
            case OtherWindowEvent => Ignore)
    case OtherEvent => Ignore
  }

  /** What follows the result of `render`. */
  datatype Recovery = Continue | ResizeToLastSize | ExitLoop | Report(error: SurfaceError)

  /** The `match state.render()` arms: a lost surface is reconfigured at the
      last known size, running out of memory ends the loop, and every other
      error, `Outdated` and `Timeout` included, is only printed. */
  function Recover(r: Result<(), SurfaceError>): (rec: Recovery)
    ensures rec == Continue <==> r.Ok?
    ensures rec == ResizeToLastSize <==> r == Err(Lost)
    ensures rec == ExitLoop <==> r == Err(OutOfMemory)
    ensures r.Err? && r.error != Lost && r.error != OutOfMemory ==> rec == Report(r.error)
  {
    match r
    case Ok(_) => Continue
    case Err(Lost) => ResizeToLastSize
    case Err(OutOfMemory) => ExitLoop
    case Err(e) => Report(e)
  }

  /** What `render` returns when the surface answers `acquired`. */
  function RenderResult(acquired: Result<SurfaceTexture, SurfaceError>): Result<(), SurfaceError> {
    if acquired.Err? then Err(acquired.error) else Ok(())
  }

  /** The GPU calls of one redraw: the frame, then the recovery resize when
      the surface was lost. */
  function RedrawEffects(acquired: Result<SurfaceTexture, SurfaceError>, size: PhysicalSize,
                         config: SurfaceConfiguration, numIndices: nat, instanceCount: nat): seq<Effect>
  {
    FrameEffects(acquired, numIndices, instanceCount)
    + (if Recover(RenderResult(acquired)) == ResizeToLastSize then ResizeEffects(size, config) else [])
  }

  /** The GPU calls one event causes. */
  function EventEffects(event: Event, window: WindowId, acquired: Result<SurfaceTexture, SurfaceError>,
                        size: PhysicalSize, config: SurfaceConfiguration,
                        numIndices: nat, instanceCount: nat): seq<Effect>
  {
    match Dispatch(event, window)
    case ResizeTo(s) => ResizeEffects(s, config)
    case RenderFrame => RedrawEffects(acquired, size, config, numIndices, instanceCount)
    case _ => []
  }

  /** The stored size after one event: only an accepted resize changes it
      (the recovery resize of a lost surface re-stores the same size). */
  function SizeAfter(event: Event, window: WindowId, size: PhysicalSize): PhysicalSize {
    match Dispatch(event, window)
    case ResizeTo(s) => if IsResizeIgnored(s) then size else s
    case _ => size
  }

  /** Whether the event makes the closure call `elwt.exit()`. */
  predicate ExitsLoop(event: Event, window: WindowId, acquired: Result<SurfaceTexture, SurfaceError>) {
    || Dispatch(event, window) == Exit
    || (Dispatch(event, window) == RenderFrame && Recover(RenderResult(acquired)) == ExitLoop)
  }

  /** A lost surface costs the frame and nothing else: no draw, no
      submission, no present, and at most one reconfiguration, with the
      configuration unchanged; there is none exactly when the last known
      size is 0x0. */
  lemma {:induction false} LostSurfaceRecovery(size: PhysicalSize, config: SurfaceConfiguration,
                                               numIndices: nat, instanceCount: nat)
    requires config.width == size.width && config.height == size.height
    ensures var fx := RedrawEffects(Err(Lost), size, config, numIndices, instanceCount);
            && CountOf(fx, Draw) == 0 && CountOf(fx, Submission) == 0 && CountOf(fx, Presentation) == 0
            && CountOf(fx, Configure) <= 1
            && (CountOf(fx, Configure) == 1 <==> size != PhysicalSize(0, 0))
            && (fx == [] || fx == [ConfigureSurface(config)])
  {
    var fx := RedrawEffects(Err(Lost), size, config, numIndices, instanceCount);
    LostRedrawIsRecoveryResize(size, config, numIndices, instanceCount);
    ResizeToCurrentSize(size, config);
    if size == PhysicalSize(0, 0) {
      assert fx == [];
    } else {
      assert fx == [ConfigureSurface(config)];
      CountOfSingleton(ConfigureSurface(config));
    }
  }

  lemma LostRedrawIsRecoveryResize(size: PhysicalSize, config: SurfaceConfiguration, numIndices: nat, instanceCount: nat)
    ensures RedrawEffects(Err(Lost), size, config, numIndices, instanceCount) == ResizeEffects(size, config)
  {
    assert FrameEffects(Err(Lost), numIndices, instanceCount) == [];
  }

  /** Every redraw submits at most once, and exactly once when the surface
      hands out an image; only a lost surface reconfigures it. */
  lemma {:induction false} OneSubmissionPerRedraw(acquired: Result<SurfaceTexture, SurfaceError>,
                                                  size: PhysicalSize, config: SurfaceConfiguration,
                                                  numIndices: nat, instanceCount: nat)
    ensures var fx := RedrawEffects(acquired, size, config, numIndices, instanceCount);
            && (CountOf(fx, Submission) == 1 <==> acquired.Ok?)
            && CountOf(fx, Submission) <= 1
            && (CountOf(fx, Configure) > 0 ==> acquired == Err(Lost))
  {
    var frame := FrameEffects(acquired, numIndices, instanceCount);
    var recovery := if Recover(RenderResult(acquired)) == ResizeToLastSize then ResizeEffects(size, config) else [];
    CountOfAppend(frame, recovery, Submission);
    CountOfAppend(frame, recovery, Configure);
    CountOfNone(recovery, Submission);
    if acquired.Ok? {
      SuccessfulFrameProtocol(numIndices, instanceCount);
      CountOfNone(recovery, Configure);
    } else {
      CountOfNone(frame, Submission);
      CountOfNone(frame, Configure);
      if acquired != Err(Lost) {
        CountOfNone(recovery, Configure);
      }
    }
  }

  class App {
    const state: State
    const window: WindowId
    var exited: bool
    ghost var redrawRequests: nat
    ghost var errorReports: seq<SurfaceError>

    ghost predicate Valid()
      reads this, state
    {
      state.Valid()
    }

    constructor (state: State, window: WindowId)
      requires state.Valid()
      ensures Valid() && this.state == state && this.window == window
      ensures !exited && redrawRequests == 0 && errorReports == []
    {
      this.state := state;
      this.window := window;
      exited := false;
      redrawRequests := 0;
      errorReports := [];
    }

    /** One call of the event-loop closure. `acquired` is what the surface
        answers if this event renders a frame. */
    method HandleEvent(event: Event, acquired: Result<SurfaceTexture, SurfaceError>)
      requires Valid()
      modifies this`exited, this`redrawRequests, this`errorReports, state`size, state`config, state`log
      ensures Valid()
      ensures state.log == old(state.log) + EventEffects(event, window, acquired, old(state.size), old(state.config),
                                                         state.numIndices, |state.instances|)
      ensures state.size == SizeAfter(event, window, old(state.size))
      ensures state.config == old(state.config).(width := state.size.width, height := state.size.height)
      ensures state.camera == old(state.camera)
      ensures exited == (old(exited) || ExitsLoop(event, window, acquired))
      ensures redrawRequests == old(redrawRequests) + (if Dispatch(event, window) == RequestRedraw then 1 else 0)
      ensures errorReports == old(errorReports) +
                (if Dispatch(event, window) == RenderFrame && Recover(RenderResult(acquired)).Report?
                 then [acquired.error] else [])
    {
      match event {
        case UserEvent(_) =>
          redrawRequests := redrawRequests + 1;
        case WindowEventFor(id, e) =>
          if id == window {
            match e {
              case CloseRequested =>
                exited := true;
              case Resized(physicalSize) =>
                state.Resize(physicalSize);
              case RedrawRequested =>
                var r := state.Render(acquired);
                match r {
                  case Ok(_) =>
                  case Err(Lost) =>
                    state.Resize(state.size);
                  case Err(OutOfMemory) =>
                    exited := true;
                  case Err(err) =>
                    errorReports := errorReports + [err];
                }
              case OtherWindowEvent =>
            }
          }
        case OtherEvent =>
      }
    }
  }
}
