/** The host's global shortcuts and main-window lifecycle: the accelerator registry that
    the shortcut module and the launched main script both drive, what a triggered
    shortcut does to the window, the four movement shortcuts, and the flags that the
    window and application events set. */
module HostShortcuts {
  import opened Wrappers

  const TriggerChannel := "global-shortcut-triggered"
  const Step := 50

  /** The main window as the handlers see it: its visibility and position. */
  datatype Window = Window(visible: bool, x: int, y: int)

  /** The main-window variable: never assigned (`undefined`), `null` after 'closed', or
      a live window. */
  datatype Slot = Unassigned | Closed | Live(window: Window)

  /** What a handler does, in order. */
  datatype Effect = Focus | Send(channel: string, kind: string) | SetPosition(x: int, y: int) | Threw(message: string)

  datatype Direction = Up | Down | Left | Right

  /** A registered callback: deliver a shortcut type to the renderer, move the window by
      an offset, or (in the launched main script) move it through a function that is
      not in scope. */
  datatype Handler = Deliver(kind: string) | Move(dx: int, dy: int) | MoveUnbound(dx: int, dy: int)

  /** The movement modifier. */
  function AltKey(platform: string): string {
    if platform == "win32" then "Alt" else "Option"
  }

  function DirectionName(d: Direction): string {
    match d
    case Up => "Up"
    case Down => "Down"
    case Left => "Left"
    case Right => "Right"
  }

  function MoveAccelerator(platform: string, d: Direction): string {
    "CommandOrControl+" + AltKey(platform) + "+" + DirectionName(d)
  }

  /** The offset of each movement shortcut. */
  function Offset(d: Direction): (int, int) {
    match d
    case Up => (0, -Step)
    case Down => (0, Step)
    case Left => (-Step, 0)
    case Right => (Step, 0)
  }

  function Opposite(d: Direction): Direction {
    match d
    case Up => Down
    case Down => Up
    case Left => Right
    case Right => Left
  }

  /** What running a handler does, given the window variable. */
  function Fire(h: Handler, slot: Slot): seq<Effect> {
    match h
    case Deliver(kind) =>
      if slot.Live? && slot.window.visible then
        [Focus, Send(TriggerChannel, kind)] + (if kind == "screenshot" then [Focus] else [])
      else []
    case Move(dx, dy) =>
      if slot.Live? then [SetPosition(slot.window.x + dx, slot.window.y + dy)] else []
    case MoveUnbound(dx, dy) =>
      if slot.Live? then [Threw("moveWindow is not defined")] else []
  }

  /** The window after the effects of a handler. */
  function Apply(slot: Slot, effects: seq<Effect>): Slot
    decreases |effects|
  {
    if effects == [] then slot
    else
      var next := match effects[0]
        case SetPosition(x, y) => if slot.Live? then Live(Window(slot.window.visible, x, y)) else slot
        case _ => slot;
      Apply(next, effects[1..])
  }

  /** The shortcut types sent to the renderer, in order. */
  function Sent(effects: seq<Effect>): seq<string> {
    if effects == [] then []
    else (if effects[0].Send? then [effects[0].kind] else []) + Sent(effects[1..])
  }

  /** A delivery happens only with a live, visible window; it focuses first and sends
      exactly the registered type, once; a screenshot focuses again afterwards. */
  lemma DeliverOnlyWhenVisible(kind: string, slot: Slot)
    ensures Sent(Fire(Deliver(kind), slot)) == if slot.Live? && slot.window.visible then [kind] else []
    ensures Fire(Deliver(kind), slot) != [] ==> Fire(Deliver(kind), slot)[0] == Focus
    ensures |Fire(Deliver(kind), slot)| == 3 <==> slot.Live? && slot.window.visible && kind == "screenshot"
    ensures Fire(Deliver(kind), slot) == [] <==> !(slot.Live? && slot.window.visible)
  {
    var es := Fire(Deliver(kind), slot);
    if slot.Live? && slot.window.visible {
      assert Sent(es[2..]) == [];
      assert Sent(es[1..]) == [kind];
    }
  }

  /** A movement shortcut moves a live window by 50 along one axis, and the opposite
      shortcut moves it back; without a window nothing happens. */
  lemma MovementShifts(d: Direction, w: Window)
    ensures var (dx, dy) := Offset(d);
      && Apply(Live(w), Fire(Move(dx, dy), Live(w))) == Live(Window(w.visible, w.x + dx, w.y + dy))
      && (dx == 0 || dy == 0) && (if dx < 0 then -dx else dx) + (if dy < 0 then -dy else dy) == 50
    ensures var (dx, dy) := Offset(d);
      var (ex, ey) := Offset(Opposite(d));
      var moved := Apply(Live(w), Fire(Move(dx, dy), Live(w)));
      Apply(moved, Fire(Move(ex, ey), moved)) == Live(w)
    ensures Offset(Up) == (0, -50) && Offset(Down) == (0, 50) && Offset(Left) == (-50, 0) && Offset(Right) == (50, 0)
    ensures var (dx, dy) := Offset(d); Fire(Move(dx, dy), Closed) == [] && Fire(Move(dx, dy), Unassigned) == []
  {
  }

  /** The four movement accelerators are distinct, and name the platform's modifier. */
  lemma MovementAccelerators(platform: string, d: Direction, e: Direction)
    ensures d != e ==> MoveAccelerator(platform, d) != MoveAccelerator(platform, e)
    ensures MoveAccelerator("win32", d) == "CommandOrControl+Alt+" + DirectionName(d)
    ensures platform != "win32" ==> MoveAccelerator(platform, d) == "CommandOrControl+Option+" + DirectionName(d)
  {
    var prefix := "CommandOrControl+" + AltKey(platform) + "+";
    assert MoveAccelerator(platform, d)[|prefix|..] == DirectionName(d);
    assert MoveAccelerator(platform, e)[|prefix|..] == DirectionName(e);
  }

  /** As written, the launched main script's movement handlers call `moveWindow`, which
      it neither defines nor imports: with a live window every press throws and the
      window does not move. */
  lemma UnboundMoveThrows(d: Direction, w: Window)
    ensures var (dx, dy) := Offset(d);
      && Fire(MoveUnbound(dx, dy), Live(w)) == [Threw("moveWindow is not defined")]
      && Apply(Live(w), Fire(MoveUnbound(dx, dy), Live(w))) == Live(w)
      && Apply(Live(w), Fire(Move(dx, dy), Live(w))) != Live(w)
  {
  }

  /** `globalShortcut.register`: an accelerator already held keeps its callback. */
  function Register(bindings: map<string, Handler>, accelerator: string, h: Handler): map<string, Handler> {
    if accelerator in bindings then bindings else bindings[accelerator := h]
  }

  /** `globalShortcut.unregister`. */
  function Unregister(bindings: map<string, Handler>, accelerator: string): map<string, Handler> {
    bindings - {accelerator}
  }

  /** Unregistering first makes the latest binding win and leaves every other
      accelerator alone; registering alone keeps an existing binding. */
  lemma RebindLatestWins(bindings: map<string, Handler>, accelerator: string, h: Handler)
    ensures Register(Unregister(bindings, accelerator), accelerator, h) == bindings[accelerator := h]
    ensures forall a :: a in bindings && a != accelerator ==>
      a in Register(Unregister(bindings, accelerator), accelerator, h)
      && Register(Unregister(bindings, accelerator), accelerator, h)[a] == bindings[a]
    ensures accelerator in bindings ==> Register(bindings, accelerator, h) == bindings
  {
  }

  /** The host process: its main-window variable, the global shortcut registry, and the
      log of what handlers did. Used for both the shortcut module and the copies of its
      logic in the launched main script. */
  class Host {
    var slot: Slot
    var bindings: map<string, Handler>
    var effects: seq<Effect>

    /** Before 'ready': no window assigned and no shortcut held. */
    constructor ()
      ensures slot == Unassigned && bindings == map[] && effects == []
    {
      slot := Unassigned;
      bindings := map[];
      effects := [];
    }

    /** `registerShortcut` and the 'setup-global-shortcut' handler. */
    method SetupShortcut(accelerator: string, kind: string)
      modifies this
      ensures bindings == Register(Unregister(old(bindings), accelerator), accelerator, Deliver(kind))
      ensures bindings == old(bindings)[accelerator := Deliver(kind)]
      ensures slot == old(slot) && effects == old(effects)
    {
      RebindLatestWins(bindings, accelerator, Deliver(kind));
      bindings := Unregister(bindings, accelerator);
      bindings := Register(bindings, accelerator, Deliver(kind));
    }

    /** `setupGlobalShortcuts`: the four movement shortcuts, registered without a prior
        unregister, each moving the window through the module's own `moveWindow`. */
    method SetupMovement(platform: string)
      modifies this
      ensures bindings == MovementBindings(old(bindings), platform, true)
      ensures slot == old(slot) && effects == old(effects)
    {
      RegisterMovement(platform, true);
    }

    /** Registers the four movement shortcuts, bound to a working move or not. */
    method RegisterMovement(platform: string, bound: bool)
      modifies this
      ensures bindings == MovementBindings(old(bindings), platform, bound)
      ensures slot == old(slot) && effects == old(effects)
    {
      bindings := Register(bindings, MoveAccelerator(platform, Up), Mover(bound, Offset(Up)));
      bindings := Register(bindings, MoveAccelerator(platform, Down), Mover(bound, Offset(Down)));
      bindings := Register(bindings, MoveAccelerator(platform, Left), Mover(bound, Offset(Left)));
      bindings := Register(bindings, MoveAccelerator(platform, Right), Mover(bound, Offset(Right)));
    }

    /** `unregisterAllShortcuts` and the 'will-quit' handler. */
    method UnregisterAll()
      modifies this
      ensures bindings == map[]
      ensures slot == old(slot) && effects == old(effects)
    {
      bindings := map[];
    }

    /** The operating system fires an accelerator: its callback runs, if one is held. */
    method Trigger(accelerator: string)
      modifies this
      ensures accelerator !in old(bindings) ==> slot == old(slot) && effects == old(effects)
      ensures accelerator in old(bindings) ==>
        var done := Fire(old(bindings)[accelerator], old(slot));
        effects == old(effects) + done && slot == Apply(old(slot), done)
      ensures bindings == old(bindings)
    {
      if accelerator in bindings {
        var done := Fire(bindings[accelerator], slot);
        effects := effects + done;
        slot := Apply(slot, done);
      }
    }

    /** `createWindow`: a window that is built becomes the variable; a failure is caught
        and leaves the variable as it was. */
    method CreateWindow(created: Option<Window>)
      modifies this
      ensures slot == if created.Some? then Live(created.value) else old(slot)
      ensures bindings == old(bindings) && effects == old(effects)
    {
      if created.Some? {
        slot := Live(created.value);
      }
    }

    /** 'ready' in the launched main script: create the window, then register the four
        movement shortcuts, whose callbacks call a `moveWindow` that is not in scope. */
    method Ready(created: Option<Window>, platform: string)
      modifies this
      ensures slot == if created.Some? then Live(created.value) else old(slot)
      ensures bindings == MovementBindings(old(bindings), platform, false)
      ensures effects == old(effects)
    {
      CreateWindow(created);
      RegisterMovement(platform, false);
    }

    /** The window's 'closed' event. */
    method OnClosed()
      modifies this
      ensures slot == Closed && bindings == old(bindings) && effects == old(effects)
    {
      slot := Closed;
    }

    /** 'activate': a window is created only when the variable is `null`; one that was
        never assigned (creation failed at 'ready') is not retried. */
    method Activate(created: Option<Window>)
      modifies this
      ensures old(slot) == Closed && created.Some? ==> slot == Live(created.value)
      ensures old(slot) != Closed || created.None? ==> slot == old(slot)
      ensures bindings == old(bindings) && effects == old(effects)
    {
      if slot == Closed {
        CreateWindow(created);
      }
    }
  }

  /** The handler a movement shortcut gets: a working move, or the launched main
      script's call to an unbound `moveWindow`. */
  function Mover(bound: bool, offset: (int, int)): Handler {
    if bound then Move(offset.0, offset.1) else MoveUnbound(offset.0, offset.1)
  }

  /** The registry after registering the four movement shortcuts. */
  function MovementBindings(bindings: map<string, Handler>, platform: string, bound: bool): map<string, Handler> {
    var b1 := Register(bindings, MoveAccelerator(platform, Up), Mover(bound, Offset(Up)));
    var b2 := Register(b1, MoveAccelerator(platform, Down), Mover(bound, Offset(Down)));
    var b3 := Register(b2, MoveAccelerator(platform, Left), Mover(bound, Offset(Left)));
    Register(b3, MoveAccelerator(platform, Right), Mover(bound, Offset(Right)))
  }

  /** On an empty registry every movement accelerator is bound to its own offset, and
      nothing else is bound. */
  lemma MovementBound(platform: string, d: Direction, bound: bool)
    ensures var b := MovementBindings(map[], platform, bound);
      MoveAccelerator(platform, d) in b && b[MoveAccelerator(platform, d)] == Mover(bound, Offset(d))
    ensures forall a :: a in MovementBindings(map[], platform, bound) ==>
      a in {MoveAccelerator(platform, Up), MoveAccelerator(platform, Down),
            MoveAccelerator(platform, Left), MoveAccelerator(platform, Right)}
  {
    MovementAccelerators(platform, Up, Down);
    MovementAccelerators(platform, Up, Left);
    MovementAccelerators(platform, Up, Right);
    MovementAccelerators(platform, Down, Left);
    MovementAccelerators(platform, Down, Right);
    MovementAccelerators(platform, Left, Right);
  }

  /** The launched main script as written: after 'ready' with a window, a movement press
      throws, records nothing else, and leaves the window where it was. */
  method PressAfterReady(w: Window, platform: string, d: Direction) returns (host: Host)
    ensures fresh(host)
    ensures host.slot == Live(w)
    ensures host.effects == [Threw("moveWindow is not defined")]
  {
    host := new Host();
    host.Ready(Some(w), platform);
    MovementBound(platform, d, false);
    host.Trigger(MoveAccelerator(platform, d));
  }

  /** The shortcut module, the intended behaviour: with a window and the movement
      shortcuts set up, a press moves the window by its offset, and pressing the opposite
      shortcut brings it back. */
  method PressAfterSetup(w: Window, platform: string, d: Direction) returns (host: Host)
    ensures fresh(host)
    ensures host.slot == Live(w)
    ensures host.effects == [SetPosition(w.x + Offset(d).0, w.y + Offset(d).1), SetPosition(w.x, w.y)]
  {
    host := new Host();
    host.CreateWindow(Some(w));
    host.SetupMovement(platform);
    MovementBound(platform, d, true);
    MovementBound(platform, Opposite(d), true);
    host.Trigger(MoveAccelerator(platform, d));
    host.Trigger(MoveAccelerator(platform, Opposite(d)));
  }
}
