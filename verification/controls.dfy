/** Keyboard control: the arrow keys switch the three engines on (key down)
    and off (key up). Other keys are ignored and keep their default browser
    behaviour. */
module Controls {
  import opened Lander

  /** Key codes of the arrow keys the game listens to. */
  const LeftArrow: int := 37
  const RightArrow: int := 39
  const DownArrow: int := 40

  datatype Engine = LeftEngine | RightEngine | MainEngine

  /** The key binding table: which engine, if any, a key code drives. */
  datatype Binding = Unbound | Bound(engine: Engine)

  function BindingOf(keyCode: int): Binding {
    if keyCode == LeftArrow then Bound(LeftEngine)
    else if keyCode == RightArrow then Bound(RightEngine)
    else if keyCode == DownArrow then Bound(MainEngine)
    else Unbound
  }

  /** The current state of one engine flag. */
  function Flag(s: Ship, e: Engine): bool {
    match e
    case LeftEngine => s.leftEngine
    case RightEngine => s.rightEngine
    case MainEngine => s.mainEngine
  }

  /** The ship after a key event, and whether the event was handled (in
      which case the browser's default action, such as scrolling, is
      suppressed). */
  datatype KeyResult = KeyResult(ship: Ship, handled: bool)

  /** The effect a handled key event must have: the bound engine's flag
      becomes `on`, and nothing else about the ship changes. */
  predicate Switched(s: Ship, e: Engine, on: bool, t: Ship) {
    && Flag(t, e) == on
    && (forall e': Engine :: e' != e ==> Flag(t, e') == Flag(s, e'))
    && SameButEngines(s, t)
  }

  /** Key down. */
  function KeyPressed(s: Ship, keyCode: int): (r: KeyResult)
    ensures r.handled <==> BindingOf(keyCode).Bound?
    ensures r.handled ==> Switched(s, BindingOf(keyCode).engine, true, r.ship)
    ensures !r.handled ==> r.ship == s
  {
    if keyCode == LeftArrow then KeyResult(s.(leftEngine := true), true)
    else if keyCode == RightArrow then KeyResult(s.(rightEngine := true), true)
    else if keyCode == DownArrow then KeyResult(s.(mainEngine := true), true)
    else KeyResult(s, false)
  }

  /** Key up. */
  function KeyLetGo(s: Ship, keyCode: int): (r: KeyResult)
    ensures r.handled <==> BindingOf(keyCode).Bound?
    ensures r.handled ==> Switched(s, BindingOf(keyCode).engine, false, r.ship)
    ensures !r.handled ==> r.ship == s
  {
    if keyCode == LeftArrow then KeyResult(s.(leftEngine := false), true)
    else if keyCode == RightArrow then KeyResult(s.(rightEngine := false), true)
    else if keyCode == DownArrow then KeyResult(s.(mainEngine := false), true)
    else KeyResult(s, false)
  }

  /** Pressing and then releasing a key is the same as only releasing it:
      the press leaves no trace, and the key's engine ends up off. */
  lemma PressThenRelease(s: Ship, keyCode: int)
    ensures KeyLetGo(KeyPressed(s, keyCode).ship, keyCode) == KeyLetGo(s, keyCode)
    ensures BindingOf(keyCode).Bound? ==>
      !Flag(KeyLetGo(KeyPressed(s, keyCode).ship, keyCode).ship, BindingOf(keyCode).engine)
  {
  }

  /** Holding a key down while it auto-repeats changes nothing further;
      the same holds for releasing. */
  lemma RepeatedEventsAreIdempotent(s: Ship, keyCode: int)
    ensures KeyPressed(KeyPressed(s, keyCode).ship, keyCode) == KeyPressed(s, keyCode)
    ensures KeyLetGo(KeyLetGo(s, keyCode).ship, keyCode) == KeyLetGo(s, keyCode)
  {
  }

  /** A key event of either kind: down when `down`, up otherwise. */
  function KeyEvent(s: Ship, keyCode: int, down: bool): Ship {
    if down then KeyPressed(s, keyCode).ship else KeyLetGo(s, keyCode).ship
  }

  /** Events for different keys commute: the engines are independent. */
  lemma DifferentKeysCommute(s: Ship, k1: int, k2: int, down1: bool, down2: bool)
    requires k1 != k2
    ensures KeyEvent(KeyEvent(s, k1, down1), k2, down2) == KeyEvent(KeyEvent(s, k2, down2), k1, down1)
  {
    if BindingOf(k1).Bound? && BindingOf(k2).Bound? {
      assert BindingOf(k1).engine != BindingOf(k2).engine;
    }
  }
}
