/**
 * The player movement state machine: four states with their speeds, capability flags and
 * input transitions, and the context that holds the current state and the flying toggle.
 */
module Movement {

  /** The four movement states; the context keeps one instance of each. */
  datatype MovementState = Walking | Sprinting | Crouching | Flying

  /** `getSpeed()`, in blocks per second (each value is exact as a Java float). */
  function Speed(st: MovementState): (r: real)
    ensures r > 0.0
    ensures st == Walking ==> r == 4.5
    ensures st == Sprinting ==> r == 7.0
    ensures st == Crouching ==> r == 2.0
    ensures st == Flying ==> r == 10.0
  {
    match st
    case Walking => 4.5
    case Sprinting => 7.0
    case Crouching => 2.0
    case Flying => 10.0
  }

  /** `getStateName()` */
  function Name(st: MovementState): (r: string)
    ensures st == Walking ==> r == "Walking"
    ensures st == Sprinting ==> r == "Sprinting"
    ensures st == Crouching ==> r == "Crouching"
    ensures st == Flying ==> r == "Flying"
  {
    match st
    case Walking => "Walking"
    case Sprinting => "Sprinting"
    case Crouching => "Crouching"
    case Flying => "Flying"
  }

  /** Crouching is slowest, then walking, sprinting and flying; no two states share a speed or a name. */
  lemma SpeedsOrdered()
    ensures Speed(Crouching) < Speed(Walking) < Speed(Sprinting) < Speed(Flying)
    ensures forall a: MovementState, b: MovementState :: Name(a) == Name(b) ==> a == b
  {
  }

  /** The flags of `MovementState` (jumping allowed, no vertical controls, may start flying,
      no edge protection), as each state keeps or overrides them. */
  function CanJump(st: MovementState): (r: bool)
    ensures r <==> st != Flying
  {
    match st
    case Flying => false
    case _ => true
  }

  function HasVerticalMovement(st: MovementState): (r: bool)
    ensures r <==> st == Flying
  {
    match st
    case Flying => true
    case _ => false
  }

  function CanTransitionToFlying(st: MovementState): (r: bool)
    ensures r <==> st != Sprinting
  {
    match st
    case Sprinting => false
    case _ => true
  }

  function PreventsEdgeFall(st: MovementState): (r: bool)
    ensures r <==> st == Crouching
  {
    match st
    case Crouching => true
    case _ => false
  }

  /** `WalkingState.handleInput`: sprint wins over crouch, and both need the ground. */
  function WalkingInput(sprint: bool, crouch: bool, onGround: bool): (r: MovementState)
    ensures r == Sprinting <==> sprint && onGround
    ensures r == Crouching <==> !sprint && crouch && onGround
    ensures r == Walking <==> !onGround || (!sprint && !crouch)
  {
    if sprint && onGround then Sprinting
    else if crouch && onGround then Crouching
    else Walking
  }

  /** `SprintingState.handleInput`: the crouch key is ignored. */
  function SprintingInput(sprint: bool, crouch: bool, onGround: bool): (r: MovementState)
    ensures r == Sprinting <==> sprint && onGround
    ensures r == Walking <==> !(sprint && onGround)
  {
    if !onGround then Walking
    else if !sprint then Walking
    else Sprinting
  }

  /** `CrouchingState.handleInput`: the sprint key is ignored. */
  function CrouchingInput(sprint: bool, crouch: bool, onGround: bool): (r: MovementState)
    ensures r == Crouching <==> crouch && onGround
    ensures r == Walking <==> !(crouch && onGround)
  {
    if !onGround then Walking
    else if !crouch then Walking
    else Crouching
  }

  /** `FlyingState.handleInput`: landing while flying is switched off is the only way out. */
  function FlyingInput(flyingEnabled: bool, sprint: bool, crouch: bool, onGround: bool): (r: MovementState)
    ensures r == Walking <==> onGround && !flyingEnabled
    ensures r == Flying <==> !(onGround && !flyingEnabled)
  {
    if onGround && !flyingEnabled then Walking else Flying
  }

  /** `handleInput` of the state `st`, in a context whose flying toggle is `flyingEnabled`. */
  function HandleInput(st: MovementState, flyingEnabled: bool, sprint: bool, crouch: bool, onGround: bool): MovementState {
    match st
    case Walking => WalkingInput(sprint, crouch, onGround)
    case Sprinting => SprintingInput(sprint, crouch, onGround)
    case Crouching => CrouchingInput(sprint, crouch, onGround)
    case Flying => FlyingInput(flyingEnabled, sprint, crouch, onGround)
  }

  /** Input alone never starts flying, and off the ground every other state falls back to walking. */
  lemma InputTransitions(st: MovementState, flyingEnabled: bool, sprint: bool, crouch: bool, onGround: bool)
    ensures HandleInput(st, flyingEnabled, sprint, crouch, onGround) == Flying <==> st == Flying && !(onGround && !flyingEnabled)
    ensures st != Flying && !onGround ==> HandleInput(st, flyingEnabled, sprint, crouch, onGround) == Walking
    ensures HandleInput(st, flyingEnabled, sprint, crouch, onGround) == Sprinting ==> st in {Walking, Sprinting} && sprint && onGround
    ensures HandleInput(st, flyingEnabled, sprint, crouch, onGround) == Crouching ==> st in {Walking, Crouching} && crouch && onGround
  {
  }

  /** A call of the `onEnter` or `onExit` hook of a state; every hook of the four states does nothing. */
  datatype Hook = Exit(from: MovementState) | Enter(to: MovementState)

  class PlayerMovementContext {
    var current: MovementState
    var flyingEnabled: bool
    /** The hooks called so far, in order. */
    ghost var hooks: seq<Hook>

    constructor ()
      ensures current == Walking && !flyingEnabled && hooks == []
      ensures Consistent()
    {
      current := Walking;
      flyingEnabled := false;
      hooks := [];
    }

    /** Changes state, calling the old state's `onExit` and then the new state's `onEnter`;
        setting the current state again does nothing. */
    method SetState(newState: MovementState)
      modifies this
      ensures flyingEnabled == old(flyingEnabled)
      ensures old(current) == newState ==> current == old(current) && hooks == old(hooks)
      ensures old(current) != newState ==> current == newState && hooks == old(hooks) + [Exit(old(current)), Enter(newState)]
    {
      if current != newState {
        hooks := hooks + [Exit(current)];
        current := newState;
        hooks := hooks + [Enter(current)];
      }
    }

    /** Flying is switched on only while the state is `Flying`. */
    ghost predicate Consistent()
      reads this
    {
      flyingEnabled ==> current == Flying
    }

    function CurrentSpeed(): (r: real)
      reads this
      ensures r == Speed(current)
    {
      Speed(current)
    }

    function CurrentStateName(): (r: string)
      reads this
      ensures r == Name(current)
    {
      Name(current)
    }

    /** `isFlying()` */
    predicate IsFlying()
      reads this
      ensures IsFlying() <==> current == Flying
    {
      current.Flying?
    }

    function CurrentCanJump(): (r: bool)
      reads this
      ensures r == CanJump(current)
    {
      CanJump(current)
    }

    function CurrentHasVerticalMovement(): (r: bool)
      reads this
      ensures r == HasVerticalMovement(current)
    {
      HasVerticalMovement(current)
    }

    function CurrentCanTransitionToFlying(): (r: bool)
      reads this
      ensures r == CanTransitionToFlying(current)
    {
      CanTransitionToFlying(current)
    }

    function CurrentPreventsEdgeFall(): (r: bool)
      reads this
      ensures r == PreventsEdgeFall(current)
    {
      PreventsEdgeFall(current)
    }

    /** Moves to the state the current state's `handleInput` chooses. */
    method UpdateState(sprint: bool, crouch: bool, onGround: bool)
      modifies this
      ensures flyingEnabled == old(flyingEnabled)
      ensures current == HandleInput(old(current), old(flyingEnabled), sprint, crouch, onGround)
      ensures old(Consistent()) ==> Consistent()
      ensures current != old(current) ==> hooks == old(hooks) + [Exit(old(current)), Enter(current)]
      ensures current == old(current) ==> hooks == old(hooks)
    {
      var newState := match current
        case Walking => WalkingInput(sprint, crouch, onGround)
        case Sprinting => SprintingInput(sprint, crouch, onGround)
        case Crouching => CrouchingInput(sprint, crouch, onGround)
        case Flying => FlyingInput(flyingEnabled, sprint, crouch, onGround);
      SetState(newState);
    }

    /** Switching flying on always ends in `Flying`; switching it off lands a flyer and leaves
        any other state alone. */
    method SetFlyingEnabled(enabled: bool)
      modifies this
      ensures flyingEnabled == enabled
      ensures current == FlyingTarget(old(current), enabled)
      ensures Consistent()
      ensures current != old(current) ==> hooks == old(hooks) + [Exit(old(current)), Enter(current)]
      ensures current == old(current) ==> hooks == old(hooks)
    {
      flyingEnabled := enabled;
      if enabled {
        SetState(Flying);
      } else if IsFlying() {
        SetState(Walking);
      }
    }

    /** `toggleFlying()` */
    method ToggleFlying()
      modifies this
      ensures flyingEnabled == !old(flyingEnabled)
      ensures current == FlyingTarget(old(current), !old(flyingEnabled))
      ensures Consistent()
    {
      SetFlyingEnabled(!flyingEnabled);
    }
  }

  /** The state `setFlyingEnabled(enabled)` leaves behind. */
  function FlyingTarget(st: MovementState, enabled: bool): (r: MovementState)
    ensures enabled ==> r == Flying
    ensures !enabled ==> r == (if st == Flying then Walking else st)
  {
    if enabled then Flying else if st == Flying then Walking else st
  }

  /** While flying is switched on, no input leads out of `Flying`. */
  lemma EnabledKeepsFlying(st: MovementState, sprint: bool, crouch: bool, onGround: bool)
    ensures FlyingTarget(st, true) == Flying
    ensures HandleInput(Flying, true, sprint, crouch, onGround) == Flying
  {
  }
}
