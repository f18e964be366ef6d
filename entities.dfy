/**
 * character/Entity.java: the action state machine shared by every character.
 * Its state is two action flags (attacking, dodging), the facing flag, which
 * of the seven animations is current, the buffered movement and the
 * coordinates.  The seven animations are distinct Animation objects.
 */
module Entities {
  import opened Wrappers
  import opened Vectors
  import opened Animations
  import Stats

  /**
   * What a subclass constructor assigns: the arguments of `setAnimations`,
   * the coordinates, the facing flag and the stats; `None` for a field the
   * constructor leaves at its Java default.
   */
  datatype Setup = Setup(
    animations: Option<seq<string>>,
    coordinates: Option<Vec>,
    isFacingLeft: Option<bool>,
    stats: Option<Stats.StatsValue>)

  /** The value of `isFacingLeft` after construction: a boolean field defaults to false. */
  function FacingLeftAfter(s: Setup): (r: bool)
    ensures r ==> s.isFacingLeft == Some(true)
  {
    s.isFacingLeft.Some? && s.isFacingLeft.value
  }

  /** The seven animation fields of an entity. */
  datatype Slot =
    | StandingAnim | LeftRunAnim | RightRunAnim
    | LeftAttackAnim | RightAttackAnim | LeftDodgeAnim | RightDodgeAnim

  /** `Entity.AnimationIndex`. */
  datatype AnimationIndex = Standing | LeftRun | RightRun | Attack | Dodge

  /** The value of an entity: what `move`, `attack`, `dodge` and `swapAnimation` read and write. */
  datatype Body = Body(
    coordinates: Vec,
    isAttacking: bool,
    isDodging: bool,
    isFacingLeft: bool,
    bufferedMovement: Option<Vec>,
    current: Slot,
    anims: AnimTable)

  /** The states of the seven animation objects, one per field. */
  datatype AnimTable = AnimTable(
    standing: AnimState, leftRun: AnimState, rightRun: AnimState,
    leftAttack: AnimState, rightAttack: AnimState, rightDodge: AnimState, leftDodge: AnimState)
  {
    function Get(s: Slot): AnimState {
      match s
      case StandingAnim => standing
      case LeftRunAnim => leftRun
      case RightRunAnim => rightRun
      case LeftAttackAnim => leftAttack
      case RightAttackAnim => rightAttack
      case LeftDodgeAnim => leftDodge
      case RightDodgeAnim => rightDodge
    }

    function Set(s: Slot, a: AnimState): (r: AnimTable)
      ensures r.Get(s) == a
      ensures forall t: Slot :: t != s ==> r.Get(t) == Get(t)
    {
      match s
      case StandingAnim => this.(standing := a)
      case LeftRunAnim => this.(leftRun := a)
      case RightRunAnim => this.(rightRun := a)
      case LeftAttackAnim => this.(leftAttack := a)
      case RightAttackAnim => this.(rightAttack := a)
      case LeftDodgeAnim => this.(leftDodge := a)
      case RightDodgeAnim => this.(rightDodge := a)
    }
  }

  predicate AllSlots(t: AnimTable) {
    Inv(t.standing) && Inv(t.leftRun) && Inv(t.rightRun) && Inv(t.leftAttack)
    && Inv(t.rightAttack) && Inv(t.rightDodge) && Inv(t.leftDodge)
  }

  lemma AllSlotsGet(t: AnimTable, s: Slot)
    requires AllSlots(t)
    ensures Inv(t.Get(s))
  {
  }

  lemma AllSlotsSet(t: AnimTable, s: Slot, a: AnimState)
    requires AllSlots(t) && Inv(a)
    ensures AllSlots(t.Set(s, a))
  {
  }

  /**
   * The invariant every operation keeps: the two action flags exclusive, a
   * running animation shown only with the matching facing, every animation
   * in its own invariant.
   */
  predicate BodyInv(b: Body) {
    !(b.isAttacking && b.isDodging)
    && (b.current == LeftRunAnim ==> b.isFacingLeft)
    && (b.current == RightRunAnim ==> !b.isFacingLeft)
    && AllSlots(b.anims)
  }

  /** While an action flag is set, the current animation is that action's. */
  predicate ShowsAction(b: Body) {
    (b.isAttacking ==> b.current in {LeftAttackAnim, RightAttackAnim})
    && (b.isDodging ==> b.current in {LeftDodgeAnim, RightDodgeAnim})
  }

  function AttackSlot(facingLeft: bool): Slot {
    if facingLeft then LeftAttackAnim else RightAttackAnim
  }

  function DodgeSlot(facingLeft: bool): Slot {
    if facingLeft then LeftDodgeAnim else RightDodgeAnim
  }

  /** `current.stop(); current = to;` then `play()` (a loop) or `playOnce()`. */
  function Switch(b: Body, to: Slot, loop: bool): (r: Body)
    requires AllSlots(b.anims)
    ensures AllSlots(r.anims) && r.current == to
    ensures r == b.(current := to, anims := r.anims)
  {
    AllSlotsGet(b.anims, b.current);
    var stopped := b.anims.Set(b.current, Stopped(b.anims.Get(b.current)));
    AllSlotsSet(b.anims, b.current, Stopped(b.anims.Get(b.current)));
    AllSlotsGet(stopped, to);
    var started := if loop then Started(stopped.Get(to)) else StartedOnce(stopped.Get(to));
    AllSlotsSet(stopped, to, started);
    b.(current := to, anims := stopped.Set(to, started))
  }

  /** The current animation is stopped, then the one of `to` is started. */
  lemma SwitchShape(b: Body, to: Slot, loop: bool)
    requires AllSlots(b.anims)
    ensures var stopped := b.anims.Set(b.current, Stopped(b.anims.Get(b.current)));
            var started := if loop then Started(stopped.Get(to)) else StartedOnce(stopped.Get(to));
            Switch(b, to, loop) == b.(current := to, anims := stopped.Set(to, started))
  {
  }

  /** `swapAnimation(index)`. */
  function Swap(b: Body, index: AnimationIndex): (r: Body)
    requires AllSlots(b.anims)
    ensures AllSlots(r.anims)
    ensures BodyInv(b) ==> BodyInv(r)
    ensures r.coordinates == b.coordinates && r.bufferedMovement == b.bufferedMovement
    ensures r.isAttacking == b.isAttacking && r.isDodging == b.isDodging
  {
    var idle := !b.isAttacking && !b.isDodging;
    match index
    case Standing =>
      if b.current != StandingAnim && idle then Switch(b, StandingAnim, true) else b
    case LeftRun =>
      if b.current != LeftRunAnim && idle then Switch(b.(isFacingLeft := true), LeftRunAnim, true) else b
    case RightRun =>
      if b.current != RightRunAnim && idle then Switch(b.(isFacingLeft := false), RightRunAnim, true) else b
    case Attack => Switch(b, AttackSlot(b.isFacingLeft), false)
    case Dodge => Switch(b, DodgeSlot(b.isFacingLeft), false)
  }

  /** `attack()`: acts only when neither attacking nor dodging. */
  function DoAttack(b: Body): (r: Body)
    requires AllSlots(b.anims)
    ensures AllSlots(r.anims)
    ensures b.isAttacking || b.isDodging ==> r == b
    ensures !b.isAttacking && !b.isDodging ==>
      r.isAttacking && !r.isDodging && r.current == AttackSlot(b.isFacingLeft)
      && r.anims.Get(r.current).isPlaying && r.anims.Get(r.current).onceRunning && r.anims.Get(r.current).frameIndex == 0
      && r.isFacingLeft == b.isFacingLeft && r.coordinates == b.coordinates
    ensures BodyInv(b) ==> BodyInv(r)
    ensures ShowsAction(b) ==> ShowsAction(r)
  {
    if !b.isAttacking && !b.isDodging then Swap(b.(isAttacking := true), Attack) else b
  }

  /** `dodge()`: acts only when neither dodging nor attacking. */
  function DoDodge(b: Body): (r: Body)
    requires AllSlots(b.anims)
    ensures AllSlots(r.anims)
    ensures b.isAttacking || b.isDodging ==> r == b
    ensures !b.isAttacking && !b.isDodging ==>
      r.isDodging && !r.isAttacking && r.current == DodgeSlot(b.isFacingLeft)
      && r.anims.Get(r.current).isPlaying && r.anims.Get(r.current).onceRunning && r.anims.Get(r.current).frameIndex == 0
      && r.isFacingLeft == b.isFacingLeft && r.coordinates == b.coordinates
    ensures BodyInv(b) ==> BodyInv(r)
    ensures ShowsAction(b) ==> ShowsAction(r)
  {
    if !b.isAttacking && !b.isDodging then Swap(b.(isDodging := true), Dodge) else b
  }

  /** The first step of `move`: an action flag is cleared once the current animation stops playing. */
  function Settle(b: Body): (r: Body)
    requires AllSlots(b.anims)
    ensures r == b.(isDodging := r.isDodging, isAttacking := r.isAttacking)
    ensures r.isDodging == (b.isDodging && b.anims.Get(b.current).isPlaying)
    ensures r.isAttacking == (b.isAttacking && b.anims.Get(b.current).isPlaying)
  {
    var playing := b.anims.Get(b.current).isPlaying;
    b.(isDodging := b.isDodging && playing, isAttacking := b.isAttacking && playing)
  }

  /** `move` dereferences the buffered movement exactly when the dodge goes on; an unset buffer is a NullPointerException. */
  predicate MoveDefined(b: Body)
    requires AllSlots(b.anims)
  {
    Settle(b).isDodging ==> b.bufferedMovement.Some?
  }

  /** The run animation a non-dodging move asks for. */
  function RunIndex(dx: real, dy: real, facingLeft: bool): AnimationIndex {
    if dx > 0.0 || (dx == 0.0 && dy != 0.0 && !facingLeft) then RightRun
    else if dx < 0.0 || (dx == 0.0 && dy != 0.0 && facingLeft) then LeftRun
    else Standing
  }

  /** `move(dx, dy)`; `None` is the NullPointerException of a dodge with no buffered movement. */
  function Moved(b: Body, dx: real, dy: real): (r: Option<Body>)
    requires AllSlots(b.anims)
    ensures r.Some? <==> MoveDefined(b)
    ensures r.Some? ==> AllSlots(r.value.anims)
    ensures r.Some? && BodyInv(b) ==> BodyInv(r.value)
    ensures r.Some? && ShowsAction(b) ==> ShowsAction(r.value)
    ensures r.Some? ==> !r.value.isAttacking || b.isAttacking
    ensures r.Some? ==> !r.value.isDodging || b.isDodging
  {
    var s := Settle(b);
    if s.isDodging then
      if b.bufferedMovement.None? then None
      else
        var buf := b.bufferedMovement.value;
        var step := if IsNull(buf) then Vec(if s.isFacingLeft then -4.0 else 4.0, dy) else buf;
        Some(s.(bufferedMovement := Some(step), coordinates := Plus(s.coordinates, Scale(step, 3.0))))
    else
      var t := Swap(s, RunIndex(dx, dy, s.isFacingLeft));
      Some(t.(bufferedMovement := Some(Vec(dx, dy)), coordinates := Plus(t.coordinates, Vec(dx, dy))))
  }

  /** One firing of a timer of animation `slot`: the loop timer when `loop`, the once timer otherwise. */
  function TimerFires(b: Body, slot: Slot, loop: bool): (r: Body)
    requires AllSlots(b.anims)
    ensures r == b.(anims := r.anims) && AllSlots(r.anims)
    ensures BodyInv(b) ==> BodyInv(r)
    ensures ShowsAction(b) ==> ShowsAction(r)
  {
    AllSlotsGet(b.anims, slot);
    var a := if loop then LoopStep(b.anims.Get(slot)) else OnceStep(b.anims.Get(slot));
    AllSlotsSet(b.anims, slot, a);
    b.(anims := b.anims.Set(slot, a))
  }

  /** `setAnimations(dir)` then the coordinates and facing a subclass constructor assigns. */
  function Spawned(coordinates: Vec, isFacingLeft: bool, anims: AnimTable): (r: Body)
    requires AllSlots(anims)
    ensures BodyInv(r) && ShowsAction(r)
    ensures r.current == StandingAnim && r.anims.standing.isPlaying
    ensures !r.isAttacking && !r.isDodging && r.bufferedMovement.None?
  {
    Body(coordinates, false, false, isFacingLeft, None, StandingAnim,
         anims.(standing := Started(anims.standing)))
  }

  /** Swapping to a standing or running animation is a no-op while acting or when it is already current. */
  lemma SwapToRunNoOp(b: Body, index: AnimationIndex)
    requires AllSlots(b.anims)
    requires index in {Standing, LeftRun, RightRun}
    requires b.isAttacking || b.isDodging
           || b.current == (match index case Standing => StandingAnim case LeftRun => LeftRunAnim case _ => RightRunAnim)
    ensures Swap(b, index) == b
  {
  }

  /** Facing changes only when a running animation is actually swapped in, and then it matches the run. */
  lemma SwapFacing(b: Body, index: AnimationIndex)
    requires AllSlots(b.anims)
    ensures Swap(b, index).isFacingLeft != b.isFacingLeft ==>
      (index == LeftRun && Swap(b, index).current == LeftRunAnim && Swap(b, index).isFacingLeft)
      || (index == RightRun && Swap(b, index).current == RightRunAnim && !Swap(b, index).isFacingLeft)
    ensures Swap(b, index).isFacingLeft != b.isFacingLeft ==> Swap(b, index).current != b.current
  {
  }

  /** A move while not dodging adds (dx, dy) and asks for the run animation of its direction. */
  lemma MoveWalks(b: Body, dx: real, dy: real)
    requires BodyInv(b) && !Settle(b).isDodging
    ensures Moved(b, dx, dy).Some?
    ensures Moved(b, dx, dy).value.coordinates == Plus(b.coordinates, Vec(dx, dy))
    ensures Moved(b, dx, dy).value.bufferedMovement == Some(Vec(dx, dy))
    ensures !Settle(b).isAttacking && dx > 0.0 ==>
      Moved(b, dx, dy).value.current == RightRunAnim && !Moved(b, dx, dy).value.isFacingLeft
    ensures !Settle(b).isAttacking && dx < 0.0 ==>
      Moved(b, dx, dy).value.current == LeftRunAnim && Moved(b, dx, dy).value.isFacingLeft
    ensures !Settle(b).isAttacking && dx == 0.0 && dy == 0.0 ==> Moved(b, dx, dy).value.current == StandingAnim
  {
  }

  /** During a dodge with a non-null buffer the input is ignored: the entity moves by three times the buffer, which stays. */
  lemma DodgeIgnoresInput(b: Body, dx1: real, dy1: real, dx2: real, dy2: real)
    requires AllSlots(b.anims) && Settle(b).isDodging
    requires b.bufferedMovement.Some? && !IsNull(b.bufferedMovement.value)
    ensures Moved(b, dx1, dy1) == Moved(b, dx2, dy2)
    ensures Moved(b, dx1, dy1).Some?
    ensures Moved(b, dx1, dy1).value.coordinates == Plus(b.coordinates, Scale(b.bufferedMovement.value, 3.0))
    ensures Moved(b, dx1, dy1).value.bufferedMovement == b.bufferedMovement
    ensures Moved(b, dx1, dy1).value.isDodging
  {
  }

  /** `n` moves with the inputs `inputs`, no timer firing in between. */
  function Moves(b: Body, inputs: seq<Vec>): (r: Option<Body>)
    requires AllSlots(b.anims)
    ensures r.Some? ==> AllSlots(r.value.anims)
    decreases |inputs|
  {
    if inputs == [] then Some(b)
    else match Moved(b, inputs[0].x, inputs[0].y)
      case None => None
      case Some(b1) => Moves(b1, inputs[1..])
  }

  /** Through a whole dodge the displacement per move is constant: `n` moves go `3 n` times the buffer. */
  lemma {:induction false} DodgeDisplacementConstant(b: Body, inputs: seq<Vec>)
    requires AllSlots(b.anims) && Settle(b).isDodging
    requires b.bufferedMovement.Some? && !IsNull(b.bufferedMovement.value)
    ensures Moves(b, inputs).Some?
    ensures Moves(b, inputs).value.coordinates
         == Plus(b.coordinates, Scale(b.bufferedMovement.value, 3.0 * |inputs| as real))
    ensures Moves(b, inputs).value.bufferedMovement == b.bufferedMovement
    decreases |inputs|
  {
    if inputs != [] {
      DodgeIgnoresInput(b, inputs[0].x, inputs[0].y, inputs[0].x, inputs[0].y);
      var b1 := Moved(b, inputs[0].x, inputs[0].y).value;
      assert b1.anims == b.anims && b1.current == b.current;
      DodgeDisplacementConstant(b1, inputs[1..]);
    }
  }

  /** The first dodge move with a null buffer goes 4 per axis unit toward the facing side, and keeps the caller's dy. */
  lemma DodgeFromNullBuffer(b: Body, dx: real, dy: real)
    requires AllSlots(b.anims) && Settle(b).isDodging
    requires b.bufferedMovement == Some(Zero)
    ensures Moved(b, dx, dy).Some?
    ensures Moved(b, dx, dy).value.bufferedMovement == Some(Vec(if b.isFacingLeft then -4.0 else 4.0, dy))
  {
  }

  /** After an attack starts, `frameCounter` firings of its once timer end it, and the next move clears the flag. */
  lemma AttackEndsAfterItsFrames(b: Body, dx: real, dy: real)
    requires BodyInv(b) && !b.isAttacking && !b.isDodging
    ensures var a := DoAttack(b);
            var st := a.anims.Get(a.current);
            var ended := a.(anims := a.anims.Set(a.current, OnceTicks(st, st.frameCounter as nat)));
            !ended.anims.Get(ended.current).isPlaying
            && Moved(ended, dx, dy).Some? && !Moved(ended, dx, dy).value.isAttacking
  {
    var a := DoAttack(b);
    var st := a.anims.Get(a.current);
    var before := st.(frameIndex := 0, isPlaying := false, onceRunning := false);
    assert Inv(before);
    assert st == StartedOnce(before);
    PlayOnceEnds(before);
  }

  /** The animation of `slot` among the seven fields, in the order the fields are declared. */
  function Pick(slot: Slot, standing: Animation, leftRun: Animation, rightRun: Animation, leftAttack: Animation,
                rightAttack: Animation, rightDodge: Animation, leftDodge: Animation): Animation
  {
    match slot
    case StandingAnim => standing
    case LeftRunAnim => leftRun
    case RightRunAnim => rightRun
    case LeftAttackAnim => leftAttack
    case RightAttackAnim => rightAttack
    case LeftDodgeAnim => leftDodge
    case RightDodgeAnim => rightDodge
  }

  /** The states of the seven animations. */
  function StatesOf(standing: Animation, leftRun: Animation, rightRun: Animation, leftAttack: Animation,
                    rightAttack: Animation, rightDodge: Animation, leftDodge: Animation): AnimTable
    reads standing, leftRun, rightRun, leftAttack, rightAttack, rightDodge, leftDodge
  {
    AnimTable(standing.State(), leftRun.State(), rightRun.State(), leftAttack.State(),
              rightAttack.State(), rightDodge.State(), leftDodge.State())
  }

  /** The seven animations are seven different objects. */
  predicate Distinct(standing: Animation, leftRun: Animation, rightRun: Animation, leftAttack: Animation,
                     rightAttack: Animation, rightDodge: Animation, leftDodge: Animation)
  {
    standing != leftRun && standing != rightRun && standing != leftAttack && standing != rightAttack
    && standing != rightDodge && standing != leftDodge && leftRun != rightRun && leftRun != leftAttack
    && leftRun != rightAttack && leftRun != rightDodge && leftRun != leftDodge && rightRun != leftAttack
    && rightRun != rightAttack && rightRun != rightDodge && rightRun != leftDodge && leftAttack != rightAttack
    && leftAttack != rightDodge && leftAttack != leftDodge && rightAttack != rightDodge && rightAttack != leftDodge
    && rightDodge != leftDodge
  }

  /** Every animation holds its frames. */
  predicate AllLoaded(standing: Animation, leftRun: Animation, rightRun: Animation, leftAttack: Animation,
                      rightAttack: Animation, rightDodge: Animation, leftDodge: Animation)
    reads standing.frames, leftRun.frames, rightRun.frames, leftAttack.frames
    reads rightAttack.frames, rightDodge.frames, leftDodge.frames
  {
    standing.FramesLoaded() && leftRun.FramesLoaded() && rightRun.FramesLoaded() && leftAttack.FramesLoaded()
    && rightAttack.FramesLoaded() && rightDodge.FramesLoaded() && leftDodge.FramesLoaded()
  }

  class Entity {
    var coordinates: Vector2D
    var isAttacking: bool
    var isFacingLeft: bool
    var isDodging: bool
    /** Unset (null) until the first `move`. */
    var bufferedMovement: Vector2D?
    var current: Animation
    /** Which field `current` is. */
    ghost var slot: Slot

    const standing: Animation
    const leftRun: Animation
    const rightRun: Animation
    const leftAttack: Animation
    const rightAttack: Animation
    const rightDodge: Animation
    const leftDodge: Animation

    function Anim(s: Slot): Animation
    {
      Pick(s, standing, leftRun, rightRun, leftAttack, rightAttack, rightDodge, leftDodge)
    }

    ghost function Repr(): set<object>
    {
      {standing, leftRun, rightRun, leftAttack, rightAttack, leftDodge, rightDodge}
    }

    ghost function Frames(): set<object>
    {
      {standing.frames, leftRun.frames, rightRun.frames, leftAttack.frames, rightAttack.frames,
       leftDodge.frames, rightDodge.frames}
    }

    /** The object structure: seven distinct valid animations, `current` one of them, two distinct vectors. */
    ghost predicate Wf()
      reads this, Repr(), Frames()
    {
      Distinct(standing, leftRun, rightRun, leftAttack, rightAttack, rightDodge, leftDodge)
      && AllLoaded(standing, leftRun, rightRun, leftAttack, rightAttack, rightDodge, leftDodge)
      && AllSlots(Anims())
      && current == Anim(slot)
      && coordinates != bufferedMovement
    }

    ghost predicate Valid()
      reads this, coordinates, bufferedMovement, Repr(), Frames()
    {
      Wf() && BodyInv(Snap())
    }

    function Anims(): AnimTable
      reads Repr()
    {
      StatesOf(standing, leftRun, rightRun, leftAttack, rightAttack, rightDodge, leftDodge)
    }

    ghost function Snap(): Body
      reads this, coordinates, bufferedMovement, Repr()
    {
      Body(coordinates.Value(), isAttacking, isDodging, isFacingLeft,
           if bufferedMovement == null then None else Some(bufferedMovement.Value()),
           slot, Anims())
    }

    /**
     * `setAnimations(dir)` with the seven loaded animations, then the
     * coordinates and facing a subclass constructor assigns.
     */
    constructor (x: real, y: real, isFacingLeft: bool,
                 standing: Animation, leftRun: Animation, rightRun: Animation, leftAttack: Animation,
                 rightAttack: Animation, rightDodge: Animation, leftDodge: Animation)
      requires Distinct(standing, leftRun, rightRun, leftAttack, rightAttack, rightDodge, leftDodge)
      requires AllLoaded(standing, leftRun, rightRun, leftAttack, rightAttack, rightDodge, leftDodge)
      requires AllSlots(StatesOf(standing, leftRun, rightRun, leftAttack, rightAttack, rightDodge, leftDodge))
      modifies standing
      ensures Valid() && fresh(coordinates)
      ensures Snap() == Spawned(Vec(x, y), isFacingLeft,
        old(StatesOf(standing, leftRun, rightRun, leftAttack, rightAttack, rightDodge, leftDodge)))
    {
      this.standing, this.leftRun, this.rightRun := standing, leftRun, rightRun;
      this.leftAttack, this.rightAttack, this.rightDodge, this.leftDodge := leftAttack, rightAttack, rightDodge, leftDodge;
      this.current := standing;
      this.slot := StandingAnim;
      this.coordinates := new Vector2D(x, y);
      this.isFacingLeft := isFacingLeft;
      this.isAttacking, this.isDodging := false, false;
      this.bufferedMovement := null;
      new;
      ghost var before := StatesOf(standing, leftRun, rightRun, leftAttack, rightAttack, rightDodge, leftDodge);
      standing.Play();
      assert Anims() == before.(standing := Started(before.standing));
    }
    /** Each animation of a well-formed entity is valid. */
    lemma AnimValid(s: Slot)
      requires Wf()
      ensures Anim(s).Valid()
    {
      AllSlotsGet(Anims(), s);
    }

    /** `current.stop()`. */
    method StopCurrent()
      requires Wf()
      modifies Anim(slot)
      ensures Wf() && Anims() == old(Anims().Set(slot, Stopped(Anims().Get(slot))))
    {
      AnimValid(slot);
      ghost var before := Anims();
      current.Stop();
      ghost var after := before.Set(slot, Stopped(before.Get(slot)));
      match slot {
        case StandingAnim => assert Anims() == after;
        case LeftRunAnim => assert Anims() == after;
        case RightRunAnim => assert Anims() == after;
        case LeftAttackAnim => assert Anims() == after;
        case RightAttackAnim => assert Anims() == after;
        case LeftDodgeAnim => assert Anims() == after;
        case RightDodgeAnim => assert Anims() == after;
      }
      AllSlotsSet(before, slot, Stopped(before.Get(slot)));
    }

    /** `current = <to>;` then `play()` or `playOnce()`. */
    method StartAt(to: Slot, loop: bool)
      requires Wf()
      modifies this, Anim(to)
      ensures Wf() && slot == to
      ensures Anims() == old(Anims().Set(to, if loop then Started(Anims().Get(to)) else StartedOnce(Anims().Get(to))))
      ensures unchanged(this`coordinates, this`bufferedMovement, this`isAttacking, this`isDodging, this`isFacingLeft)
    {
      current := Anim(to);
      slot := to;
      PlayCurrent(loop);
    }

    /** `current.play()` or `current.playOnce()`. */
    method PlayCurrent(loop: bool)
      requires Wf()
      modifies Anim(slot)
      ensures Wf()
      ensures Anims() == old(Anims().Set(slot, if loop then Started(Anims().Get(slot)) else StartedOnce(Anims().Get(slot))))
    {
      AnimValid(slot);
      ghost var before := Anims();
      ghost var started := if loop then Started(before.Get(slot)) else StartedOnce(before.Get(slot));
      if loop {
        current.Play();
      } else {
        current.PlayOnce();
      }
      ghost var after := before.Set(slot, started);
      match slot {
        case StandingAnim => assert Anims() == after;
        case LeftRunAnim => assert Anims() == after;
        case RightRunAnim => assert Anims() == after;
        case LeftAttackAnim => assert Anims() == after;
        case RightAttackAnim => assert Anims() == after;
        case LeftDodgeAnim => assert Anims() == after;
        case RightDodgeAnim => assert Anims() == after;
      }
      AllSlotsSet(before, slot, started);
    }

    /** `current.stop(); current = <to>;` then `play()` or `playOnce()`. */
    method SwitchTo(to: Slot, loop: bool)
      requires Wf()
      modifies this, Repr()
      ensures Wf() && Snap() == Switch(old(Snap()), to, loop)
      ensures coordinates == old(coordinates) && bufferedMovement == old(bufferedMovement)
    {
      SwitchShape(old(Snap()), to, loop);
      StopCurrent();
      StartAt(to, loop);
    }

    /** `swapAnimation(animationIndex)`. */
    method SwapAnimation(index: AnimationIndex)
      requires Wf()
      modifies this, Repr()
      ensures Wf() && Snap() == Swap(old(Snap()), index)
      ensures coordinates == old(coordinates) && bufferedMovement == old(bufferedMovement)
    {
      match index
      case Standing =>
        SwitchWhenIdle(StandingAnim, None);
      case LeftRun =>
        SwitchWhenIdle(LeftRunAnim, Some(true));
      case RightRun =>
        SwitchWhenIdle(RightRunAnim, Some(false));
      case Attack =>
        SwitchTo(AttackSlot(isFacingLeft), false);
      case Dodge =>
        SwitchTo(DodgeSlot(isFacingLeft), false);
    }

    /**
     * The standing and running cases of `swapAnimation`: unless `to` is
     * already current or the entity attacks or dodges, turn it as `facing`
     * says (a run does, standing does not) and loop the animation of `to`.
     */
    method SwitchWhenIdle(to: Slot, facing: Option<bool>)
      requires Wf()
      modifies this, Repr()
      ensures Wf() && coordinates == old(coordinates) && bufferedMovement == old(bufferedMovement)
      ensures Snap() == if old(slot) != to && !old(isAttacking) && !old(isDodging)
                        then Switch(if facing.Some? then old(Snap()).(isFacingLeft := facing.value) else old(Snap()), to, true)
                        else old(Snap())
    {
      ghost var turned := if facing.Some? then Snap().(isFacingLeft := facing.value) else Snap();
      CurrentIs(to);
      if current != Anim(to) && !isAttacking && !isDodging {
        if facing.Some? {
          isFacingLeft := facing.value;
        }
        assert Snap() == turned;
        SwitchTo(to, true);
      }
    }

    /** `current` is the field of slot `s` exactly when `s` is the current slot. */
    lemma CurrentIs(s: Slot)
      requires Wf()
      ensures current == Anim(s) <==> slot == s
    {
    }

    /** `attack()`. */
    method Attack()
      requires Valid()
      modifies this, Repr()
      ensures Valid() && Snap() == DoAttack(old(Snap()))
      ensures coordinates == old(coordinates) && bufferedMovement == old(bufferedMovement)
    {
      if !isAttacking && !isDodging {
        isAttacking := true;
        SwapAnimation(AnimationIndex.Attack);
      }
    }

    /** `dodge()`. */
    method Dodge()
      requires Valid()
      modifies this, Repr()
      ensures Valid() && Snap() == DoDodge(old(Snap()))
      ensures coordinates == old(coordinates) && bufferedMovement == old(bufferedMovement)
    {
      if !isDodging && !isAttacking {
        isDodging := true;
        SwapAnimation(AnimationIndex.Dodge);
      }
    }

    /** The current animation's state is the one recorded for the current slot. */
    lemma CurrentState()
      requires Wf()
      ensures current.State() == Anims().Get(slot)
    {
      match slot {
        case StandingAnim =>
        case LeftRunAnim =>
        case RightRunAnim =>
        case LeftAttackAnim =>
        case RightAttackAnim =>
        case LeftDodgeAnim =>
        case RightDodgeAnim =>
      }
    }

    /** The first two statements of `move`: clear an action flag whose animation has stopped. */
    method SettleFlags()
      requires Wf()
      modifies this
      ensures Wf() && Snap() == Settle(old(Snap()))
      ensures current == old(current) && coordinates == old(coordinates) && bufferedMovement == old(bufferedMovement)
    {
      CurrentState();
      if isDodging && !current.isPlaying {
        isDodging := false;
      }
      if isAttacking && !current.isPlaying {
        isAttacking := false;
      }
    }

    /** `coordinates.x += ...; coordinates.y += ...`: the position object moves in place. */
    method Translate(step: Vec)
      requires Wf()
      modifies coordinates
      ensures Wf() && Snap() == old(Snap()).(coordinates := Plus(old(coordinates.Value()), step))
    {
      coordinates.x := coordinates.x + step.x;
      coordinates.y := coordinates.y + step.y;
    }

    /** The last three statements of `move`: store the step and add it, tripled while dodging. */
    method Displace(dx: real, dy: real)
      requires Wf()
      modifies this, coordinates
      ensures Wf() && fresh(bufferedMovement) && coordinates == old(coordinates)
      ensures Snap() == old(Snap()).(bufferedMovement := Some(Vec(dx, dy)),
        coordinates := Plus(old(coordinates.Value()), if isDodging then Scale(Vec(dx, dy), 3.0) else Vec(dx, dy)))
    {
      var step := if isDodging then Scale(Vec(dx, dy), 3.0) else Vec(dx, dy);
      bufferedMovement := new Vector2D(dx, dy);
      Translate(step);
    }

    /** `move(dx, dy)`, for an entity whose buffered movement is set whenever the dodge goes on. */
    method Move(dx: real, dy: real)
      requires Valid() && MoveDefined(Snap())
      modifies this, Repr(), coordinates
      ensures Valid() && Moved(old(Snap()), dx, dy) == Some(Snap())
      ensures coordinates == old(coordinates) && fresh(bufferedMovement)
    {
      SettleFlags();
      var dx, dy := dx, dy;
      if isDodging {
        if bufferedMovement.x == 0.0 && bufferedMovement.y == 0.0 {
          dx := if isFacingLeft then -4.0 else 4.0;
        } else {
          dx, dy := bufferedMovement.x, bufferedMovement.y;
        }
      } else if dx > 0.0 || (dx == 0.0 && dy != 0.0 && !isFacingLeft) {
        SwapAnimation(RightRun);
      } else if dx < 0.0 || (dx == 0.0 && dy != 0.0 && isFacingLeft) {
        SwapAnimation(LeftRun);
      } else {
        SwapAnimation(Standing);
      }
      Displace(dx, dy);
    }

    /** `move(movement)`. */
    method MoveBy(movement: Vector2D)
      requires Valid() && MoveDefined(Snap())
      modifies this, Repr(), coordinates
      ensures Valid() && Moved(old(Snap()), old(movement.x), old(movement.y)) == Some(Snap())
      ensures coordinates == old(coordinates) && fresh(bufferedMovement)
    {
      Move(movement.x, movement.y);
    }

    /** `isAttacking()`: a well-formed entity never attacks while it dodges. */
    function IsAttacking(): (r: bool)
      reads this, coordinates, bufferedMovement, Repr(), Frames()
      ensures Valid() && r ==> !isDodging
    {
      isAttacking
    }

    /** `isDodging()`: a well-formed entity never dodges while it attacks. */
    function IsDodging(): (r: bool)
      reads this, coordinates, bufferedMovement, Repr(), Frames()
      ensures Valid() && r ==> !isAttacking
    {
      isDodging
    }

    /** `isFacingLeft()`: a well-formed entity running left faces left, and one running right faces right. */
    function IsFacingLeft(): (r: bool)
      reads this, coordinates, bufferedMovement, Repr(), Frames()
      ensures Valid() && slot == LeftRunAnim ==> r
      ensures Valid() && slot == RightRunAnim ==> !r
    {
      isFacingLeft
    }

    /** `getSprite()`: the current frame of the current animation. */
    method GetSprite() returns (f: Frame)
      requires Valid()
      ensures f.number == Snap().anims.Get(Snap().current).frameIndex + 1
    {
      f := current.GetCurrentFrame();
    }
  }
}
