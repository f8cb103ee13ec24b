/**
 * `CircleBorder`: a sprite-like object that draws the render target of its
 * diameter once that target is ready, and prepares the target on assignment
 * of a diameter that is not ready yet.
 */
module CircleBorders {
  import opened RenderTargets
  import opened CircleOutline

  datatype Option<T> = None | Some(value: T)

  /** `values[:key] || 255` */
  function OrFull(value: Option<int>): (v: int)
    ensures value.Some? ==> v == value.value
    ensures value.None? ==> v == 255
  {
    match value
    case Some(v) => v
    case None => 255
  }

  /** The sprite `draw_override` hands to the host: position, size, target, alpha and tint. */
  datatype DrawCall = DrawSprite(x: int, y: int, w: int, h: int, path: Name, alpha: int, red: int, green: int, blue: int)

  /**
   * The render-target state a sequence of assignments and ticks keeps: every
   * ready or drawing name has a target, and every target holds the outline of
   * its own diameter.
   */
  ghost predicate ConsistentState(ready: set<Name>, drawing: set<Name>, targets: map<Name, Target>) {
    && (forall n :: n in ready ==> n in targets)
    && (forall n :: n in drawing ==> n in targets)
    && (forall n :: n in targets ==> n.diameter >= 1 && targets[n] == CircleTarget(n.diameter))
  }

  ghost predicate Consistent(registry: Registry)
    reads registry, registry.ready, registry.drawing
  {
    registry.Valid() && ConsistentState(registry.ready.values, registry.drawing.values, registry.targets)
  }

  /** Preparing a diameter's target and marking its name as drawing keeps the state consistent. */
  lemma PrepareKeepsConsistent(ready: set<Name>, drawing: set<Name>, targets: map<Name, Target>, diameter: int)
    requires ConsistentState(ready, drawing, targets) && diameter >= 1
    ensures ConsistentState(ready, drawing + {RenderTargetName(diameter)},
      targets[RenderTargetName(diameter) := CircleTarget(diameter)])
  {
  }

  /** Promoting every drawing name to ready keeps the state consistent. */
  lemma PromoteKeepsConsistent(ready: set<Name>, drawing: set<Name>, targets: map<Name, Target>)
    requires ConsistentState(ready, drawing, targets)
    ensures ConsistentState(ready + drawing, {}, targets)
  {
  }

  /** `tick_core` keeps the state consistent: it only moves names from `drawing` to `ready`. */
  method Tick(registry: Registry)
    requires Consistent(registry)
    modifies registry.ready, registry.drawing
    ensures Consistent(registry)
    ensures registry.ready.values == old(registry.ready.values) + old(registry.drawing.values)
    ensures registry.drawing.values == {}
  {
    PromoteKeepsConsistent(registry.ready.values, registry.drawing.values, registry.targets);
    registry.TickCore();
  }

  class CircleBorder {
    var x: int
    var y: int
    var r: int
    var g: int
    var b: int
    var a: int
    var diameter: int
    var renderTargetName: Name

    /** `initialize`: missing colour components default to 255, then the diameter is assigned. */
    constructor (x: int, y: int, r: Option<int>, g: Option<int>, b: Option<int>, a: Option<int>,
                 diameter: int, registry: Registry)
      requires Consistent(registry) && diameter >= 1
      modifies registry, registry.drawing
      ensures Consistent(registry)
      ensures this.x == x && this.y == y && this.diameter == diameter
      ensures this.r == OrFull(r) && this.g == OrFull(g) && this.b == OrFull(b) && this.a == OrFull(a)
      ensures renderTargetName == RenderTargetName(diameter)
      ensures registry.ready.values == old(registry.ready.values)
      ensures renderTargetName in old(registry.ready.values) ==>
        registry.targets == old(registry.targets) && registry.drawing.values == old(registry.drawing.values)
      ensures renderTargetName !in old(registry.ready.values) ==>
        && registry.targets == old(registry.targets)[renderTargetName := CircleTarget(diameter)]
        && registry.drawing.values == old(registry.drawing.values) + {renderTargetName}
      ensures renderTargetName in registry.ready.values || renderTargetName in registry.drawing.values
    {
      this.x := x;
      this.y := y;
      this.r := OrFull(r);
      this.g := OrFull(g);
      this.b := OrFull(b);
      this.a := OrFull(a);
      this.diameter := diameter;
      renderTargetName := RenderTargetName(diameter);
      new;
      SetDiameter(diameter, registry);
    }

    /**
     * `diameter=`: takes the new diameter and its name, and prepares the target
     * exactly when the name is not ready; a name still in `drawing` is prepared again.
     */
    method SetDiameter(value: int, registry: Registry)
      requires Consistent(registry) && value >= 1
      modifies this, registry, registry.drawing
      ensures Consistent(registry)
      ensures diameter == value && renderTargetName == RenderTargetName(value)
      ensures x == old(x) && y == old(y) && r == old(r) && g == old(g) && b == old(b) && a == old(a)
      ensures registry.ready.values == old(registry.ready.values)
      ensures RenderTargetName(value) in old(registry.ready.values) ==>
        registry.targets == old(registry.targets) && registry.drawing.values == old(registry.drawing.values)
      ensures RenderTargetName(value) !in old(registry.ready.values) ==>
        && registry.targets == old(registry.targets)[RenderTargetName(value) := CircleTarget(value)]
        && registry.drawing.values == old(registry.drawing.values) + {RenderTargetName(value)}
      ensures RenderTargetName(value) in registry.targets
    {
      diameter := value;
      renderTargetName := RenderTargetName(value);
      if !RenderTargetReady(registry) {
        PrepareKeepsConsistent(registry.ready.values, registry.drawing.values, registry.targets, value);
        PrepareCircleBorder(registry, value);
      }
    }

    /** `render_target_ready?` */
    predicate RenderTargetReady(registry: Registry)
      reads this, registry, registry.ready
    {
      registry.ready.Contains(renderTargetName)
    }

    /**
     * `draw_override`: nothing until the target is ready, then the target drawn
     * at (x, y) as a diameter x diameter sprite with alpha a and tint r, g, b.
     */
    method DrawOverride(registry: Registry) returns (call: Option<DrawCall>)
      ensures call.Some? <==> renderTargetName in registry.ready.values
      ensures call.Some? ==> call.value == DrawSprite(x, y, diameter, diameter, renderTargetName, a, r, g, b)
    {
      if !RenderTargetReady(registry) {
        return None;
      }
      call := Some(DrawSprite(x, y, diameter, diameter, renderTargetName, a, r, g, b));
    }
  }

  /**
   * Whatever a border draws is the outline of its diameter: in a consistent
   * state the drawn target exists, is diameter x diameter, and holds the
   * primitives of that diameter's outline.
   */
  lemma DrawnTargetIsOutline(registry: Registry, call: DrawCall)
    requires Consistent(registry)
    requires call.path in registry.ready.values
    ensures call.path in registry.targets
    ensures call.path.diameter >= 1 && registry.targets[call.path] == CircleTarget(call.path.diameter)
  {
  }

  /**
   * A new border is not drawn in the tick that creates its target and is drawn
   * from the next tick on.
   */
  method FirstDrawAfterTick(diameter: int) returns (before: Option<DrawCall>, after: Option<DrawCall>)
    requires diameter >= 1
    ensures before == None
    ensures after == Some(DrawSprite(0, 0, diameter, diameter, RenderTargetName(diameter), 255, 255, 255, 255))
  {
    var registry := new Registry();
    var border := new CircleBorder(0, 0, None, None, None, None, diameter, registry);
    before := border.DrawOverride(registry);
    Tick(registry);
    after := border.DrawOverride(registry);
  }
}
