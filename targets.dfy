/**
 * The process-wide render-target state of `CirclePrimitives`: the names whose
 * targets were filled this tick (`drawing`), the names safe to draw (`ready`),
 * and the host's render targets as far as this core sets them up.
 */
module RenderTargets {
  import opened Lines
  import opened HashSets

  /** A render target name `"circle_border_<diameter>"`, kept as the diameter it spells. */
  datatype Name = CircleBorderName(diameter: int)

  /** `CircleBuilder.render_target_name` */
  function RenderTargetName(diameter: int): (name: Name)
    ensures name.diameter == diameter
  {
    CircleBorderName(diameter)
  }

  /** Different diameters never share a render target. */
  lemma RenderTargetNameInjective(d1: int, d2: int)
    ensures RenderTargetName(d1) == RenderTargetName(d2) <==> d1 == d2
  {
  }

  /** What the core writes into a host render target. */
  datatype Target = Target(width: int, height: int, primitives: seq<Primitive>)

  class Registry {
    /** `ready_render_targets` */
    const ready: HashSet<Name>
    /** `drawing_render_targets` */
    const drawing: HashSet<Name>
    /** The host's render targets (`$args.render_target(name)`), by name. */
    var targets: map<Name, Target>

    ghost predicate Valid()
      reads this
    {
      ready != drawing
    }

    constructor ()
      ensures Valid() && fresh(ready) && fresh(drawing)
      ensures ready.values == {} && drawing.values == {} && targets == map[]
    {
      ready := new HashSet();
      drawing := new HashSet();
      targets := map[];
    }

    /** `TickCoreExtension#tick_core`: every target filled since the last tick becomes ready. */
    method TickCore()
      requires Valid()
      modifies ready, drawing
      ensures Valid()
      ensures ready.values == old(ready.values) + old(drawing.values)
      ensures drawing.values == {}
      ensures old(ready.values) <= ready.values
    {
      if !drawing.IsEmpty() {
        ready.Merge(drawing);
        drawing.Clear();
      }
    }
  }
}
