/** The shape of the instrument catalog (axes, items and flavor
    archetypes) as the scorers read it. The catalog's contents are not part
    of this model: every operation takes the catalog as a parameter. */
module Instrument {

  datatype AxisDef = AxisDef(
    id: string,
    name: string,
    poleNegative: string,
    polePositive: string,
    isFacet: bool)

  /** A survey item of the legacy scorer: its question id, its axis and its
      directional key. */
  datatype Item = Item(id: int, axis: string, key: real)

  /** A component direction: -1 for the negative pole, 1 for the positive
      pole, 0 for a neutral component. */
  type ComponentDirection = d: int | -1 <= d <= 1

  datatype Component = Component(axis: string, direction: ComponentDirection, weight: real)

  datatype Archetype = Archetype(
    id: string,
    name: string,
    description: string,
    color: string,
    components: seq<Component>)

  /** `AXES` is a record keyed by axis id: no id occurs twice. */
  ghost predicate DistinctAxisIds(axes: seq<AxisDef>)
  {
    forall i, j | 0 <= i < j < |axes| :: axes[i].id != axes[j].id
  }

  /** Every component weight is positive. */
  ghost predicate PositiveWeights(components: seq<Component>)
  {
    forall c | c in components :: c.weight > 0.0
  }
}
