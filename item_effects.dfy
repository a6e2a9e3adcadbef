/** Classifying a loaded item effect by name (src/item_effects.rs). */
module ItemEffects {
  datatype UnknownItemEffect = UnknownItemEffect(name: string, description: string, unique: bool)

  datatype ConcreteItemEffect = StatItemEffect | UnhandledItemEffect

  /** The only effect the simulator handles is "Gouge"; every other name is unhandled. */
  function Classify(incoming: UnknownItemEffect): (c: ConcreteItemEffect)
    ensures c == StatItemEffect <==> incoming.name == "Gouge"
    ensures c == UnhandledItemEffect <==> incoming.name != "Gouge"
  {
    match incoming.name
    case "Gouge" => StatItemEffect
    case _ => UnhandledItemEffect
  }

  /** Only the name matters: the description and the uniqueness flag are ignored. */
  lemma ClassifyReadsOnlyName(a: UnknownItemEffect, b: UnknownItemEffect)
    requires a.name == b.name
    ensures Classify(a) == Classify(b)
  {
  }
}
