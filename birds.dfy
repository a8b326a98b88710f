/**
 * The `Bird` value (Bird.swift): an identifier and a display name.
 * Its initializer's default argument `UUID()` is a fresh identifier that
 * the caller supplies here.
 */
module Birds {
  import opened Foundation

  datatype Bird = Bird(id: Uuid, name: string)

  /** `Bird(name:)`: a bird with the given name and the fresh identifier `freshId`. */
  function NamedBird(name: string, freshId: Uuid): (b: Bird)
    ensures b.name == name && b.id == freshId
  {
    Bird(freshId, name)
  }

  const ExampleNames: seq<string> :=
    ["Cardinal", "Blue Jay", "Robin", "Goose", "Chicken", "Swan", "Flamingo"]

  /**
   * `Bird.examples`: each example name made into a bird, in order; the
   * identifier of the i-th example is the i-th fresh identifier.
   */
  function Examples(freshIds: seq<Uuid>): (birds: seq<Bird>)
    requires |freshIds| == |ExampleNames|
    ensures |birds| == 7
    ensures forall i :: 0 <= i < 7 ==> birds[i].name == ExampleNames[i] && birds[i].id == freshIds[i]
  {
    seq(|ExampleNames|, i requires 0 <= i < |ExampleNames| => NamedBird(ExampleNames[i], freshIds[i]))
  }

  /** The example names are the seven listed ones, each different from the others. */
  lemma ExampleNamesDistinct(freshIds: seq<Uuid>)
    requires |freshIds| == |ExampleNames|
    ensures Examples(freshIds)[0].name == "Cardinal" && Examples(freshIds)[6].name == "Flamingo"
    ensures forall i, j :: 0 <= i < j < 7 ==> Examples(freshIds)[i].name != Examples(freshIds)[j].name
  {
  }
}
