/**
 * Uniform type identifiers: a `UTType` is named by its identifier string,
 * and two types are the same exactly when their identifiers are.
 * `BirdType` is the app's own exported type `UTType.bird`.
 */
module UTTypes {

  datatype UTType = UTType(identifier: string)

  const BirdIdentifier: string := "com.ryanlintott.draganddrop.bird"
  const PlainTextIdentifier: string := "public.plain-text"

  /** `UTType.bird`, the app's native bird format. */
  const BirdType: UTType := UTType(BirdIdentifier)

  /** `UTType.plainText`. */
  const PlainText: UTType := UTType(PlainTextIdentifier)

  /** The native format and the plain-text fallback are told apart by identifier. */
  lemma BirdTypeIsNotPlainText()
    ensures BirdType != PlainText
    ensures BirdType.identifier != PlainText.identifier
  {
  }

  /** `types.map(\.identifier)`: the identifiers, element by element and in order. */
  function Identifiers(types: seq<UTType>): (ids: seq<string>)
    ensures |ids| == |types|
    ensures forall i :: 0 <= i < |types| ==> ids[i] == types[i].identifier
  {
    if types == [] then [] else [types[0].identifier] + Identifiers(types[1..])
  }
}
