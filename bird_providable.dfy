/**
 * `Bird: Providable` as Bird+Providable/Bird+Providable.swift declares it,
 * conforming to the protocol of the ILikeToMoveIt package: dispatch is on
 * `UTType` values rather than identifier strings, an unsupported type gives
 * `nil` rather than a throw, and only the native decode can throw.
 */
module BirdProvidable {
  import opened Foundation
  import opened UTTypes
  import opened Birds
  import opened JsonCoding

  function WritableTypes(): seq<UTType> {
    [BirdType]
  }

  function ReadableTypes(): seq<UTType> {
    [BirdType, PlainText]
  }

  /** `data(type:)`: the encoded bird for `.bird`, `nil` for every other type. */
  function DataForType(bird: Bird, uttype: UTType): (d: Option<Data>)
    ensures d.Some? <==> uttype == BirdType
    ensures d.Some? ==> DecodeBird(d.value) == Success(bird)
  {
    if uttype == BirdType then
      RoundTrip(bird);
      Some(EncodeBird(bird))
    else
      None
  }

  /**
   * `init?(type:data:) throws`: `.bird` decodes the payload and rethrows the
   * decoder's error; `.plainText` names a new bird after the text; any other
   * type gives `nil`.
   */
  function Init(uttype: UTType, data: Data, freshId: Uuid, decodeText: Data -> string)
    : (r: Result<Option<Bird>, DecodingError>)
    ensures uttype == BirdType ==>
              (r.Success? <==> DecodeBird(data).Success?) &&
              (r.Success? ==> r.value.Some? && r.value.value == DecodeBird(data).value && EncodeBird(r.value.value) == data) &&
              (r.Failure? ==> r.error == DecodeBird(data).error)
    ensures uttype == PlainText ==>
              r.Success? && r.value.Some? && r.value.value.name == decodeText(data) && r.value.value.id == freshId
    ensures uttype != BirdType && uttype != PlainText ==> r == Success(None)
  {
    BirdTypeIsNotPlainText();
    if uttype == BirdType then
      match DecodeBird(data)
      case Success(bird) => Success(Some(bird))
      case Failure(e) => Failure(e)
    else if uttype == PlainText then
      Success(Some(NamedBird(decodeText(data), freshId)))
    else
      Success(None)
  }

  /** The writable types are `[.bird]`, a prefix of the readable `[.bird, .plainText]`. */
  lemma TypeLists()
    ensures WritableTypes() == [BirdType] && ReadableTypes() == [BirdType, PlainText]
    ensures WritableTypes() <= ReadableTypes()
    ensures Identifiers(ReadableTypes()) == [BirdIdentifier, PlainTextIdentifier]
  {
  }

  /** `data(type:)` gives data for exactly the writable types. */
  lemma DataExactlyForWritable(bird: Bird, uttype: UTType)
    ensures DataForType(bird, uttype).Some? <==> uttype in WritableTypes()
  {
  }

  /** `nil` comes for exactly the types that are not readable, and only `.bird` can throw. */
  lemma InitOutcomes(uttype: UTType, data: Data, freshId: Uuid, decodeText: Data -> string)
    ensures Init(uttype, data, freshId, decodeText) == Success(None) <==> uttype !in ReadableTypes()
    ensures Init(uttype, data, freshId, decodeText).Failure? ==> uttype == BirdType
  {
  }

  /** `init?(type: .bird, data: data(type: .bird))` reconstructs the same bird. */
  lemma DataThenInitRoundTrip(bird: Bird, freshId: Uuid, decodeText: Data -> string)
    ensures DataForType(bird, BirdType).Some?
    ensures Init(BirdType, DataForType(bird, BirdType).value, freshId, decodeText) == Success(Some(bird))
  {
  }
}
