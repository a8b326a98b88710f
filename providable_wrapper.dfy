/**
 * `Bird.Wrapper` as Providable/Bird+Providable.swift declares it: the same
 * type lists and dispatch as Bird.swift, but an identifier it does not handle
 * throws `ProvidableError.unsupportedUTIIdentifier`, so a caller can tell an
 * unsupported format from a native payload that failed to decode.
 */
module ProvidableWrapper {
  import opened Foundation
  import opened UTTypes
  import opened Birds
  import opened JsonCoding

  datatype ProvidableError = UnsupportedUTIIdentifier

  /** The errors this wrapper throws: a JSON `DecodingError` or a `ProvidableError`. */
  datatype WrapperError = Decoding(decodingError: DecodingError) | Providable(providableError: ProvidableError)

  const Unsupported: WrapperError := Providable(UnsupportedUTIIdentifier)

  datatype Wrapper = Wrapper(item: Bird)

  const Name: string := "bird"

  /** `Wrapper.uti`, that is `UTType.bird`. */
  const Uti: UTType := BirdType

  function WritableTypes(): seq<UTType> {
    [Uti]
  }

  function ReadableTypes(): seq<UTType> {
    [Uti, PlainText]
  }

  function WritableTypeIdentifiers(): seq<string> {
    Identifiers(WritableTypes())
  }

  function ReadableTypeIdentifiers(): seq<string> {
    Identifiers(ReadableTypes())
  }

  /**
   * `loadData(withTypeIdentifier:forItemProviderCompletionHandler:)`: for the
   * native identifier, data that decodes back to the wrapped bird; for any
   * other, no data and `unsupportedUTIIdentifier`.
   */
  function LoadData(w: Wrapper, typeIdentifier: string): (c: Completion<WrapperError>)
    ensures c.data.Some? <==> typeIdentifier == Uti.identifier
    ensures c.data.Some? ==> c.error == None && DecodeBird(c.data.value) == Success(w.item)
    ensures c.data.None? ==> c.error == Some(Unsupported)
  {
    if typeIdentifier == Uti.identifier then
      RoundTrip(w.item);
      Completion(Some(EncodeBird(w.item)), None)
    else
      Completion(None, Some(Unsupported))
  }

  /**
   * `object(withItemProviderData:typeIdentifier:)`: the native identifier
   * decodes the payload, rethrowing the decoder's error; plain text names a
   * new bird after the text; any other identifier throws
   * `unsupportedUTIIdentifier`.
   */
  function ObjectWithItemProviderData(data: Data, typeIdentifier: string, freshId: Uuid, decodeText: Data -> string)
    : (r: Result<Wrapper, WrapperError>)
    ensures typeIdentifier == Uti.identifier ==>
              (r.Success? <==> DecodeBird(data).Success?) &&
              (r.Success? ==> r.value.item == DecodeBird(data).value && EncodeBird(r.value.item) == data) &&
              (r.Failure? ==> r.error == Decoding(DataCorrupted(NotValidJson)))
    ensures typeIdentifier == PlainText.identifier ==>
              r.Success? && r.value.item.name == decodeText(data) && r.value.item.id == freshId
    ensures typeIdentifier != Uti.identifier && typeIdentifier != PlainText.identifier ==> r == Failure(Unsupported)
  {
    BirdTypeIsNotPlainText();
    if typeIdentifier == Uti.identifier then
      match DecodeBird(data)
      case Success(bird) => Success(Wrapper(bird))
      case Failure(e) => Failure(Decoding(e))
    else if typeIdentifier == PlainText.identifier then
      Success(Wrapper(NamedBird(decodeText(data), freshId)))
    else
      Failure(Unsupported)
  }

  /** Writable is `[uti]`, readable is `[uti, plainText]`, and the identifier lists follow them in order. */
  lemma TypeLists()
    ensures WritableTypes() == [BirdType] && ReadableTypes() == [BirdType, PlainText]
    ensures WritableTypes() <= ReadableTypes()
    ensures WritableTypeIdentifiers() == [BirdIdentifier]
    ensures ReadableTypeIdentifiers() == [BirdIdentifier, PlainTextIdentifier]
    ensures WritableTypeIdentifiers() <= ReadableTypeIdentifiers()
  {
  }

  /** Encoding reports `unsupportedUTIIdentifier` for exactly the identifiers that are not writable. */
  lemma LoadsExactlyWritable(w: Wrapper, typeIdentifier: string)
    ensures LoadData(w, typeIdentifier).error == Some(Unsupported) <==> typeIdentifier !in WritableTypeIdentifiers()
  {
  }

  /**
   * Decoding throws `unsupportedUTIIdentifier` for exactly the identifiers
   * that are not readable, and a decoding error only for the native one.
   */
  lemma ReadErrors(data: Data, typeIdentifier: string, freshId: Uuid, decodeText: Data -> string)
    ensures ObjectWithItemProviderData(data, typeIdentifier, freshId, decodeText) == Failure(Unsupported)
            <==> typeIdentifier !in ReadableTypeIdentifiers()
    ensures ObjectWithItemProviderData(data, typeIdentifier, freshId, decodeText).Failure? &&
            ObjectWithItemProviderData(data, typeIdentifier, freshId, decodeText).error.Decoding?
            ==> typeIdentifier == Uti.identifier
  {
  }

  /** The native encode followed by the native decode gives back the same bird. */
  lemma LoadThenReadRoundTrip(w: Wrapper, freshId: Uuid, decodeText: Data -> string)
    ensures LoadData(w, Uti.identifier).data.Some?
    ensures ObjectWithItemProviderData(LoadData(w, Uti.identifier).data.value, Uti.identifier, freshId, decodeText)
            == Success(w)
  {
  }
}
