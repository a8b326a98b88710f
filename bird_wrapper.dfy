/**
 * `Bird.Wrapper` as Bird.swift declares it: the item-provider wrapper that
 * writes a bird only in its native format and reads it from the native
 * format or from plain text. Every failure is a thrown `DecodingError`.
 * The JSON coder is `JsonCoding`; UTF-8 decoding of plain text is the
 * parameter `decodeText` and the fresh `UUID()` is the parameter `freshId`.
 */
module BirdWrapper {
  import opened Foundation
  import opened UTTypes
  import opened Birds
  import opened JsonCoding

  /** The wrapper object: it holds one bird. */
  datatype Wrapper = Wrapper(item: Bird)

  const Name: string := "bird"

  /** `Wrapper.uti`. */
  const Uti: UTType := BirdType

  /** The error thrown for an identifier the wrapper does not handle. */
  const NoBirds: DecodingError := ValueNotFound("Bird", "No Birds")

  function WritableTypes(): seq<UTType> {
    [Uti]
  }

  function ReadableTypes(): seq<UTType> {
    [Uti, PlainText]
  }

  function WritableTypeIdentifiers(): seq<string> {
    Identifiers(WritableTypes())
  }

  function ReadableTypeIdentifiers(): seq<string> {
    Identifiers(ReadableTypes())
  }

  /**
   * `loadData(withTypeIdentifier:forItemProviderCompletionHandler:)`, as the
   * arguments the completion handler receives: for the native identifier,
   * data that decodes back to the wrapped bird and no error; for any other,
   * no data and the `No Birds` error.
   */
  function LoadData(w: Wrapper, typeIdentifier: string): (c: Completion<DecodingError>)
    ensures c.data.Some? <==> typeIdentifier == Uti.identifier
    ensures c.data.Some? ==> c.error == None && DecodeBird(c.data.value) == Success(w.item)
    ensures c.data.None? ==> c.error == Some(NoBirds)
  {
    if typeIdentifier == Uti.identifier then
      RoundTrip(w.item);
      Completion(Some(EncodeBird(w.item)), None)
    else
      Completion(None, Some(NoBirds))
  }

  /**
   * `object(withItemProviderData:typeIdentifier:)`: the native identifier
   * decodes the payload (and the wrapped bird is the one it encodes); plain
   * text names a new bird after the text; any other identifier throws.
   */
  function ObjectWithItemProviderData(data: Data, typeIdentifier: string, freshId: Uuid, decodeText: Data -> string)
    : (r: Result<Wrapper, DecodingError>)
    ensures typeIdentifier == Uti.identifier ==>
              (r.Success? <==> DecodeBird(data).Success?) &&
              (r.Success? ==> r.value.item == DecodeBird(data).value && EncodeBird(r.value.item) == data) &&
              (r.Failure? ==> r.error == DataCorrupted(NotValidJson))
    ensures typeIdentifier == PlainText.identifier ==>
              r.Success? && r.value.item.name == decodeText(data) && r.value.item.id == freshId
    ensures typeIdentifier != Uti.identifier && typeIdentifier != PlainText.identifier ==> r == Failure(NoBirds)
  {
    BirdTypeIsNotPlainText();
    if typeIdentifier == Uti.identifier then
      match DecodeBird(data)
      case Success(bird) => Success(Wrapper(bird))
      case Failure(e) => Failure(e)
    else if typeIdentifier == PlainText.identifier then
      Success(Wrapper(NamedBird(decodeText(data), freshId)))
    else
      Failure(NoBirds)
  }

  /** The native type is written; it is read first, then plain text; the identifier lists follow the type lists. */
  lemma TypeLists()
    ensures WritableTypes() == [Uti] && ReadableTypes() == [Uti, PlainText]
    ensures WritableTypes() <= ReadableTypes()
    ensures WritableTypeIdentifiers() == [BirdIdentifier]
    ensures ReadableTypeIdentifiers() == [BirdIdentifier, PlainTextIdentifier]
    ensures WritableTypeIdentifiers() <= ReadableTypeIdentifiers()
  {
  }

  /** Data is provided for exactly the writable identifiers. */
  lemma LoadsExactlyWritable(w: Wrapper, typeIdentifier: string)
    ensures LoadData(w, typeIdentifier).data.Some? <==> typeIdentifier in WritableTypeIdentifiers()
  {
  }

  /** The `No Birds` error is thrown for exactly the identifiers that are not readable. */
  lemma ReadsExactlyReadable(data: Data, typeIdentifier: string, freshId: Uuid, decodeText: Data -> string)
    ensures ObjectWithItemProviderData(data, typeIdentifier, freshId, decodeText) == Failure(NoBirds)
            <==> typeIdentifier !in ReadableTypeIdentifiers()
  {
  }

  /** What the wrapper writes in its native format it reads back as the same bird. */
  lemma LoadThenReadRoundTrip(w: Wrapper, freshId: Uuid, decodeText: Data -> string)
    ensures LoadData(w, Uti.identifier).data.Some?
    ensures ObjectWithItemProviderData(LoadData(w, Uti.identifier).data.value, Uti.identifier, freshId, decodeText)
            == Success(w)
  {
  }
}
