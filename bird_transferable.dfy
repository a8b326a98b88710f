/**
 * `Bird: Transferable` (Transferable/Bird+Transferable.swift): the
 * declarative list of transfer representations, and what exporting and
 * importing through that list do. A representation serves a content type in
 * one or both directions; for a given content type the first representation
 * in the list that serves it in the wanted direction is used.
 */
module BirdTransferable {
  import opened Foundation
  import opened UTTypes
  import opened Birds
  import opened JsonCoding

  /** The exporting closures that occur in the list. */
  datatype Exporter = EncodeJson

  /** The importing closures that occur in the list. */
  datatype Importer = DecodeJson | NameFromText

  /** A `DataRepresentation`; an absent exporter or importer means that direction is not offered. */
  datatype Representation = DataRepresentation(contentType: UTType, exporter: Option<Exporter>, importer: Option<Importer>)

  /**
   * `transferRepresentation`: `.bird` both ways through the JSON coder, then
   * `.plainText` for import only.
   */
  const TransferRepresentation: seq<Representation> := [
    DataRepresentation(BirdType, Some(EncodeJson), Some(DecodeJson)),
    DataRepresentation(PlainText, None, Some(NameFromText))
  ]

  function RunExporter(e: Exporter, bird: Bird): Data {
    match e
    case EncodeJson => EncodeBird(bird)
  }

  /** The importing closures: `JSONDecoder().decode`, or a new bird named after the UTF-8 text. */
  function RunImporter(i: Importer, data: Data, freshId: Uuid, decodeText: Data -> string): Result<Bird, DecodingError> {
    match i
    case DecodeJson => DecodeBird(data)
    case NameFromText => Success(NamedBird(decodeText(data), freshId))
  }

  predicate Exports(r: Representation, t: UTType) {
    r.contentType == t && r.exporter.Some?
  }

  predicate Imports(r: Representation, t: UTType) {
    r.contentType == t && r.importer.Some?
  }

  /** The index of the first representation that `serves`, if any. */
  function FirstServing(reps: seq<Representation>, serves: Representation -> bool): (k: Option<nat>)
    ensures k.Some? ==> k.value < |reps| && serves(reps[k.value]) &&
                        forall j :: 0 <= j < k.value ==> !serves(reps[j])
    ensures k.None? ==> forall j :: 0 <= j < |reps| ==> !serves(reps[j])
  {
    if reps == [] then None
    else if serves(reps[0]) then Some(0)
    else
      match FirstServing(reps[1..], serves)
      case None => None
      case Some(k) => Some(k + 1)
  }

  /** The content types offered for export: exactly those some representation exports. */
  function ExportedContentTypes(reps: seq<Representation>): (ts: seq<UTType>)
    ensures forall t :: t in ts <==> exists k :: 0 <= k < |reps| && Exports(reps[k], t)
  {
    if reps == [] then []
    else
      var rest := ExportedContentTypes(reps[1..]);
      assert forall t :: (exists k :: 0 <= k < |reps| && Exports(reps[k], t)) <==>
                         Exports(reps[0], t) || exists k :: 0 <= k < |reps[1..]| && Exports(reps[1..][k], t) by {
        forall t, k | 0 < k < |reps| && Exports(reps[k], t) ensures Exports(reps[1..][k - 1], t) { }
      }
      (if reps[0].exporter.Some? then [reps[0].contentType] else []) + rest
  }

  /** The content types accepted for import: exactly those some representation imports. */
  function ImportedContentTypes(reps: seq<Representation>): (ts: seq<UTType>)
    ensures forall t :: t in ts <==> exists k :: 0 <= k < |reps| && Imports(reps[k], t)
  {
    if reps == [] then []
    else
      var rest := ImportedContentTypes(reps[1..]);
      assert forall t :: (exists k :: 0 <= k < |reps| && Imports(reps[k], t)) <==>
                         Imports(reps[0], t) || exists k :: 0 <= k < |reps[1..]| && Imports(reps[1..][k], t) by {
        forall t, k | 0 < k < |reps| && Imports(reps[k], t) ensures Imports(reps[1..][k - 1], t) { }
      }
      (if reps[0].importer.Some? then [reps[0].contentType] else []) + rest
  }

  /** Exporting a bird as `contentType`: the first exporting representation's data, or none. */
  function Export(bird: Bird, contentType: UTType): (d: Option<Data>)
    ensures d.Some? <==> contentType in ExportedContentTypes(TransferRepresentation)
  {
    match FirstServing(TransferRepresentation, r => Exports(r, contentType))
    case None => None
    case Some(k) => Some(RunExporter(TransferRepresentation[k].exporter.value, bird))
  }

  /** Importing `data` of `contentType`: the first importing representation's result, or none. */
  function Import(contentType: UTType, data: Data, freshId: Uuid, decodeText: Data -> string)
    : (r: Option<Result<Bird, DecodingError>>)
    ensures r.Some? <==> contentType in ImportedContentTypes(TransferRepresentation)
    ensures contentType == BirdType ==> r == Some(DecodeBird(data))
    ensures contentType == PlainText ==> r == Some(Success(NamedBird(decodeText(data), freshId)))
  {
    BirdTypeIsNotPlainText();
    match FirstServing(TransferRepresentation, r => Imports(r, contentType))
    case None => None
    case Some(k) => Some(RunImporter(TransferRepresentation[k].importer.value, data, freshId, decodeText))
  }

  /** `.bird` is exported and imported; it is listed before `.plainText`, which is import-only. */
  lemma ContentTypeOrder()
    ensures ExportedContentTypes(TransferRepresentation) == [BirdType]
    ensures ImportedContentTypes(TransferRepresentation) == [BirdType, PlainText]
  {
    var reps := TransferRepresentation;
    assert reps[1..][1..] == [];
    assert ExportedContentTypes(reps[1..]) == [];
    assert ImportedContentTypes(reps[1..]) == [PlainText];
  }

  /** Export followed by import as `.bird` gives back the same bird. */
  lemma ExportThenImportRoundTrip(bird: Bird, freshId: Uuid, decodeText: Data -> string)
    ensures Export(bird, BirdType).Some?
    ensures Import(BirdType, Export(bird, BirdType).value, freshId, decodeText) == Some(Success(bird))
  {
    RoundTrip(bird);
  }

  /** Plain text cannot be exported; importing it gives a bird named after the text with the fresh id. */
  lemma PlainTextImportOnly(bird: Bird, data: Data, freshId: Uuid, decodeText: Data -> string)
    ensures Export(bird, PlainText) == None
    ensures Import(PlainText, data, freshId, decodeText) == Some(Success(Bird(freshId, decodeText(data))))
  {
  }
}
