/**
 * The structured encoding of a `Bird` that `JSONEncoder().encode(bird)` and
 * `JSONDecoder().decode(Bird.self, from: data)` provide. The byte layout
 * here is a stand-in, not JSON text: the sixteen identifier bytes, then each
 * character of the name as its Unicode scalar value in three big-endian
 * bytes. What the app relies on is that decoding inverts encoding and that
 * malformed bytes are rejected with a `DecodingError`; both are proved.
 */
module JsonCoding {
  import opened Foundation
  import opened Birds

  /** Swift's `DecodingError`, the cases this app meets. */
  datatype DecodingError =
    | DataCorrupted(debugDescription: string)
    | ValueNotFound(typeName: string, debugDescription: string)

  const NotValidJson: string := "The given data was not valid JSON."

  /** The Unicode scalar value that three bytes spell, big-endian. */
  function ScalarValue(bytes: seq<byte>): (n: int)
    requires |bytes| == 3
    ensures 0 <= n < 0x100_0000
  {
    (bytes[0] as int * 256 + bytes[1] as int) * 256 + bytes[2] as int
  }

  predicate IsScalarValue(n: int) {
    0 <= n < 0xD800 || 0xE000 <= n < 0x11_0000
  }

  function EncodeScalar(c: char): (bytes: seq<byte>)
    ensures |bytes| == 3
  {
    var n := c as int;
    var high := n / 256;
    [(high / 256) as byte, (high % 256) as byte, (n % 256) as byte]
  }

  function DecodeScalar(bytes: seq<byte>): (r: Option<char>)
    requires |bytes| == 3
  {
    var n := ScalarValue(bytes);
    if IsScalarValue(n) then Some(n as char) else None
  }

  /** An encoded character decodes to itself, and three bytes that decode to a character are its encoding. */
  lemma ScalarCoding(c: char, bytes: seq<byte>)
    requires |bytes| == 3
    ensures DecodeScalar(EncodeScalar(c)) == Some(c)
    ensures DecodeScalar(bytes) == Some(c) ==> EncodeScalar(c) == bytes
  {
    var n := c as int;
    var high := n / 256;
    assert high == (high / 256) * 256 + high % 256;
    assert n == high * 256 + n % 256;
    assert ScalarValue(EncodeScalar(c)) == n;
    if DecodeScalar(bytes) == Some(c) {
      var m := ScalarValue(bytes);
      assert m == n;
      var upper := bytes[0] as int * 256 + bytes[1] as int;
      assert n % 256 == bytes[2] as int && high == upper;
      assert high / 256 == bytes[0] as int && high % 256 == bytes[1] as int;
    }
  }

  function EncodeName(name: string): (data: Data)
    ensures |data| == 3 * |name|
  {
    if name == [] then [] else EncodeScalar(name[0]) + EncodeName(name[1..])
  }

  /** Decodes a run of three-byte groups into characters; fails on the first group that is not a scalar value. */
  function DecodeName(data: Data): (r: Option<string>)
    requires |data| % 3 == 0
    ensures r.Some? ==> EncodeName(r.value) == data
  {
    if data == [] then Some([])
    else
      match DecodeScalar(data[..3])
      case None => None
      case Some(c) =>
        match DecodeName(data[3..])
        case None => None
        case Some(rest) =>
          ScalarCoding(c, data[..3]);
          assert ([c] + rest)[1..] == rest;
          Some([c] + rest)
  }

  lemma {:induction false} NameRoundTrip(name: string)
    ensures DecodeName(EncodeName(name)) == Some(name)
  {
    if name != [] {
      var data := EncodeName(name);
      assert data[..3] == EncodeScalar(name[0]);
      assert data[3..] == EncodeName(name[1..]);
      ScalarCoding(name[0], data[..3]);
      NameRoundTrip(name[1..]);
      assert [name[0]] + name[1..] == name;
    }
  }

  /** `JSONEncoder().encode(bird)`. */
  function EncodeBird(b: Bird): (data: Data)
    ensures |data| == 16 + 3 * |b.name|
    ensures data[..16] == b.id
  {
    b.id + EncodeName(b.name)
  }

  /**
   * `JSONDecoder().decode(Bird.self, from: data)`: a bird when the bytes are
   * the encoding of one (and then exactly of that one), otherwise a thrown
   * `DecodingError.dataCorrupted`.
   */
  function DecodeBird(data: Data): (r: Result<Bird, DecodingError>)
    ensures r.Success? ==> EncodeBird(r.value) == data
    ensures r.Failure? ==> r.error == DataCorrupted(NotValidJson)
  {
    if |data| < 16 || (|data| - 16) % 3 != 0 then Failure(DataCorrupted(NotValidJson))
    else
      match DecodeName(data[16..])
      case None => Failure(DataCorrupted(NotValidJson))
      case Some(name) =>
        assert data == data[..16] + data[16..];
        Success(Bird(data[..16], name))
  }

  /** Decoding an encoded bird gives back the same bird: same id, same name. */
  lemma RoundTrip(b: Bird)
    ensures DecodeBird(EncodeBird(b)) == Success(b)
  {
    var data := EncodeBird(b);
    assert data[16..] == EncodeName(b.name);
    NameRoundTrip(b.name);
  }

  /** Different birds never share an encoding. */
  lemma EncodeInjective(a: Bird, b: Bird)
    ensures EncodeBird(a) == EncodeBird(b) ==> a == b
  {
    RoundTrip(a);
    RoundTrip(b);
  }

  /** A payload too short to hold an identifier is rejected. */
  lemma ShortDataRejected(data: Data)
    requires |data| < 16
    ensures DecodeBird(data) == Failure(DataCorrupted(NotValidJson))
  {
  }
}
