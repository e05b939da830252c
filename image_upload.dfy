/** Naming and locating an uploaded image: the object key is the lowercase
    hex rendering of sixteen random bytes followed by the original file name,
    and the public URL is built from the bucket, the region and that key. */
module ImageUpload {
  import opened Schema

  newtype byte = x: int | 0 <= x < 256

  /** How many random bytes prefix every key. */
  const RandomKeyBytes: nat := 16

  predicate IsLowerHex(c: char) {
    ('0' <= c <= '9') || ('a' <= c <= 'f')
  }

  function HexDigit(n: nat): (c: char)
    requires n < 16
    ensures IsLowerHex(c)
  {
    if n < 10 then (48 + n) as char else (87 + n) as char
  }

  function HexValue(c: char): (n: nat)
    requires IsLowerHex(c)
    ensures n < 16 && HexDigit(n) == c
  {
    if c <= '9' then c as int - 48 else c as int - 87
  }

  /** `Buffer.toString("hex")`: two lowercase hex digits per byte, high nibble first. */
  function HexEncode(bytes: seq<byte>): (s: string)
    ensures |s| == 2 * |bytes|
    ensures forall i :: 0 <= i < |s| ==> IsLowerHex(s[i])
  {
    if bytes == [] then []
    else [HexDigit(bytes[0] as int / 16), HexDigit(bytes[0] as int % 16)] + HexEncode(bytes[1..])
  }

  predicate IsHexString(s: string) {
    |s| % 2 == 0 && forall i :: 0 <= i < |s| ==> IsLowerHex(s[i])
  }

  /** The inverse reading of a hex string, two digits per byte. */
  function HexDecode(s: string): (bytes: seq<byte>)
    requires IsHexString(s)
    ensures |bytes| == |s| / 2
  {
    if s == [] then []
    else [(16 * HexValue(s[0]) + HexValue(s[1])) as byte] + HexDecode(s[2..])
  }

  lemma {:induction false} HexRoundTrip(bytes: seq<byte>)
    ensures IsHexString(HexEncode(bytes))
    ensures HexDecode(HexEncode(bytes)) == bytes
  {
    if bytes != [] {
      var b := bytes[0] as int;
      HexRoundTrip(bytes[1..]);
      assert HexEncode(bytes)[2..] == HexEncode(bytes[1..]);
      assert HexValue(HexDigit(b / 16)) == b / 16;
      assert HexValue(HexDigit(b % 16)) == b % 16;
    }
  }

  /** Distinct random bytes always give distinct hex strings. */
  lemma HexEncodeInjective(a: seq<byte>, b: seq<byte>)
    requires HexEncode(a) == HexEncode(b)
    ensures a == b
  {
    HexRoundTrip(a);
    HexRoundTrip(b);
  }

  /** The object key: `rawBytes.toString("hex") + originalname`. */
  function ImageKey(rawBytes: seq<byte>, originalName: string): string {
    HexEncode(rawBytes) + originalName
  }

  /** A key made from sixteen bytes splits back into its two parts: 32 hex
      characters that decode to the random bytes, then the file name. */
  lemma ImageKeyParts(rawBytes: seq<byte>, originalName: string)
    requires |rawBytes| == RandomKeyBytes
    ensures var key := ImageKey(rawBytes, originalName);
            |key| == 32 + |originalName| &&
            IsHexString(key[..32]) && HexDecode(key[..32]) == rawBytes &&
            key[32..] == originalName
  {
    var key := ImageKey(rawBytes, originalName);
    assert key[..32] == HexEncode(rawBytes);
    HexRoundTrip(rawBytes);
  }

  /** Two keys of the same length of random prefix are equal only when both
      the random bytes and the file names are. */
  lemma ImageKeyInjective(r1: seq<byte>, n1: string, r2: seq<byte>, n2: string)
    requires |r1| == |r2|
    requires ImageKey(r1, n1) == ImageKey(r2, n2)
    ensures r1 == r2 && n1 == n2
  {
    var k := ImageKey(r1, n1);
    assert HexEncode(r1) == k[..2 * |r1|] == HexEncode(r2);
    HexEncodeInjective(r1, r2);
    assert n1 == k[2 * |r1|..] == n2;
  }

  function UrlPrefix(bucket: string, region: string): string {
    "https://" + bucket + ".s3." + region + ".amazonaws.com/"
  }

  /** The public locator of a stored object. */
  function ImageUrl(bucket: string, region: string, key: string): (url: string)
    ensures |url| == |UrlPrefix(bucket, region)| + |key|
    ensures url[..8] == "https://"
    ensures url[..|UrlPrefix(bucket, region)|] == UrlPrefix(bucket, region)
    ensures url[|UrlPrefix(bucket, region)|..] == key
  {
    UrlPrefix(bucket, region) + key
  }

  /** Within one bucket and region, the URL determines the key. */
  lemma ImageUrlInjective(bucket: string, region: string, k1: string, k2: string)
    requires ImageUrl(bucket, region, k1) == ImageUrl(bucket, region, k2)
    ensures k1 == k2
  {
  }

  /** The object store's answer to the `PutObject` request. */
  datatype StoreOutcome = Stored | StoreFailed(message: string)

  /** A file as the multipart parser hands it over; only its name reaches the model's state. */
  datatype UploadedFile = UploadedFile(originalName: string, mimeType: string, buffer: seq<byte>)

  /** `url` is a public locator for an image named from `rawBytes` and
      `originalName`: the bucket and region prefix, then 32 lowercase hex
      characters that decode to the random bytes, then the original name. */
  predicate LocatesImage(url: string, bucket: string, region: string, rawBytes: seq<byte>, originalName: string) {
    var n := |UrlPrefix(bucket, region)|;
    |url| == n + 32 + |originalName| &&
    url[..n] == UrlPrefix(bucket, region) &&
    IsHexString(url[n..n + 32]) && HexDecode(url[n..n + 32]) == rawBytes &&
    url[n + 32..] == originalName
  }

  /** `uploadImageToS3`: a failed store fails the upload with the store's
      message; a successful one yields a locator naming the object after the
      random bytes and the file's original name. */
  function UploadImageToS3(file: UploadedFile, rawBytes: seq<byte>, bucket: string, region: string,
                           outcome: StoreOutcome): (r: Result<string>)
    requires |rawBytes| == RandomKeyBytes
    ensures r.Success? <==> outcome.Stored?
    ensures r.Failure? ==> r.message == outcome.message
    ensures r.Success? ==> LocatesImage(r.value, bucket, region, rawBytes, file.originalName)
  {
    match outcome
    case StoreFailed(m) => Failure(m)
    case Stored =>
      var key := ImageKey(rawBytes, file.originalName);
      var url := ImageUrl(bucket, region, key);
      ImageKeyParts(rawBytes, file.originalName);
      var n := |UrlPrefix(bucket, region)|;
      assert url[n..n + 32] == key[..32] && url[n + 32..] == key[32..];
      Success(url)
  }
}
