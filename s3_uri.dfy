/** `_parse_s3_uri` (server/app.py): an `s3://bucket/key` reference split at
    the first `/` after the scheme. Empty buckets and keys are accepted, as
    the code does. */
module S3Uri {
  import opened Text

  const Scheme: string := "s3://"

  datatype Location = Location(bucket: string, key: string)

  /** The two `ValueError`s the parser raises. */
  datatype UriError = NotS3Scheme | MissingKeySeparator

  function ParseS3Uri(uri: string): (r: Result<Location, UriError>)
    ensures r.Success? <==> StartsWith(uri, Scheme) && '/' in uri[|Scheme|..]
    ensures !StartsWith(uri, Scheme) ==> r == Failure(NotS3Scheme)
    ensures StartsWith(uri, Scheme) && '/' !in uri[|Scheme|..] ==> r == Failure(MissingKeySeparator)
    ensures r.Success? ==>
      '/' !in r.value.bucket && r.value.bucket + "/" + r.value.key == uri[|Scheme|..]
  {
    if !StartsWith(uri, Scheme) then Failure(NotS3Scheme)
    else match SplitAtFirst(uri[|Scheme|..], '/')
      case None => Failure(MissingKeySeparator)
      case Some(parts) => Success(Location(parts.0, parts.1))
  }

  /** The reference a location is written as. */
  function Format(loc: Location): string
  {
    Scheme + loc.bucket + "/" + loc.key
  }

  /** Every location whose bucket holds no `/` reads back as itself; the key
      may hold further slashes and either part may be empty. */
  lemma ParseFormat(loc: Location)
    requires '/' !in loc.bucket
    ensures ParseS3Uri(Format(loc)) == Success(loc)
  {
    var uri := Format(loc);
    assert uri[..|Scheme|] == Scheme;
    assert uri[|Scheme|..] == loc.bucket + ['/'] + loc.key;
    SplitAtFirstOfJoined(loc.bucket, '/', loc.key);
  }

  /** Whatever parses is written back unchanged. */
  lemma FormatParse(uri: string)
    requires ParseS3Uri(uri).Success?
    ensures Format(ParseS3Uri(uri).value) == uri
  {
    assert uri == uri[..|Scheme|] + uri[|Scheme|..];
  }

  /** `s3:///` names the empty key of the empty bucket rather than failing. */
  lemma EmptyPartsAccepted()
    ensures ParseS3Uri("s3:///") == Success(Location("", ""))
  {
    ParseFormat(Location("", ""));
  }
}
