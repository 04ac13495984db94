/**
 * network/GcsUploader.kt: the signed-URL upload client. It asks a cloud
 * function for a pre-signed URL and PUTs a file's bytes to that URL,
 * reporting the outcome through a callback.
 */
module Upload {
  import opened Wrappers
  import opened Models
  import opened Text

  // ---------------------------------------------------------------------------
  // Base URL and authorization header
  // ---------------------------------------------------------------------------

  predicate EndsWithSlash(s: string) {
    |s| > 0 && s[|s| - 1] == '/'
  }

  /** The base URL `initialize` hands to Retrofit: a '/' is appended unless one ends it already. */
  function NormalizeBaseUrl(url: string): (r: string)
    ensures EndsWithSlash(r)
    ensures |url| <= |r| <= |url| + 1 && r[..|url|] == url
    ensures EndsWithSlash(url) <==> r == url
  {
    if EndsWithSlash(url) then url else url + "/"
  }

  /** Normalizing twice is normalizing once. */
  lemma NormalizeBaseUrlIdempotent(url: string)
    ensures NormalizeBaseUrl(NormalizeBaseUrl(url)) == NormalizeBaseUrl(url)
  {
  }

  const BearerPrefix: string := "Bearer "

  /** The Authorization header value sent to the cloud function. */
  function BearerHeader(authToken: string): (h: string)
    ensures |h| == |BearerPrefix| + |authToken|
    ensures h[..|BearerPrefix|] == BearerPrefix && h[|BearerPrefix|..] == authToken
  {
    BearerPrefix + authToken
  }

  /** The header identifies the token. */
  lemma BearerHeaderInjective(a: string, b: string)
    requires BearerHeader(a) == BearerHeader(b)
    ensures a == b
  {
    assert a == BearerHeader(a)[|BearerPrefix|..];
  }

  // ---------------------------------------------------------------------------
  // Requests, replies and results
  // ---------------------------------------------------------------------------

  datatype Throwable = IOException(message: string) | OtherThrowable(message: string)

  /** The JSON body of the signed-URL request. */
  datatype SignedUrlRequest = SignedUrlRequest(fileName: string, contentType: string)

  /** The POST made to the cloud function: base URL, path, body and Authorization header. */
  datatype SignedUrlCall = SignedUrlCall(baseUrl: string, path: string, body: SignedUrlRequest, authorization: string)

  /** What the cloud function call yields: a reply whose `signedUrl` may be null, or an exception. */
  datatype FunctionReply = Replied(signedUrl: Option<string>) | CallThrew(error: Throwable)

  /** The file's input stream: opened and read, null, or an exception while opening or reading it. */
  datatype StreamOpen = Opened(bytes: seq<bv8>) | NullStream | StreamThrew(error: Throwable)

  /** What executing the PUT yields: a response with its code and body text, or an exception. */
  datatype PutOutcome = PutResponded(code: int, body: Option<string>) | PutThrew(error: Throwable)

  datatype PutRequest = PutRequest(url: string, contentTypeHeader: string, body: seq<bv8>)

  /** Kotlin's `Result<Unit>` as passed to the callback. */
  datatype UploadResult = UploadSucceeded | UploadFailed(error: Throwable)

  const NoStreamPrefix: string := "Could not open input stream for Uri: "
  const UploadFailedPrefix: string := "Upload failed: "

  /** "Upload failed: <code> - <body>", a missing body rendering as "null". */
  function UploadFailedMessage(code: int, body: Option<string>): string {
    UploadFailedPrefix + IntToString(code) + " - " + (if body.Some? then body.value else "null")
  }

  lemma SeparatorFollows(s: string, t: string)
    ensures (s + " - " + t)[|s|] == ' '
  {
  }

  /** A run of digits, possibly signed, ends where the " - " separator starts. */
  lemma NumberBeforeSeparator(s1: string, t1: string, s2: string, t2: string)
    requires |s1| > 0 && forall i :: 1 <= i < |s1| ==> IsDigit(s1[i])
    requires |s2| > 0 && forall i :: 1 <= i < |s2| ==> IsDigit(s2[i])
    requires s1 + " - " + t1 == s2 + " - " + t2
    ensures s1 == s2
  {
    var m1, m2 := s1 + " - " + t1, s2 + " - " + t2;
    if |s1| < |s2| {
      SeparatorFollows(s1, t1);
      assert false;
    } else if |s2| < |s1| {
      SeparatorFollows(s2, t2);
      assert false;
    } else {
      assert s1 == m1[..|s1|] && s2 == m2[..|s2|];
    }
  }

  /** The failure message identifies the status code, whatever the bodies. */
  lemma UploadFailedMessageDeterminesCode(c1: int, b1: Option<string>, c2: int, b2: Option<string>)
    requires UploadFailedMessage(c1, b1) == UploadFailedMessage(c2, b2)
    ensures c1 == c2
  {
    var n := |UploadFailedPrefix|;
    var t1 := if b1.Some? then b1.value else "null";
    var t2 := if b2.Some? then b2.value else "null";
    var m1 := IntToString(c1) + " - " + t1;
    var m2 := IntToString(c2) + " - " + t2;
    assert UploadFailedMessage(c1, b1) == UploadFailedPrefix + m1;
    assert UploadFailedMessage(c2, b2) == UploadFailedPrefix + m2;
    assert m1 == UploadFailedMessage(c1, b1)[n..] == UploadFailedMessage(c2, b2)[n..] == m2;
    NumberBeforeSeparator(IntToString(c1), t1, IntToString(c2), t2);
    IntToStringInjective(c1, c2);
  }

  // ---------------------------------------------------------------------------
  // The uploader
  // ---------------------------------------------------------------------------

  class GcsUploader {
    /** The base URL of the Retrofit client for the cloud function; None until `initialize`. */
    var baseUrl: Option<string>

    constructor ()
      ensures baseUrl == None
    {
      baseUrl := None;
    }

    method Initialize(cloudFunctionBaseUrl: string)
      modifies this
      ensures baseUrl == Some(NormalizeBaseUrl(cloudFunctionBaseUrl))
    {
      var url := if EndsWithSlash(cloudFunctionBaseUrl) then cloudFunctionBaseUrl else cloudFunctionBaseUrl + "/";
      baseUrl := Some(url);
    }

    /**
     * POSTs {fileName, contentType} with a bearer header and returns the reply's
     * `signedUrl`; any exception, including use before `initialize`, gives null.
     */
    method GetSignedUrlFromCloudFunction(fileName: string, contentType: string, authToken: string,
                                         reply: FunctionReply)
      returns (call: Option<SignedUrlCall>, signedUrl: Option<string>)
      ensures call.Some? <==> baseUrl.Some?
      ensures call.Some? ==>
                call.value == SignedUrlCall(baseUrl.value, "/", SignedUrlRequest(fileName, contentType),
                                            BearerHeader(authToken))
      ensures signedUrl.Some? <==> call.Some? && reply.Replied? && reply.signedUrl.Some?
      ensures signedUrl.Some? ==> signedUrl == reply.signedUrl
    {
      if baseUrl.None? {
        return None, None;
      }
      var requestBody := SignedUrlRequest(fileName, contentType);
      call := Some(SignedUrlCall(baseUrl.value, "/", requestBody, BearerPrefix + authToken));
      match reply
      case Replied(url) => signedUrl := url;
      case CallThrew(_) => signedUrl := None;
    }

    /**
     * Reads the file and PUTs it to the signed URL; the callback receives
     * exactly one result on every path.
     */
    method UploadFile(signedUrl: string, fileUri: string, contentType: string,
                      stream: StreamOpen, put: PutOutcome)
      returns (request: Option<PutRequest>, callbacks: seq<UploadResult>)
      ensures |callbacks| == 1
      ensures request.Some? <==> stream.Opened?
      ensures request.Some? ==> request.value == PutRequest(signedUrl, contentType, stream.bytes)
      ensures callbacks[0] == UploadSucceeded <==>
                stream.Opened? && put.PutResponded? && IsSuccessful(put.code)
      ensures stream.NullStream? ==> callbacks[0] == UploadFailed(IOException(NoStreamPrefix + fileUri))
      ensures stream.StreamThrew? ==> callbacks[0] == UploadFailed(stream.error)
      ensures stream.Opened? && put.PutThrew? ==> callbacks[0] == UploadFailed(put.error)
      ensures stream.Opened? && put.PutResponded? && !IsSuccessful(put.code) ==>
                callbacks[0] == UploadFailed(IOException(UploadFailedMessage(put.code, put.body)))
    {
      callbacks := [];
      request := None;
      match stream
      case StreamThrew(error) =>
        callbacks := callbacks + [UploadFailed(error)];
      case NullStream =>
        callbacks := callbacks + [UploadFailed(IOException(NoStreamPrefix + fileUri))];
      case Opened(bytes) =>
        request := Some(PutRequest(signedUrl, contentType, bytes));
        match put
        case PutThrew(error) =>
          callbacks := callbacks + [UploadFailed(error)];
        case PutResponded(code, body) =>
          if IsSuccessful(code) {
            callbacks := callbacks + [UploadSucceeded];
          } else {
            var errorBody := if body.Some? then body.value else "null";
            callbacks := callbacks + [UploadFailed(IOException(UploadFailedPrefix + IntToString(code) + " - " + errorBody))];
          }
    }
  }
}
