/**
 * The parts of Go's net/http that the settings handlers rely on: the request
 * they read and the response writer they write to.  A response writer keeps
 * the first status written (later WriteHeader calls are ignored) and a body
 * that grows with every Write; a handler that writes nothing answers 200.
 */
module Http {
  import opened Wrappers

  newtype byte = b: int | 0 <= b < 256

  type Bytes = seq<byte>

  const STATUS_OK: int := 200
  const STATUS_BAD_REQUEST: int := 400
  const STATUS_UNAUTHORIZED: int := 401
  const STATUS_NOT_FOUND: int := 404
  const STATUS_METHOD_NOT_ALLOWED: int := 405
  const STATUS_INTERNAL_SERVER_ERROR: int := 500

  const METHOD_GET: string := "GET"
  const METHOD_POST: string := "POST"

  /** The text http.NotFound writes. */
  const PAGE_NOT_FOUND_TEXT: string := "404 page not found"

  /**
   * Helper: the bytes of an ASCII string.  Go's []byte(s) is UTF-8, which
   * agrees with this only for characters below 128.
   */
  function Ascii(s: string): (b: Bytes)
    ensures |b| == |s|
    ensures forall i :: 0 <= i < |s| && s[i] as int < 128 ==> b[i] as int == s[i] as int
  {
    seq(|s|, i requires 0 <= i < |s| => (s[i] as int % 256) as byte)
  }

  /**
   * Query values as URL.Query() builds them: a key is present only
   * together with at least one value.
   */
  type Values = q: map<string, seq<string>> | forall k :: k in q ==> |q[k]| > 0 witness map[]

  /**
   * An inbound request.  `userId` is the identity header: Header.Get
   * canonicalises names, so "Mattermost-User-Id" and "Mattermost-User-ID"
   * are the same header, and "" stands for absent or empty.  `body` is the
   * outcome of reading the whole body (None when the read fails).
   */
  datatype Request = Request(path: string, httpMethod: string, userId: string, query: Values, body: Option<Bytes>)

  /** Where an `error` value reported by a collaborator came from; its text is not modelled. */
  datatype Failure = BodyReadError | UnmarshalError | MarshalError | MeetingNotFound | KvError

  /**
   * One write to a response body: raw bytes, a line written by http.Error
   * with a literal text, or one written with an error's text.
   */
  datatype Part = Payload(data: Bytes) | Message(text: string) | ErrorText(err: Failure)

  class ResponseWriter {
    var wroteHeader: bool
    var code: int
    var body: seq<Part>

    constructor ()
      ensures Unwritten()
    {
      wroteHeader := false;
      code := 0;
      body := [];
    }

    predicate Unwritten()
      reads this
    {
      !wroteHeader && body == []
    }

    /** The status the client receives: the first one written, or 200 if none was. */
    function Status(): int
      reads this
    {
      if wroteHeader then code else STATUS_OK
    }

    method WriteHeader(statusCode: int)
      modifies this
      ensures wroteHeader && body == old(body)
      ensures Status() == if old(wroteHeader) then old(Status()) else statusCode
    {
      if !wroteHeader {
        code := statusCode;
        wroteHeader := true;
      }
    }

    /** A Write before any WriteHeader fixes the status at 200. */
    method Write(p: Part)
      modifies this
      ensures wroteHeader && body == old(body) + [p]
      ensures Status() == old(Status())
    {
      if !wroteHeader {
        WriteHeader(STATUS_OK);
      }
      body := body + [p];
    }
  }

  /** http.Error: write the status, then the message. */
  method Error(w: ResponseWriter, p: Part, statusCode: int)
    modifies w
    ensures w.wroteHeader && w.body == old(w.body) + [p]
    ensures w.Status() == if old(w.wroteHeader) then old(w.Status()) else statusCode
  {
    w.WriteHeader(statusCode);
    w.Write(p);
  }

  /** http.NotFound: a 404 with its fixed text. */
  method NotFound(w: ResponseWriter)
    modifies w
    ensures w.wroteHeader && w.body == old(w.body) + [Message(PAGE_NOT_FOUND_TEXT)]
    ensures w.Status() == if old(w.wroteHeader) then old(w.Status()) else STATUS_NOT_FOUND
  {
    Error(w, Message(PAGE_NOT_FOUND_TEXT), STATUS_NOT_FOUND);
  }
}
