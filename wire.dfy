/**
 * What the contract layer shares and what it takes from its collaborators:
 * the data-type enumeration, the outbound request and inbound request
 * context of the HTTP library as records of their fields, and the foreign
 * encoders and decoders, which the model treats as given functions.
 */
module Wire {
  import opened Wrappers
  import opened Json

  /**
   * The payload encodings. `Unset` is the zero value: the empty string in the
   * revision where the type is a string, 0 in the one where it is an int.
   */
  datatype DataType = Unset | Binary | JSON | Form | MultipartForm | RouteParams | QueryParams

  /** The user-value key used when none is configured. */
  const DefaultKey: string := "data"

  /** The Content-Type header value that names each body encoding. */
  function ContentType(t: DataType): (ct: string)
    requires t.Binary? || t.JSON? || t.Form? || t.MultipartForm?
    ensures ct != ""
  {
    match t
    case Binary => "application/msgpack"
    case JSON => "application/json"
    case Form => "application/x-www-form-urlencoded"
    case MultipartForm => "multipart/form-data"
  }

  const ContentTypeHeader: string := "Content-Type"
  const StatusOK: int := 200
  const StatusBadRequest: int := 400

  /** `url.Values`. */
  type UrlValues = map<string, seq<string>>

  /** The two results of a marshalling call. */
  datatype Encoded = Encoded(bytes: string, err: Option<Error>)

  /** What unmarshalling into a `map[string]interface{}` leaves in the map, and the error. */
  datatype Decoded = Decoded(members: seq<(string, JsonValue)>, err: Option<Error>)

  /**
   * What unmarshalling into a `*DataHandler` leaves behind: `None` when the
   * decoder set the pointer to nil, otherwise the handler's `Payload` field.
   */
  datatype DecodedHandler = DecodedHandler(payload: Option<JsonValue>, err: Option<Error>)

  /** The two results of converting a value to `url.Values`. */
  datatype Converted = Converted(values: UrlValues, err: Option<Error>)

  /** The foreign serializers the layer calls; each is a given function. */
  datatype Codecs = Codecs(
    jsonMarshal: JsonValue -> Encoded,
    jsonUnmarshal: string -> Decoded,
    jsonUnmarshalHandler: (string, JsonValue) -> DecodedHandler,
    msgpackMarshal: JsonValue -> Encoded,
    msgpackMarshalHandler: (DataType, string, JsonValue) -> Encoded,
    msgpackUnmarshal: string -> Decoded,
    msgpackUnmarshalHandler: (string, JsonValue) -> DecodedHandler,
    toUrlValues: JsonValue -> Converted,
    encodeValues: UrlValues -> string,
    structure: (JsonValue, seq<(string, JsonValue)>) -> JsonValue)

  /** An outbound request: method, URI, headers and body. */
  class Request {
    var httpMethod: string
    var uri: string
    var headers: map<string, string>
    var body: string

    constructor (uri: string)
      ensures this.uri == uri && httpMethod == "" && headers == map[] && body == ""
    {
      this.uri := uri;
      httpMethod := "";
      headers := map[];
      body := "";
    }
  }

  /**
   * The fields of an inbound request context the layer reads or writes: the
   * posted body and its Content-Type, the response status and body, and the
   * user values.
   */
  datatype Exchange = Exchange(
    postBody: string,
    contentType: string,
    status: int,
    response: string,
    userValues: map<string, JsonValue>)

  class RequestCtx {
    var postBody: string
    var contentType: string
    var status: int
    var response: string
    var userValues: map<string, JsonValue>

    constructor (postBody: string, contentType: string)
      ensures State() == Exchange(postBody, contentType, StatusOK, "", map[])
    {
      this.postBody := postBody;
      this.contentType := contentType;
      status := StatusOK;
      response := "";
      userValues := map[];
    }

    function State(): Exchange
      reads this
    {
      Exchange(postBody, contentType, status, response, userValues)
    }

    /** Writes back the whole context, as a stage that received it may change any of it. */
    method Load(e: Exchange)
      modifies this
      ensures State() == e
    {
      postBody, contentType, status, response, userValues :=
        e.postBody, e.contentType, e.status, e.response, e.userValues;
    }
  }
}
