/**
 * What one delivery worker does with the fields of a `track` call: convert
 * the web-service id, serialise the fields to JSON, and assemble the POST
 * to the collection address with the base64 data, the id and the HMAC
 * signature of the JSON text. The foreign library functions are parameters.
 */
module Delivery {
  import opened Wrappers
  import opened PyValues
  import opened Settings
  import opened CollectUrl

  /** The keyword arguments of one `track` call. */
  type Fields = map<string, Value>

  /** The library calls the worker makes, whose internals are not modelled. */
  datatype Library = Library(
    /** `json.dumps`; None when a value cannot be serialised (the TypeError it raises). */
    jsonDumps: Fields -> Option<string>,
    /** `base64.b64encode` (RFC 4648, section 4). */
    b64Encode: string -> string,
    /** `hmac.new(key, msg, hashlib.sha1).hexdigest()` (RFC 2104 over SHA-1). */
    hmacSha1Hex: (string, string) -> string)

  /** A value of the dict handed to `urllib.urlencode`. */
  datatype FormValue = FormText(text: string) | FormInt(number: int)

  /** The request handed to `urllib2.urlopen`: the address and the form fields. */
  datatype Request = Request(url: string, form: map<string, FormValue>)

  /** Where inside the `try` the worker raised; the client logs it and carries on. */
  datatype Stage = JsonFailed | UrlNotString

  datatype WorkerOutcome =
      /** `int()` of the web-service id raised before the `try`: nothing is posted or logged by the client. */
    | WsidNotConvertible
      /** An exception inside the `try`, swallowed and logged. */
    | Swallowed(stage: Stage)
      /** The request was assembled and posted. */
    | Posted(request: Request)

  const DATA_FIELD: string := "data"
  const WSID_FIELD: string := "wsid"
  const SIGNATURE_FIELD: string := "signature"

  /** `__sign`: the HMAC-SHA1 hex digest of `msg` keyed with `str(secret)`. */
  function Sign(lib: Library, config: Config, msg: string): (sig: string)
    requires SECRET_KEY in config
  {
    lib.hmacSha1Hex(PyStr(config[SECRET_KEY]), msg)
  }

  /** `__send(data, wsid)`: encode, build the address, assemble the form. */
  function Send(lib: Library, config: Config, data: string, wsid: int): (r: WorkerOutcome)
    requires URL_KEY in config && SECRET_KEY in config
    ensures r.Posted? <==> config[URL_KEY].StrValue?
    ensures !r.Posted? ==> r == Swallowed(UrlNotString)
    ensures r.Posted? ==> r.request.url == TargetUrl(config[URL_KEY].text)
    ensures r.Posted? ==> r.request.form.Keys == {DATA_FIELD, WSID_FIELD, SIGNATURE_FIELD}
    ensures r.Posted? ==> r.request.form[DATA_FIELD] == FormText(lib.b64Encode(data))
    ensures r.Posted? ==> r.request.form[WSID_FIELD] == FormInt(wsid)
    ensures r.Posted? ==> r.request.form[SIGNATURE_FIELD] == FormText(lib.hmacSha1Hex(PyStr(config[SECRET_KEY]), data))
  {
    var encoded := lib.b64Encode(data);
    match config[URL_KEY]
    case StrValue(serverUrl) =>
      Posted(Request(TargetUrl(serverUrl),
                     map[DATA_FIELD := FormText(encoded),
                         WSID_FIELD := FormInt(wsid),
                         SIGNATURE_FIELD := FormText(Sign(lib, config, data))]))
    case _ => Swallowed(UrlNotString)
  }

  /** `__track_worker(**fields)`, run on the worker thread of a constructed client. */
  function TrackWorker(lib: Library, config: Config, fields: Fields): (r: WorkerOutcome)
    requires ValidConfig(config)
    ensures r == WsidNotConvertible <==> PyInt(config[WSID_KEY]).None?
    ensures PyInt(config[WSID_KEY]).Some? && lib.jsonDumps(fields).None? ==> r == Swallowed(JsonFailed)
    ensures PyInt(config[WSID_KEY]).Some? && lib.jsonDumps(fields).Some? && !config[URL_KEY].StrValue? ==>
              r == Swallowed(UrlNotString)
    ensures r.Posted? <==>
              PyInt(config[WSID_KEY]).Some? && lib.jsonDumps(fields).Some? && config[URL_KEY].StrValue?
  {
    match PyInt(config[WSID_KEY])
    case None => WsidNotConvertible
    case Some(wsid) =>
      match lib.jsonDumps(fields)
      case None => Swallowed(JsonFailed)
      case Some(json) => Send(lib, config, json, wsid)
  }

  /**
   * The posted form: exactly the three fields, the data being the base64 of
   * the JSON text, the signature the HMAC of the unencoded JSON text, and
   * the id `int(config["wsid"])`.
   */
  lemma PostedForm(lib: Library, config: Config, fields: Fields)
    requires ValidConfig(config)
    requires TrackWorker(lib, config, fields).Posted?
    ensures var req := TrackWorker(lib, config, fields).request;
            var json := lib.jsonDumps(fields).value;
            req.url == TargetUrl(config[URL_KEY].text) &&
            req.form.Keys == {DATA_FIELD, WSID_FIELD, SIGNATURE_FIELD} &&
            req.form[DATA_FIELD] == FormText(lib.b64Encode(json)) &&
            req.form[SIGNATURE_FIELD] == FormText(lib.hmacSha1Hex(PyStr(config[SECRET_KEY]), json)) &&
            req.form[WSID_FIELD] == FormInt(PyInt(config[WSID_KEY]).value)
  {
  }

  /** What a receiver holding the shared secret checks: decode the data and recompute the signature. */
  predicate ReceiverAccepts(lib: Library, b64Decode: string -> Option<string>, key: string,
                            form: map<string, FormValue>)
  {
    DATA_FIELD in form && SIGNATURE_FIELD in form &&
    form[DATA_FIELD].FormText? && form[SIGNATURE_FIELD].FormText? &&
    match b64Decode(form[DATA_FIELD].text)
    case Some(json) => lib.hmacSha1Hex(key, json) == form[SIGNATURE_FIELD].text
    case None => false
  }

  /**
   * Because the signature is over the unencoded JSON text, a receiver that
   * base64-decodes the data recovers exactly that text and can verify it.
   */
  lemma PostedRequestVerifies(lib: Library, b64Decode: string -> Option<string>, config: Config, fields: Fields)
    requires forall s :: b64Decode(lib.b64Encode(s)) == Some(s)
    requires ValidConfig(config)
    requires TrackWorker(lib, config, fields).Posted?
    ensures var form := TrackWorker(lib, config, fields).request.form;
            ReceiverAccepts(lib, b64Decode, PyStr(config[SECRET_KEY]), form) &&
            Some(b64Decode(form[DATA_FIELD].text).value) == lib.jsonDumps(fields)
  {
    PostedForm(lib, config, fields);
  }

  /** Deliveries of fields that serialise to the same JSON text post the same request. */
  lemma RequestDependsOnJsonOnly(lib: Library, config: Config, fields: Fields, others: Fields)
    requires ValidConfig(config)
    requires lib.jsonDumps(fields) == lib.jsonDumps(others)
    ensures TrackWorker(lib, config, fields) == TrackWorker(lib, config, others)
  {
  }

  /**
   * An integer web-service id and its decimal string (the form a config file
   * gives it in) are both accepted and lead to the same delivery.
   */
  lemma WsidSpellingIrrelevant(lib: Library, config: Config, fields: Fields, n: int)
    requires ValidConfig(config) && config[WSID_KEY] == IntValue(n)
    ensures ValidConfig(config[WSID_KEY := StrValue(PyStr(IntValue(n)))])
    ensures TrackWorker(lib, config[WSID_KEY := StrValue(PyStr(IntValue(n)))], fields) == TrackWorker(lib, config, fields)
  {
    var spelled := config[WSID_KEY := StrValue(PyStr(IntValue(n)))];
    assert URL_KEY != WSID_KEY && SECRET_KEY != WSID_KEY;
    assert spelled[URL_KEY] == config[URL_KEY] && spelled[SECRET_KEY] == config[SECRET_KEY];
    assert |PyStr(IntValue(n))| > 0;
    assert Passes(spelled, CheckedKeys[0]) && Passes(spelled, CheckedKeys[1]) && Passes(spelled, CheckedKeys[2]);
    assert PyInt(spelled[WSID_KEY]) == PyInt(config[WSID_KEY]);
  }
}
