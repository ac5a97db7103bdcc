/**
 * The hosted JSON document store as both scripts talk to it
 * (js/crud.js and js/data-loading.js): the request headers, the secret
 * they carry, the classification of the response status and the
 * normalisation of the response body to one collection.
 */
module JsonBin {
  import opened Wrappers
  import opened Text
  import opened Errors
  import opened Items

  /** The `record` member of an object body. `NoRecord` stands for a missing
      or falsy member (undefined, null, false, 0, ""). */
  datatype Record = NoRecord | RecordArray(items: seq<Item>) | RecordOther

  /** The parsed response body: an array, an object, or any other JSON value
      (null, a boolean, a number, a string), none of which has a `record`. */
  datatype Payload = BareArray(items: seq<Item>) | Envelope(record: Record) | Scalar

  datatype Response = Response(status: nat, payload: Payload)

  /** `res.ok`. */
  predicate IsOk(status: nat) {
    200 <= status <= 299
  }

  /** The error a non-ok status throws: 401 and 403 (Unauthorized and
      Forbidden, sections 15.5.2 and 15.5.4 of RFC 9110) are told apart from
      every other failure, which reports its status. */
  function StatusError(status: nat): (e: Option<Error>)
    ensures e.None? <==> IsOk(status)
    ensures e == Some(Unauthorized) <==> status == 401 || status == 403
    ensures e.Some? && e.value != Unauthorized ==> e.value == Http(status)
  {
    if IsOk(status) then None
    else if status == 401 || status == 403 then Some(Unauthorized)
    else Some(Http(status))
  }

  /** `Array.isArray(payload) ? payload : (payload && payload.record) || []`,
      then the array check. */
  function Normalize(p: Payload): (r: Result<seq<Item>, Error>)
    ensures r.Failure? <==> p == Envelope(RecordOther)
    ensures r.Failure? ==> r.error == UnexpectedJson
    ensures p.BareArray? ==> r == Success(p.items)
    ensures p.Envelope? && p.record.RecordArray? ==> r == Success(p.record.items)
    ensures p.Scalar? || p == Envelope(NoRecord) ==> r == Success([])
  {
    match p
    case BareArray(items) => Success(items)
    case Scalar => Success([])
    case Envelope(NoRecord) => Success([])
    case Envelope(RecordArray(items)) => Success(items)
    case Envelope(RecordOther) => Failure(UnexpectedJson)
  }

  /** A bare array and the same array under `record` read the same. */
  lemma EnvelopeAgreesWithBare(items: seq<Item>)
    ensures Normalize(Envelope(RecordArray(items))) == Normalize(BareArray(items)) == Success(items)
  {
  }

  /** `readRemote()` (and the fetch-and-parse part of `loadRemote()`): the
      status is checked before the body is looked at. */
  function ReadRemote(res: Response): (r: Result<seq<Item>, Error>)
    ensures !IsOk(res.status) ==> r == Failure(StatusError(res.status).value)
    ensures IsOk(res.status) ==> r == Normalize(res.payload)
  {
    match StatusError(res.status)
    case Some(e) => Failure(e)
    case None => Normalize(res.payload)
  }

  /** A 403 surfaces as Unauthorized, a 500 as a transport error reading
      "HTTP 500". */
  lemma ForbiddenIsNotServerError(p: Payload)
    ensures ReadRemote(Response(403, p)) == Failure(Unauthorized)
    ensures ReadRemote(Response(500, p)) == Failure(Http(500))
    ensures Message(Http(500)) == "HTTP 500"
  {
    assert Decimal(500) == "500";
  }

  /** `ENV_JSONBIN_MASTER_KEY || localStorage.getItem('jsonbinMasterKey')`,
      with the empty string read as absent. */
  function MasterKey(envKey: Option<string>, storedKey: Option<string>): (k: Option<string>)
    ensures k.Some? ==> k.value != []
    ensures k.Some? <==> (envKey.Some? && envKey.value != []) || (storedKey.Some? && storedKey.value != [])
    ensures envKey.Some? && envKey.value != [] ==> k == envKey
    ensures k.Some? && k != envKey ==> k == storedKey
  {
    if envKey.Some? && envKey.value != [] then envKey
    else if storedKey.Some? && storedKey.value != [] then storedKey
    else None
  }

  function KeyHeader(key: Option<string>): map<string, string> {
    if key.Some? then map["X-Master-Key" := key.value] else map[]
  }

  /** `getJsonBinHeaders()` of js/data-loading.js. */
  function ReadHeaders(envKey: Option<string>, storedKey: Option<string>): (h: map<string, string>)
    ensures "Accept" in h && h["Accept"] == "application/json"
    ensures "X-Bin-Meta" in h && h["X-Bin-Meta"] == "false"
    ensures "X-Master-Key" in h <==> MasterKey(envKey, storedKey).Some?
    ensures "X-Master-Key" in h ==> Some(h["X-Master-Key"]) == MasterKey(envKey, storedKey)
    ensures h.Keys <= {"Accept", "X-Bin-Meta", "X-Master-Key"}
  {
    (map["Accept" := "application/json"] + KeyHeader(MasterKey(envKey, storedKey)))["X-Bin-Meta" := "false"]
  }

  /** `getJsonBinHeaders(includeContent)` of js/crud.js. */
  function CrudHeaders(envKey: Option<string>, storedKey: Option<string>, includeContent: bool)
    : (h: map<string, string>)
    ensures "Accept" in h && h["Accept"] == "application/json"
    ensures "X-Master-Key" in h <==> MasterKey(envKey, storedKey).Some?
    ensures "X-Master-Key" in h ==> Some(h["X-Master-Key"]) == MasterKey(envKey, storedKey)
    ensures "Content-Type" in h <==> includeContent
    ensures "Content-Type" in h ==> h["Content-Type"] == "application/json"
    ensures h.Keys <= {"Accept", "Content-Type", "X-Master-Key"}
  {
    var h := map["Accept" := "application/json"] + KeyHeader(MasterKey(envKey, storedKey));
    if includeContent then h["Content-Type" := "application/json"] else h
  }

  /** The secret is taken from the environment file whenever it gave one:
      the stored override only shows when it did not. */
  lemma EnvKeyPreferred(envKey: string, storedKey: Option<string>)
    requires envKey != []
    ensures ReadHeaders(Some(envKey), storedKey)["X-Master-Key"] == envKey
    ensures CrudHeaders(Some(envKey), storedKey, true)["X-Master-Key"] == envKey
  {
  }

  /** What fetching `env.json` gave: nothing usable (network failure or
      malformed JSON), a non-ok status, or a parsed object whose
      `JSONBIN_MASTER_KEY` is a string or not. */
  datatype EnvFetch = Unreachable | NotOk | Parsed(masterKey: Option<string>)

  /** The script-level secret `ENV_JSONBIN_MASTER_KEY`. */
  class Environment {
    var masterKey: Option<string>

    /** A loaded secret is never blank and carries no surrounding white space. */
    ghost predicate Valid()
      reads this
    {
      masterKey.Some? ==> masterKey.value != [] && Trimmed(masterKey.value)
    }

    constructor ()
      ensures Valid() && masterKey == None
    {
      masterKey := None;
    }

    /** `loadEnv()`. */
    method LoadEnv(res: EnvFetch)
      requires Valid()
      modifies this
      ensures Valid()
      ensures res.Parsed? && res.masterKey.Some? && !AllSpace(res.masterKey.value)
        ==> masterKey == Some(Trim(res.masterKey.value))
      ensures !(res.Parsed? && res.masterKey.Some? && !AllSpace(res.masterKey.value))
        ==> masterKey == old(masterKey)
    {
      if res.Parsed? && res.masterKey.Some? {
        var key := Trim(res.masterKey.value);
        TrimEmpty(res.masterKey.value);
        if |key| > 0 {
          masterKey := Some(key);
        }
      }
    }
  }
}
