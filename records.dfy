/** The JSON values that the claim handler builds: the claim document that is
    upserted into the claim store and posted to the workflow webhook, and the
    JSON body of the HTTP reply.  Python dictionaries become Dafny maps from
    key to JSON value, so "exactly these fields" is a statement about the
    map's key set. */
module Records {

  datatype Option<+T> = None | Some(value: T)

  /** The only JSON values this handler produces: a string, or a list of strings. */
  datatype Json = Str(s: string) | StrList(items: seq<string>)

  type JsonObject = map<string, Json>

  /** A claim as the handler assembles it. */
  datatype ClaimRecord = ClaimRecord(
    id: string,
    name: string,
    email: string,
    description: string,
    photoDescriptions: seq<string>)

  /** The keys of the stored claim document. */
  const CLAIM_FIELDS: set<string> := {"id", "name", "email", "description", "photoDescriptions"}

  /** The claim document as the handler writes it: five keys, each holding the
      corresponding part of the record, and nothing else. */
  function ToDocument(r: ClaimRecord): (doc: JsonObject)
    ensures doc.Keys == CLAIM_FIELDS
    ensures FromDocument(doc) == Some(r)
  {
    map["id" := Str(r.id),
        "name" := Str(r.name),
        "email" := Str(r.email),
        "description" := Str(r.description),
        "photoDescriptions" := StrList(r.photoDescriptions)]
  }

  /** Reads a claim document back: the reference decoder against which
      ToDocument is checked.  None when a field is missing or has the wrong
      JSON type. */
  function FromDocument(doc: JsonObject): (r: Option<ClaimRecord>)
  {
    if && "id" in doc && doc["id"].Str?
       && "name" in doc && doc["name"].Str?
       && "email" in doc && doc["email"].Str?
       && "description" in doc && doc["description"].Str?
       && "photoDescriptions" in doc && doc["photoDescriptions"].StrList?
    then
      Some(ClaimRecord(doc["id"].s, doc["name"].s, doc["email"].s,
                       doc["description"].s, doc["photoDescriptions"].items))
    else
      None
  }

  /** Two different records never give the same document. */
  lemma ToDocumentInjective(r1: ClaimRecord, r2: ClaimRecord)
    requires ToDocument(r1) == ToDocument(r2)
    ensures r1 == r2
  {
  }

  /** A well-formed document with exactly the claim's keys is the document of
      the record it reads back as: the other half of the round trip. */
  lemma FromDocumentRoundTrip(doc: JsonObject)
    requires doc.Keys == CLAIM_FIELDS && FromDocument(doc).Some?
    ensures ToDocument(FromDocument(doc).value) == doc
  {
  }

  // ---------------------------------------------------------------------------
  // The HTTP reply

  /** A reply: its JSON body and its HTTP status code. */
  datatype Response = Response(body: JsonObject, statusCode: int)

  const SUCCESS_MESSAGE: string := "Claim submitted successfully."

  /** Whether the client reads the reply as a success. */
  predicate Succeeded(resp: Response)
  {
    "status" in resp.body && resp.body["status"] == Str("success")
  }

  /** The claim id the client reads from a reply, if any. */
  function ClaimIdOf(resp: Response): (id: Option<string>)
  {
    if "claimId" in resp.body && resp.body["claimId"].Str? then Some(resp.body["claimId"].s) else None
  }

  /** The message text the client reads from a reply, if any. */
  function MessageOf(resp: Response): (message: Option<string>)
  {
    if "message" in resp.body && resp.body["message"].Str? then Some(resp.body["message"].s) else None
  }

  /** The success reply: status 200 (jsonify's default), three keys, the
      claim id and the fixed message. */
  function SuccessResponse(claimId: string): (resp: Response)
    ensures resp.statusCode == 200 && resp.body.Keys == {"status", "claimId", "message"}
    ensures Succeeded(resp)
    ensures ClaimIdOf(resp) == Some(claimId)
    ensures MessageOf(resp) == Some(SUCCESS_MESSAGE)
  {
    Response(map["status" := Str("success"), "claimId" := Str(claimId), "message" := Str(SUCCESS_MESSAGE)], 200)
  }

  /** The catch-all error reply: status 500, two keys, the exception's text
      and no claim id. */
  function ErrorResponse(message: string): (resp: Response)
    ensures resp.statusCode == 500 && resp.body.Keys == {"status", "message"}
    ensures !Succeeded(resp) && resp.body["status"] == Str("error")
    ensures ClaimIdOf(resp) == None
    ensures MessageOf(resp) == Some(message)
  {
    Response(map["status" := Str("error"), "message" := Str(message)], 500)
  }
}
