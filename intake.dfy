/** The claim-submission handler: read the three required form fields, caption
    the photos, assemble the claim document, upsert it, post it to the
    workflow webhook when one is configured, and map the outcome to a success
    reply or to the single catch-all error reply.

    The external services are inputs: the outcome of each photo's captioning
    travels with the photo, and the outcomes of the upsert and of the webhook
    post are parameters.  The calls made to the services are returned as a
    ghost trace of effects, so that what happens on each exit path, and in
    which order, can be stated. */
module Intake {
  import opened Records
  import opened Captions

  /** The form fields of the multipart request (the first value of each key). */
  type Form = map<string, string>

  /** Only the presence of the three fields is checked; empty strings pass. */
  predicate HasRequiredFields(form: Form)
  {
    "name" in form && "email" in form && "accidentDescription" in form
  }

  /** The text of the exception that reading an absent form field raises
      (werkzeug's BadRequestKeyError); it does not name the field. */
  const MISSING_FIELD_MESSAGE: string :=
    "400 Bad Request: The browser (or proxy) sent a request that this server could not understand."

  /** The outcome of the upsert into the claim store. */
  datatype UpsertOutcome = Upserted | UpsertRaised(message: string)

  /** The outcome of the webhook post: a response with any status code, or an
      exception (connection error, timeout, ...). */
  datatype PostOutcome = Responded(statusCode: int) | PostRaised(message: string)

  /** The webhook is called only when its URL is set and non-empty. */
  predicate WebhookConfigured(url: Option<string>)
  {
    url.Some? && url.value != ""
  }

  /** A call into an external service. */
  datatype Effect =
    | Caption(photo: nat)
    | Upsert(doc: JsonObject)
    | Webhook(url: string, doc: JsonObject)

  /** The captioning calls for the given photo indices, in that order. */
  function CaptionEffects(calls: seq<nat>): (effects: seq<Effect>)
  {
    seq(|calls|, k requires 0 <= k < |calls| => Caption(calls[k]))
  }

  /** The document of an effect that is an upsert. */
  function UpsertOf(e: Effect): (docs: seq<JsonObject>)
  {
    if e.Upsert? then [e.doc] else []
  }

  /** An effect that is a webhook post. */
  function WebhookOf(e: Effect): (posts: seq<Effect>)
  {
    if e.Webhook? then [e] else []
  }

  /** The documents upserted in a trace, in order. */
  function Upserts(trace: seq<Effect>): (docs: seq<JsonObject>)
  {
    if trace == [] then [] else UpsertOf(trace[0]) + Upserts(trace[1..])
  }

  /** The webhook posts in a trace, in order. */
  function Webhooks(trace: seq<Effect>): (posts: seq<Effect>)
  {
    if trace == [] then [] else WebhookOf(trace[0]) + Webhooks(trace[1..])
  }

  lemma {:induction false} UpsertsAppend(a: seq<Effect>, b: seq<Effect>)
    ensures Upserts(a + b) == Upserts(a) + Upserts(b)
  {
    if a == [] {
      assert a + b == b;
    } else {
      var ab := a + b;
      assert ab[0] == a[0] && ab[1..] == a[1..] + b;
      var head := UpsertOf(a[0]);
      calc {
        Upserts(ab);
        head + Upserts(ab[1..]);
        head + Upserts(a[1..] + b);
        { UpsertsAppend(a[1..], b); }
        head + (Upserts(a[1..]) + Upserts(b));
        (head + Upserts(a[1..])) + Upserts(b);
        Upserts(a) + Upserts(b);
      }
    }
  }

  lemma {:induction false} WebhooksAppend(a: seq<Effect>, b: seq<Effect>)
    ensures Webhooks(a + b) == Webhooks(a) + Webhooks(b)
  {
    if a == [] {
      assert a + b == b;
    } else {
      var ab := a + b;
      assert ab[0] == a[0] && ab[1..] == a[1..] + b;
      var head := WebhookOf(a[0]);
      calc {
        Webhooks(ab);
        head + Webhooks(ab[1..]);
        head + Webhooks(a[1..] + b);
        { WebhooksAppend(a[1..], b); }
        head + (Webhooks(a[1..]) + Webhooks(b));
        (head + Webhooks(a[1..])) + Webhooks(b);
        Webhooks(a) + Webhooks(b);
      }
    }
  }

  /** Captioning calls make neither upserts nor webhook posts. */
  lemma {:induction false} CaptionEffectsOnlyCaption(calls: seq<nat>)
    ensures Upserts(CaptionEffects(calls)) == [] && Webhooks(CaptionEffects(calls)) == []
    decreases |calls|
  {
    if calls != [] {
      assert CaptionEffects(calls)[1..] == CaptionEffects(calls[1..]);
      CaptionEffectsOnlyCaption(calls[1..]);
    }
  }

  /** Every captioning call comes before every other call. */
  ghost predicate CaptioningFirst(trace: seq<Effect>)
  {
    forall i, j :: 0 <= i < j < |trace| && trace[j].Caption? ==> trace[i].Caption?
  }

  /** A webhook post comes right after the upsert of the same document, and
      only to the configured, non-empty URL. */
  ghost predicate WebhookFollowsUpsert(trace: seq<Effect>, url: Option<string>)
  {
    forall j :: 0 <= j < |trace| && trace[j].Webhook? ==>
      && 0 < j && trace[j - 1] == Upsert(trace[j].doc)
      && WebhookConfigured(url) && trace[j].url == url.value
  }

  /** The trace of a request that stopped during captioning. */
  lemma CaptionTraceShape(calls: seq<nat>, url: Option<string>)
    ensures var t := CaptionEffects(calls);
      && CaptioningFirst(t) && WebhookFollowsUpsert(t, url)
      && Upserts(t) == [] && Webhooks(t) == []
  {
    CaptionEffectsOnlyCaption(calls);
  }

  /** The trace of a request that got to the upsert: the captioning calls, the
      upsert, and the webhook post when one was made. */
  lemma StoredTraceShape(calls: seq<nat>, doc: JsonObject, url: Option<string>, posted: bool)
    requires posted ==> WebhookConfigured(url)
    ensures var hook := if posted then [Webhook(url.value, doc)] else [];
      var t := CaptionEffects(calls) + [Upsert(doc)] + hook;
      && CaptioningFirst(t) && WebhookFollowsUpsert(t, url)
      && Upserts(t) == [doc] && Webhooks(t) == hook
  {
    StoredTraceOrder(calls, doc, url, posted);
    StoredTraceCounts(calls, doc, if posted then [Webhook(url.value, doc)] else []);
  }

  lemma StoredTraceOrder(calls: seq<nat>, doc: JsonObject, url: Option<string>, posted: bool)
    requires posted ==> WebhookConfigured(url)
    ensures var hook := if posted then [Webhook(url.value, doc)] else [];
      var t := CaptionEffects(calls) + [Upsert(doc)] + hook;
      CaptioningFirst(t) && WebhookFollowsUpsert(t, url)
  {
    var hook := if posted then [Webhook(url.value, doc)] else [];
    var t := CaptionEffects(calls) + [Upsert(doc)] + hook;
    var n := |calls|;
    assert |t| == n + 1 + |hook|;
    assert forall k :: 0 <= k < n ==> t[k].Caption?;
    assert t[n] == Upsert(doc);
    assert posted ==> t[n + 1] == Webhook(url.value, doc);
  }

  lemma StoredTraceCounts(calls: seq<nat>, doc: JsonObject, hook: seq<Effect>)
    requires Upserts(hook) == [] && Webhooks(hook) == hook
    ensures var t := CaptionEffects(calls) + [Upsert(doc)] + hook;
      Upserts(t) == [doc] && Webhooks(t) == hook
  {
    var captions := CaptionEffects(calls);
    CaptionEffectsOnlyCaption(calls);
    var u := [Upsert(doc)];
    assert u[0] == Upsert(doc) && u[1..] == [];
    assert Upserts(u) == UpsertOf(u[0]) + Upserts(u[1..]) == [doc];
    assert Webhooks(u) == WebhookOf(u[0]) + Webhooks(u[1..]) == [];
    UpsertsAppend(captions, u);
    WebhooksAppend(captions, u);
    UpsertsAppend(captions + u, hook);
    WebhooksAppend(captions + u, hook);
  }

  /** The record the handler stores for a request that got past captioning. */
  function ClaimFor(form: Form, claimId: string, descriptions: seq<string>): (claim: ClaimRecord)
    requires HasRequiredFields(form)
  {
    ClaimRecord(claimId, form["name"], form["email"], form["accidentDescription"], descriptions)
  }

  /** The handler.  Every exception ends the request with the error reply
      carrying the exception's text: a missing field before any call is made,
      a captioning failure before the upsert, an upsert failure before the
      webhook, and a webhook failure after the claim has been stored.  The
      webhook's status code is ignored. */
  method SubmitClaim(form: Form, files: seq<Photo>, claimId: string, webhookUrl: Option<string>,
                     upsert: UpsertOutcome, post: PostOutcome)
    returns (response: Response, ghost trace: seq<Effect>)
    // the reply is one of the two shapes, success exactly when no step raised
    ensures Succeeded(response) ==> response == SuccessResponse(claimId)
    ensures !Succeeded(response) ==> MessageOf(response).Some? && response == ErrorResponse(MessageOf(response).value)
    ensures Succeeded(response) <==>
              && HasRequiredFields(form)
              && CaptionAll(files).outcome.Collected?
              && upsert.Upserted?
              && (WebhookConfigured(webhookUrl) ==> post.Responded?)
    // order of the calls, on every path
    ensures CaptioningFirst(trace)
    ensures |Upserts(trace)| <= 1 && |Webhooks(trace)| <= 1
    ensures WebhookFollowsUpsert(trace, webhookUrl)
    // a missing field: nothing is called
    ensures !HasRequiredFields(form) ==> response == ErrorResponse(MISSING_FIELD_MESSAGE) && trace == []
    // the captioning calls of the caption loop come first
    ensures HasRequiredFields(form) ==> CaptionEffects(CaptionAll(files).calls) <= trace
    // a captioning failure: no upsert, no webhook
    ensures HasRequiredFields(form) && CaptionAll(files).outcome.Aborted? ==>
              && response == ErrorResponse(CaptionAll(files).outcome.message)
              && trace == CaptionEffects(CaptionAll(files).calls)
    // past captioning: the loop's captioning calls, one upsert of the assembled
    // record, then the webhook when the upsert returned and a URL is set
    ensures HasRequiredFields(form) && CaptionAll(files).outcome.Collected? ==>
              var doc := ToDocument(ClaimFor(form, claimId, CaptionAll(files).outcome.descriptions));
              trace == CaptionEffects(CaptionAll(files).calls) + [Upsert(doc)]
                       + (if upsert.Upserted? && WebhookConfigured(webhookUrl) then [Webhook(webhookUrl.value, doc)] else [])
    ensures HasRequiredFields(form) && CaptionAll(files).outcome.Collected? ==>
              var doc := ToDocument(ClaimFor(form, claimId, CaptionAll(files).outcome.descriptions));
              && Upserts(trace) == [doc]
              && (upsert.UpsertRaised? ==> response == ErrorResponse(upsert.message) && Webhooks(trace) == [])
              && (upsert.Upserted? && !WebhookConfigured(webhookUrl) ==> Webhooks(trace) == [])
              && (upsert.Upserted? && WebhookConfigured(webhookUrl) ==>
                    && Webhooks(trace) == [Webhook(webhookUrl.value, doc)]
                    && (post.PostRaised? ==> response == ErrorResponse(post.message)))
    // success: the claim id answered is the id of the one record stored
    ensures Succeeded(response) ==>
              && |Upserts(trace)| == 1
              && FromDocument(Upserts(trace)[0]).Some?
              && ClaimIdOf(response) == Some(FromDocument(Upserts(trace)[0]).value.id)
  {
    if !("name" in form && "email" in form && "accidentDescription" in form) {
      return ErrorResponse(MISSING_FIELD_MESSAGE), [];
    }
    var name := form["name"];
    var email := form["email"];
    var description := form["accidentDescription"];

    var captioning: Captioning;
    ghost var calls: seq<nat>;
    captioning, calls := CollectCaptions(files);
    trace := CaptionEffects(calls);
    if captioning.Aborted? {
      CaptionTraceShape(calls, webhookUrl);
      return ErrorResponse(captioning.message), trace;
    }

    var claimData := ToDocument(ClaimRecord(claimId, name, email, description, captioning.descriptions));
    trace := trace + [Upsert(claimData)];
    if upsert.UpsertRaised? {
      StoredTraceShape(calls, claimData, webhookUrl, false);
      assert trace == trace + [];
      return ErrorResponse(upsert.message), trace;
    }

    if WebhookConfigured(webhookUrl) {
      trace := trace + [Webhook(webhookUrl.value, claimData)];
      StoredTraceShape(calls, claimData, webhookUrl, true);
      if post.PostRaised? {
        return ErrorResponse(post.message), trace;
      }
    } else {
      StoredTraceShape(calls, claimData, webhookUrl, false);
      assert trace == trace + [];
    }
    response := SuccessResponse(claimId);
  }
}
