# Claim intake handler — a Dafny model

This project models the `POST /submit-claim` handler of an insurance-claim intake
service (`submit_claim` in `app.py`). One request does the following:

1. It reads the form fields `name`, `email` and `accidentDescription`. Only their
   presence is checked, so empty strings are accepted.
2. It sends each uploaded car photo to an image-captioning service. A file part
   without a filename is skipped. For each photo that gets one, the first caption
   is kept.
3. It assembles a five-field claim document: `id`, `name`, `email`, `description`,
   `photoDescriptions`.
4. It upserts the document once into the claim store.
5. It posts the same document to a workflow webhook, when a webhook URL is
   configured.
6. It answers `{"status": "success", "claimId": …, "message": "Claim submitted
   successfully."}`. If any step raises, it answers instead with the single
   catch-all `{"status": "error", "message": str(e)}` and HTTP 500.

The external services are inputs to the model:

- Each photo carries its filename and the outcome of captioning it: either the
  list of captions returned, or the text of the exception raised.
- The upsert either returns or raises with a message.
- The webhook post either answers with some status code or raises with a message.
- The webhook URL is an optional string.
- The claim id (a UUID) is a parameter.

The handler returns the reply and a ghost trace of the calls it made:
`Caption(i)`, `Upsert(doc)` and `Webhook(url, doc)`. This lets the model state,
for each exit path, which calls happened and in which order.

Modules:

- `Records` (`records.dfy`): the claim document as a JSON object (a map from key
  to value), a reference decoder `FromDocument` used to state its round trips,
  and the two reply shapes.
- `Captions` (`captions.dfy`): the caption loop as an imperative method
  (`CollectCaptions`). It is proved against `CaptionAll`, a specification
  function defined on prefixes of the photo list. Lemmas cover skipped photos,
  order, counts and the abort on the first failing photo.
- `Intake` (`intake.dfy`): the handler `SubmitClaim`. It is a sequence of steps
  that can stop early, and it returns the reply together with the effect trace.

Behaviour of the code that the model keeps as it is:

- A captioning exception aborts the whole request. No upsert and no webhook
  call follow.
- A webhook exception after the upsert gives the error reply, although the
  claim is already stored.
- Empty field values are accepted. Only the presence of the three fields is
  checked.
- Every failure, including a missing field, gives HTTP 500.

## Model

| member | source | states |
|---|---|---|
| `Records.ToDocument` | app.py:75-81 | the stored document has exactly the keys `id`, `name`, `email`, `description`, `photoDescriptions`, and reads back as the record it was built from |
| `Records.FromDocumentRoundTrip` | app.py:75-81 | a well-formed document with exactly the five keys is the document of the record it reads back as (the converse round trip) |
| `Records.ToDocumentInjective` | app.py:75-81 | different records give different documents, so the upserted document determines the claim |
| `Records.SuccessResponse` | app.py:88-92 | the success reply has status 200, exactly the keys `status`, `claimId`, `message`, reads as a success, carries the given claim id and the fixed message "Claim submitted successfully." |
| `Records.ErrorResponse` | app.py:94-95 | the error reply has status 500, exactly the keys `status` ("error") and `message` (the exception text), does not read as a success and carries no claim id |
| `Captions.CaptionedIndices` | app.py:60-70 | the indices of the photos that are uploaded and got at least one caption: strictly increasing, within range, and containing every such photo |
| `Captions.AbortedStaysAborted` | app.py:60-67 | once a captioning call has raised, the remaining photos change neither the outcome nor the calls made (the exception leaves the loop) |
| `Captions.CallsAreUploadedPhotos` | app.py:60-61 | only uploaded photos are sent to captioning, in strictly increasing photo order (each at most once); when the loop completes, a photo is sent exactly when it is uploaded |
| `Captions.SkippedPhotoNeverCaptioned` | app.py:60-61 | a file part without a filename is never sent to captioning |
| `Captions.CaptionsFollowPhotos` | app.py:60-70 | when the loop completes, entry k of the caption list is the first caption of the k-th captioned photo, so there is one entry per captioned photo, in photo order |
| `Captions.CaptionCount` | app.py:58-70 | the caption list has as many entries as there are captioned photos, at most as many as there are photos, and none when there are no photos |
| `Captions.AbortedIffSomePhotoFails` | app.py:66-67 | the loop aborts if and only if the captioning of some uploaded photo raises |
| `Captions.AbortsAtFirstFailure` | app.py:60-67 | the abort carries the message of the first failing uploaded photo; every uploaded photo up to and including it, and no later photo, was sent to captioning, the failing photo last |
| `Captions.CollectCaptions` | app.py:58-70 | the loop returns exactly the outcome and makes exactly the captioning calls of `CaptionAll`, the specification the lemmas above are about |
| `Intake.SubmitClaim` | app.py:50-95 | the reply is a success exactly when all three fields are present, no captioning call raised, the upsert returned, and (when the URL is non-empty) the webhook post returned, whatever its status code; a missing field gives the error reply with no call made; a captioning failure gives that exception's reply with no upsert and no webhook; past captioning the trace is exactly the caption loop's calls, then one upsert of the record holding the claim id, the three form values unchanged and the aggregated captions, then the webhook post only when the upsert returned and the URL is non-empty; an upsert failure gives its message and no webhook; the webhook gets the same document right after the upsert, and only when the URL is set and non-empty, and its failure gives the error reply after the claim was stored; all captioning calls precede every other call; on success the reply's claim id is the id of the single stored record |

## Left out

- Key Vault secret retrieval, environment loading and the construction of the service clients (app.py:15-43). This is startup configuration done through external SDKs. The form-recognizer and OpenAI clients are never used by the handler.
- The `GET /` page (app.py:45-47), Flask's request parsing and `jsonify`. A form is modelled as a map from field name to its first value, and a reply as its JSON body plus status code.
- Staging each upload under `/tmp` with `secure_filename`, and opening it again (app.py:62-66). Saving, opening and describing a photo are one abstract captioning outcome per photo. A failure of any of them, including a filename that sanitises to nothing, is a `Raised` outcome. The sharing of `/tmp` between concurrent requests is not modelled.
- The `full_description` string (app.py:72). It is computed but never used.
- UUID generation (app.py:57). The claim id is a parameter. Its uniqueness across requests is a property of the library.
- Caption confidence values. Only the caption texts are modelled.
- The exact text of the exception raised for an absent form field comes from the werkzeug library, which is not part of this model. `Intake.MISSING_FIELD_MESSAGE` assumes werkzeug's standard "400 Bad Request" description without the debug suffix naming the key.
- The text of the other exceptions is an input. The model does not derive `str(e)` from the services' exception types.
- The handler makes no concurrent caption calls, absorbs no per-photo failure, sets no timeouts and returns no 4xx status, so the model has none of these.
