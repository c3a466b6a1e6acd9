/** The caption-aggregation loop of the claim handler: every uploaded photo is
    sent to the image-captioning service in turn; the first caption of each
    photo that gets one is appended to the list, and a failing call ends the
    loop (and, in the handler, the whole request).

    CaptionAll is the specification of the loop, defined on prefixes of the
    photo list so that it follows the loop step by step; CollectCaptions is the
    loop itself. */
module Captions {

  /** What describing one photo gave: the captions the service returned (an
      empty list when it returned none), or the text of the exception raised
      while saving, opening or describing the photo. */
  datatype Analysis = Described(captions: seq<string>) | Raised(message: string)

  /** One uploaded file part together with the outcome of captioning it. */
  datatype Photo = Photo(filename: string, analysis: Analysis)

  /** A file part is truthy exactly when it carries a filename. */
  predicate Uploaded(p: Photo)
  {
    p.filename != ""
  }

  /** An uploaded photo whose captioning raises. */
  predicate Fails(p: Photo)
  {
    Uploaded(p) && p.analysis.Raised?
  }

  /** An uploaded photo for which the service returned at least one caption. */
  predicate Captioned(p: Photo)
  {
    Uploaded(p) && p.analysis.Described? && |p.analysis.captions| > 0
  }

  /** The outcome of the whole loop: the collected captions, or the message of
      the exception that ended it. */
  datatype Captioning = Collected(descriptions: seq<string>) | Aborted(message: string)

  /** The loop's outcome together with the indices of the photos sent to the
      captioning service, in call order. */
  datatype CaptionPass = CaptionPass(calls: seq<nat>, outcome: Captioning)

  /** What the loop does with the photos, defined by the last photo so that it
      follows the loop one iteration at a time. */
  function CaptionAll(photos: seq<Photo>): (pass: CaptionPass)
  {
    if photos == [] then CaptionPass([], Collected([]))
    else
      var n := |photos| - 1;
      var prev := CaptionAll(photos[..n]);
      var p := photos[n];
      if prev.outcome.Aborted? || !Uploaded(p) then prev
      else match p.analysis
        case Raised(m) => CaptionPass(prev.calls + [n], Aborted(m))
        case Described(cs) =>
          CaptionPass(prev.calls + [n],
                      if cs == [] then prev.outcome else Collected(prev.outcome.descriptions + [cs[0]]))
  }

  /** The indices of the captioned photos, in photo order. */
  function CaptionedIndices(photos: seq<Photo>): (idx: seq<nat>)
    ensures |idx| <= |photos|
    ensures forall k :: 0 <= k < |idx| ==> idx[k] < |photos| && Captioned(photos[idx[k]])
    ensures forall k, l :: 0 <= k < l < |idx| ==> idx[k] < idx[l]
    ensures forall i :: 0 <= i < |photos| && Captioned(photos[i]) ==> i in idx
  {
    if photos == [] then []
    else
      var n := |photos| - 1;
      var prev := CaptionedIndices(photos[..n]);
      assert forall k :: 0 <= k < |prev| ==> photos[..n][prev[k]] == photos[prev[k]];
      assert forall i :: 0 <= i < n ==> photos[..n][i] == photos[i];
      if Captioned(photos[n]) then prev + [n] else prev
  }

  /** The photos sent to captioning, by index: each one an uploaded photo, in
      strictly increasing order. */
  ghost predicate SentInOrder(photos: seq<Photo>, calls: seq<nat>)
  {
    && (forall k :: 0 <= k < |calls| ==> calls[k] < |photos| && Uploaded(photos[calls[k]]))
    && (forall k, l :: 0 <= k < l < |calls| ==> calls[k] < calls[l])
  }

  // ---------------------------------------------------------------------------
  // Properties of the specification

  /** Once the loop has aborted, later photos change nothing: the exception
      skips the rest of the loop. */
  lemma {:induction false} AbortedStaysAborted(photos: seq<Photo>, k: nat)
    requires k <= |photos| && CaptionAll(photos[..k]).outcome.Aborted?
    ensures CaptionAll(photos) == CaptionAll(photos[..k])
    decreases |photos|
  {
    if k == |photos| {
      assert photos[..k] == photos;
    } else {
      var n := |photos| - 1;
      assert photos[..n][..k] == photos[..k];
      AbortedStaysAborted(photos[..n], k);
    }
  }

  /** Only uploaded photos are sent to captioning, each at most once and in
      photo order; when the loop completes, every uploaded photo was sent. */
  lemma {:induction false} CallsAreUploadedPhotos(photos: seq<Photo>)
    ensures SentInOrder(photos, CaptionAll(photos).calls)
    ensures CaptionAll(photos).outcome.Collected? ==>
              forall i :: 0 <= i < |photos| ==> (i in CaptionAll(photos).calls <==> Uploaded(photos[i]))
  {
    if photos != [] {
      var n := |photos| - 1;
      var prev := CaptionAll(photos[..n]).calls;
      CallsAreUploadedPhotos(photos[..n]);
      assert forall i :: 0 <= i < n ==> photos[..n][i] == photos[i];
      assert forall k :: 0 <= k < |prev| ==> prev[k] < n;
    }
  }

  /** A photo without a filename is never sent to captioning. */
  lemma SkippedPhotoNeverCaptioned(photos: seq<Photo>, i: nat)
    requires i < |photos| && !Uploaded(photos[i])
    ensures i !in CaptionAll(photos).calls
  {
    CallsAreUploadedPhotos(photos);
  }

  /** When the loop completes, entry k of the list is the first caption of the
      k-th captioned photo: one entry per captioned photo, in photo order. */
  lemma {:induction false} CaptionsFollowPhotos(photos: seq<Photo>)
    requires CaptionAll(photos).outcome.Collected?
    ensures var d := CaptionAll(photos).outcome.descriptions;
      var idx := CaptionedIndices(photos);
      && |d| == |idx|
      && forall k :: 0 <= k < |d| ==> d[k] == photos[idx[k]].analysis.captions[0]
  {
    if photos != [] {
      var n := |photos| - 1;
      assert CaptionAll(photos[..n]).outcome.Collected?;
      CaptionsFollowPhotos(photos[..n]);
      var prevIdx := CaptionedIndices(photos[..n]);
      assert forall k :: 0 <= k < |prevIdx| ==> photos[..n][prevIdx[k]] == photos[prevIdx[k]];
    }
  }

  /** Bounds on the list: at most one entry per photo, and none without photos. */
  lemma CaptionCount(photos: seq<Photo>)
    requires CaptionAll(photos).outcome.Collected?
    ensures |CaptionAll(photos).outcome.descriptions| == |CaptionedIndices(photos)| <= |photos|
    ensures photos == [] ==> CaptionAll(photos).outcome.descriptions == []
  {
    CaptionsFollowPhotos(photos);
  }

  /** The loop aborts exactly when some uploaded photo's captioning raises. */
  lemma {:induction false} AbortedIffSomePhotoFails(photos: seq<Photo>)
    ensures CaptionAll(photos).outcome.Aborted? <==> exists i :: 0 <= i < |photos| && Fails(photos[i])
  {
    if photos != [] {
      var n := |photos| - 1;
      AbortedIffSomePhotoFails(photos[..n]);
      if exists i :: 0 <= i < n && Fails(photos[..n][i]) {
        var i :| 0 <= i < n && Fails(photos[..n][i]);
        assert Fails(photos[i]);
      }
      if exists i :: 0 <= i < |photos| && Fails(photos[i]) {
        var i :| 0 <= i < |photos| && Fails(photos[i]);
        if i < n {
          assert Fails(photos[..n][i]);
        }
      }
    }
  }

  /** The exception that ends the loop is the first failing photo's; every
      uploaded photo up to it, and no later one, was sent to captioning, the
      failing photo last. */
  lemma {:induction false} AbortsAtFirstFailure(photos: seq<Photo>, i: nat)
    requires i < |photos| && Fails(photos[i])
    requires forall j :: 0 <= j < i ==> !Fails(photos[j])
    ensures CaptionAll(photos).outcome == Aborted(photos[i].analysis.message)
    ensures |CaptionAll(photos).calls| > 0 && CaptionAll(photos).calls[|CaptionAll(photos).calls| - 1] == i
    ensures forall j :: 0 <= j < |photos| ==> (j in CaptionAll(photos).calls <==> j <= i && Uploaded(photos[j]))
  {
    var pre := photos[..i];
    assert forall j :: 0 <= j < |pre| ==> pre[j] == photos[j];
    AbortedIffSomePhotoFails(pre);
    CallsAreUploadedPhotos(pre);
    assert photos[..i + 1][..i] == pre;
    AbortedStaysAborted(photos, i + 1);
  }

  // ---------------------------------------------------------------------------
  // The loop

  /** The caption loop.  The indices of the photos sent to captioning are
      returned as a ghost value: the source keeps no such list. */
  method CollectCaptions(photos: seq<Photo>) returns (outcome: Captioning, ghost calls: seq<nat>)
    ensures outcome == CaptionAll(photos).outcome
    ensures calls == CaptionAll(photos).calls
  {
    var descriptions: seq<string> := [];
    calls := [];
    for i := 0 to |photos|
      invariant CaptionAll(photos[..i]) == CaptionPass(calls, Collected(descriptions))
    {
      assert photos[..i + 1][..i] == photos[..i];
      var photo := photos[i];
      if photo.filename != "" {
        calls := calls + [i];
        match photo.analysis {
          case Raised(m) =>
            AbortedStaysAborted(photos, i + 1);
            return Aborted(m), calls;
          case Described(cs) =>
            if |cs| > 0 {
              descriptions := descriptions + [cs[0]];
            }
        }
      }
    }
    assert photos[..|photos|] == photos;
    outcome := Collected(descriptions);
  }
}
