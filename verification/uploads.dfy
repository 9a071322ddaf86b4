/**
 * The image list of the product and post forms: at most five pictures, appended in the order
 * chosen, removable one at a time.
 */
module Uploads {
  import opened Wrappers
  import opened Seqs

  const MaxImages: nat := 5

  const TooManyImages: string := "You can upload a maximum of 5 images."

  /**
   * `handleImageChange`: a batch that would take the list past five is refused with an error
   * and the list is left alone; otherwise the decoded images are appended in selection order.
   */
  function AddImages(current: seq<string>, incoming: seq<string>): (r: Result<seq<string>, string>)
    ensures r.Success? <==> |incoming| + |current| <= MaxImages
    ensures r.Success? ==> |r.value| == |current| + |incoming| <= MaxImages
    ensures r.Success? ==> r.value[..|current|] == current && r.value[|current|..] == incoming
    ensures r.Failure? ==> r.error == TooManyImages
  {
    if |incoming| + |current| > MaxImages then Failure(TooManyImages)
    else Success(current + incoming)
  }

  /** The list the form shows after a batch: the new list, or the old one when the batch was refused. */
  function AfterBatch(current: seq<string>, incoming: seq<string>): (r: seq<string>)
    ensures |current| <= MaxImages ==> |r| <= MaxImages
    ensures |r| == |current| || |r| == |current| + |incoming|
  {
    match AddImages(current, incoming)
    case Success(v) => v
    case Failure(_) => current
  }

  /** `removeImage(index)`: drops the picture at `index`; any other index changes nothing. */
  function RemoveImage(current: seq<string>, index: int): (r: seq<string>)
    ensures 0 <= index < |current| ==> |r| == |current| - 1
    ensures 0 <= index < |current| ==> r[..index] == current[..index] && r[index..] == current[index + 1..]
    ensures !(0 <= index < |current|) ==> r == current
  {
    RemoveAt(current, index)
  }

  /** The edits a form sees: a batch of chosen files or a click on a picture's remove button. */
  datatype ImageEdit = Batch(files: seq<string>) | Remove(index: int)

  function ApplyEdit(current: seq<string>, e: ImageEdit): seq<string>
  {
    match e
    case Batch(files) => AfterBatch(current, files)
    case Remove(index) => RemoveImage(current, index)
  }

  function ApplyEdits(current: seq<string>, edits: seq<ImageEdit>): seq<string>
    decreases |edits|
  {
    if |edits| == 0 then current else ApplyEdits(ApplyEdit(current, edits[0]), edits[1..])
  }

  /** Starting from an empty or stored list of at most five, no sequence of edits exceeds five. */
  lemma {:induction false} EditsKeepCap(current: seq<string>, edits: seq<ImageEdit>)
    requires |current| <= MaxImages
    ensures |ApplyEdits(current, edits)| <= MaxImages
    decreases |edits|
  {
    if |edits| > 0 {
      var next := ApplyEdit(current, edits[0]);
      assert |next| <= MaxImages;
      EditsKeepCap(next, edits[1..]);
    }
  }

  /** Removing the picture just added restores the list. */
  lemma RemoveAfterAdd(current: seq<string>, image: string)
    requires |current| < MaxImages
    ensures AddImages(current, [image]).Success?
    ensures RemoveImage(AddImages(current, [image]).value, |current|) == current
  {
    assert (current + [image])[..|current|] == current;
  }

  // The upload as it runs: the check, the reading of the files, the append.

  /**
   * The form's images and the batches whose files are still being read. The handler checks the
   * cap against the images shown when the files are chosen, awaits the reading of the whole
   * batch, and only then appends it to the list as it stands by then.
   */
  datatype UploadState = UploadState(images: seq<string>, reading: seq<seq<string>>)

  /** How many images the batches still being read hold. */
  function Pending(batches: seq<seq<string>>): nat
    decreases |batches|
  {
    if |batches| == 0 then 0 else |batches[0]| + Pending(batches[1..])
  }

  lemma {:induction false} PendingAppend(batches: seq<seq<string>>, b: seq<string>)
    ensures Pending(batches + [b]) == Pending(batches) + |b|
    decreases |batches|
  {
    if |batches| > 0 {
      assert (batches + [b])[1..] == batches[1..] + [b];
      PendingAppend(batches[1..], b);
    }
  }

  lemma {:induction false} PendingRemoveAt(batches: seq<seq<string>>, k: int)
    requires 0 <= k < |batches|
    ensures Pending(RemoveAt(batches, k)) + |batches[k]| == Pending(batches)
    decreases |batches|
  {
    var r := RemoveAt(batches, k);
    if k == 0 {
      assert r == batches[1..];
    } else {
      assert r == [batches[0]] + RemoveAt(batches[1..], k - 1);
      assert r[1..] == RemoveAt(batches[1..], k - 1);
      PendingRemoveAt(batches[1..], k - 1);
    }
  }

  /** What can happen to the form: files are chosen, a batch finishes reading, a picture is removed. */
  datatype UploadEvent = Chosen(files: seq<string>) | Read(k: int) | Removed(index: int)

  /**
   * Files chosen, as written: the cap is checked against the images shown, not counting the
   * batches still being read. A refused batch leaves the form alone; an accepted one starts reading.
   */
  function FilesChosen(s: UploadState, files: seq<string>): (r: (UploadState, Option<string>))
    ensures r.1.Some? <==> |files| + |s.images| > MaxImages
    ensures r.1.Some? ==> r.1.value == TooManyImages && r.0 == s
    ensures r.1.None? ==> r.0.images == s.images && r.0.reading == s.reading + [files]
  {
    if |files| + |s.images| > MaxImages then (s, Some(TooManyImages))
    else (s.(reading := s.reading + [files]), None)
  }

  /**
   * Batch `k` finishes reading and is appended to the list as it is now (`prev => [...prev, ...]`).
   * Batches finish in any order; an index naming no batch changes nothing.
   */
  function BatchRead(s: UploadState, k: int): (r: UploadState)
    ensures 0 <= k < |s.reading| ==>
      r.images == s.images + s.reading[k] && r.reading == RemoveAt(s.reading, k)
    ensures 0 <= k < |s.reading| ==> |r.images| + Pending(r.reading) == |s.images| + Pending(s.reading)
    ensures !(0 <= k < |s.reading|) ==> r == s
  {
    if 0 <= k < |s.reading| then
      PendingRemoveAt(s.reading, k);
      UploadState(s.images + s.reading[k], RemoveAt(s.reading, k))
    else s
  }

  function UploadStep(s: UploadState, e: UploadEvent): UploadState
  {
    match e
    case Chosen(files) => FilesChosen(s, files).0
    case Read(k) => BatchRead(s, k)
    case Removed(index) => s.(images := RemoveImage(s.images, index))
  }

  function UploadRun(s: UploadState, events: seq<UploadEvent>): UploadState
    decreases |events|
  {
    if |events| == 0 then s else UploadRun(UploadStep(s, events[0]), events[1..])
  }

  /**
   * One batch at a time: choosing files on a form with nothing being read, then letting them be
   * read, is the one-step `AddImages`/`AfterBatch` that the form handlers use.
   */
  lemma SettledBatchIsAfterBatch(images: seq<string>, files: seq<string>)
    ensures FilesChosen(UploadState(images, []), files).1.Some? <==> AddImages(images, files).Failure?
    ensures BatchRead(FilesChosen(UploadState(images, []), files).0, 0)
         == UploadState(AfterBatch(images, files), [])
  {
    var (t, err) := FilesChosen(UploadState(images, []), files);
    if err.None? {
      assert t.reading == [files];
      assert RemoveAt(t.reading, 0) == [];
    }
  }

  /**
   * As written: from an empty form, two batches of three chosen before either is read both pass
   * the check, and once both are read the list holds six pictures.
   */
  lemma OverlappingBatchesExceedCap(a: seq<string>, b: seq<string>)
    requires |a| == 3 && |b| == 3
    ensures UploadRun(UploadState([], []), [Chosen(a), Chosen(b), Read(0), Read(0)]).images == a + b
    ensures |UploadRun(UploadState([], []), [Chosen(a), Chosen(b), Read(0), Read(0)]).images| > MaxImages
  {
    var events := [Chosen(a), Chosen(b), Read(0), Read(0)];
    var s0 := UploadState([], []);
    var s1 := UploadStep(s0, events[0]);
    assert s1 == UploadState([], [a]);
    var s2 := UploadStep(s1, events[1]);
    assert s2 == UploadState([], [a, b]);
    var s3 := UploadStep(s2, events[2]);
    assert RemoveAt([a, b], 0) == [b];
    assert s3 == UploadState(a, [b]);
    var s4 := UploadStep(s3, events[3]);
    assert RemoveAt([b], 0) == [];
    assert s4 == UploadState(a + b, []);
    assert events[1..][1..][1..][1..] == [];
    assert UploadRun(s0, events) == UploadRun(s1, events[1..]) == UploadRun(s2, events[1..][1..]);
    assert UploadRun(s2, events[1..][1..]) == UploadRun(s3, events[1..][1..][1..]) == UploadRun(s4, []);
  }

  // The corrected upload: the check counts the batches still being read.

  /** The shown images and those still being read stay within the cap. */
  predicate CapHeld(s: UploadState)
  {
    |s.images| + Pending(s.reading) <= MaxImages
  }

  /** Files chosen, counting the pictures of batches still being read against the cap. */
  function FilesChosenIntended(s: UploadState, files: seq<string>): (r: (UploadState, Option<string>))
    ensures r.1.Some? <==> |files| + |s.images| + Pending(s.reading) > MaxImages
    ensures r.1.Some? ==> r.1.value == TooManyImages && r.0 == s
    ensures r.1.None? ==> r.0.images == s.images && r.0.reading == s.reading + [files]
    ensures |s.reading| == 0 ==> r == FilesChosen(s, files)
  {
    if |files| + |s.images| + Pending(s.reading) > MaxImages then (s, Some(TooManyImages))
    else (s.(reading := s.reading + [files]), None)
  }

  function UploadStepIntended(s: UploadState, e: UploadEvent): UploadState
  {
    match e
    case Chosen(files) => FilesChosenIntended(s, files).0
    case _ => UploadStep(s, e)
  }

  function UploadRunIntended(s: UploadState, events: seq<UploadEvent>): UploadState
    decreases |events|
  {
    if |events| == 0 then s else UploadRunIntended(UploadStepIntended(s, events[0]), events[1..])
  }

  lemma UploadStepIntendedKeepsCap(s: UploadState, e: UploadEvent)
    requires CapHeld(s)
    ensures CapHeld(UploadStepIntended(s, e))
  {
    match e
    case Chosen(files) =>
      PendingAppend(s.reading, files);
    case Read(k) =>
    case Removed(index) =>
  }

  /** With the corrected check, overlapping batches or not, the list never holds more than five. */
  lemma {:induction false} UploadRunIntendedKeepsCap(s: UploadState, events: seq<UploadEvent>)
    requires CapHeld(s)
    ensures CapHeld(UploadRunIntended(s, events))
    ensures |UploadRunIntended(s, events).images| <= MaxImages
    decreases |events|
  {
    if |events| > 0 {
      UploadStepIntendedKeepsCap(s, events[0]);
      UploadRunIntendedKeepsCap(UploadStepIntended(s, events[0]), events[1..]);
    }
  }
}

