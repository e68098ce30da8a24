/**
 * The drop-zone uploader: the dropped files, a progress percentage per
 * file, and an upload of every file in turn under a name rebuilt from
 * the text before the first dot and after the last dot of its own name.
 * Each awaited upload is a reply the caller supplies: the progress
 * events it reports, then its outcome.
 */
module FileUploader {
  import opened Common

  datatype File = File(name: string, size: nat)

  /** The record a successful upload returns. */
  datatype UploadedDoc = UploadedDoc(id: int, name: string)

  /** What the upload call is given besides the file itself. */
  datatype UploadCall = UploadCall(folderId: int, docname: string, origfilename: string)

  /** Bytes sent so far and the total size the transport reports. */
  datatype ProgressEvent = ProgressEvent(loaded: nat, total: nat)

  /** A stored percentage: a whole number, or the `NaN`/`Infinity` that
      dividing by a zero total gives. */
  datatype Percent = Finite(n: int) | NonFinite

  /** One awaited upload: the progress it reports, then how it ends. */
  datatype UploadReply = UploadReply(events: seq<ProgressEvent>, outcome: Call<ApiResponse<UploadedDoc>>)

  const SelectFilesMessage: string := "Please select files to upload."
  const UploadErrorMessage: string := "Error occurred during upload."

  // ---------------------------------------------------------------------
  // The document name
  // ---------------------------------------------------------------------

  /** `${name.split('.')[0]}.${name.split('.').pop()}`: a name without a
      dot is doubled around one, and a name with a dot never grows, since
      the first and the last piece do not overlap. */
  function CustomFileName(name: string): (r: string)
    ensures '.' !in name ==> r == name + "." + name
    ensures '.' in name ==> |r| <= |name|
  {
    var parts := Split(name, ".");
    assert "." == ['.'];
    FirstPieceBeforeFirstSep(name, '.');
    LastPieceAfterLastSep(name, '.');
    if '.' in name then
      PiecesDisjoint(name, parts[0], Last(parts));
      parts[0] + "." + Last(parts)
    else
      parts[0] + "." + Last(parts)
  }

  /** A prefix and a suffix of `name` that hold no dot, where the prefix
      is followed by a dot, leave room for that dot between them. */
  lemma PiecesDisjoint(name: string, first: string, ext: string)
    requires '.' in name && '.' !in first && '.' !in ext
    requires |first| <= |name| && name[..|first|] == first && (|first| < |name| ==> name[|first|] == '.')
    requires |ext| <= |name| && name[|name| - |ext|..] == ext
    ensures |first| + 1 + |ext| <= |name|
  {
    var i :| 0 <= i < |name| && name[i] == '.';
    assert forall p :: 0 <= p < |first| ==> name[p] == first[p];
    assert i >= |first|;
    assert forall p :: |name| - |ext| <= p < |name| ==> name[p] == ext[p - (|name| - |ext|)];
    assert name[|first|] == '.';
  }

  /** The document name is the text before the first dot, a dot, and the
      text after the last dot; a name without a dot is doubled around a
      dot. */
  lemma CustomFileNameParts(name: string)
    ensures exists first, ext ::
      CustomFileName(name) == first + "." + ext
      && '.' !in first && '.' !in ext
      && |first| <= |name| && name[..|first|] == first && (|first| < |name| ==> name[|first|] == '.')
      && |ext| <= |name| && name[|name| - |ext|..] == ext && (|ext| < |name| ==> name[|name| - |ext| - 1] == '.')
    ensures '.' !in name ==> CustomFileName(name) == name + "." + name
  {
    FirstPieceBeforeFirstSep(name, '.');
    LastPieceAfterLastSep(name, '.');
    var parts := Split(name, ".");
    assert "." == ['.'];
    var first, ext := parts[0], Last(parts);
    assert CustomFileName(name) == first + "." + ext;
  }

  /** The middle parts of a name are dropped, and a name without a dot is
      doubled. */
  lemma CustomFileNameExamples()
    ensures CustomFileName("a.b.c") == "a.c"
    ensures CustomFileName("x") == "x.x"
    ensures CustomFileName(".c") == ".c"
  {
    assert "x"[0] == 'x';
    MiddlePieceDropped();
    LeadingDotKept();
  }

  lemma MiddlePieceDropped()
    ensures CustomFileName("a.b.c") == "a.c"
  {
    SplitWithoutSep("c", ".", 0);
    SplitAtSep("c", ".");
    assert "b.c" == ['b'] + ".c";
    SplitSkip('b', ".c", ".");
    SplitAtSep("b.c", ".");
    assert "a.b.c" == ['a'] + ".b.c";
    SplitSkip('a', ".b.c", ".");
  }

  lemma LeadingDotKept()
    ensures CustomFileName(".c") == ".c"
  {
    SplitWithoutSep("c", ".", 0);
    SplitAtSep("c", ".");
  }

  // ---------------------------------------------------------------------
  // Progress
  // ---------------------------------------------------------------------

  /** `Math.round(loaded * 100 / total)`: the whole number nearest to the
      percentage, halves rounded up; a zero total gives no number. */
  function PercentCompleted(e: ProgressEvent): (p: Percent)
    ensures p.NonFinite? <==> e.total == 0
  {
    if e.total == 0 then NonFinite
    else Finite((200 * e.loaded + e.total) / (2 * e.total))
  }

  /** The number reported is the one nearest to `100 * loaded / total`,
      a half rounded up: `n - 1/2 <= 100 * loaded / total < n + 1/2`. */
  lemma PercentRoundsHalfUp(e: ProgressEvent)
    requires e.total > 0
    ensures 2 * PercentCompleted(e).n * e.total <= 200 * e.loaded + e.total < 2 * PercentCompleted(e).n * e.total + 2 * e.total
  {
    var t := 2 * e.total;
    var a := 200 * e.loaded + e.total;
    var n := a / t;
    assert a == n * t + a % t && 0 <= a % t < t;
    assert 2 * n * e.total == n * t;
  }

  /** A percentage of a transfer that has not overshot its total lies
      between 0 and 100, and a finished one is 100. */
  lemma PercentBounds(e: ProgressEvent)
    requires e.total > 0 && e.loaded <= e.total
    ensures 0 <= PercentCompleted(e).n <= 100
    ensures e.loaded == e.total ==> PercentCompleted(e).n == 100
  {
    PercentRoundsHalfUp(e);
    var n, t, l := PercentCompleted(e).n, e.total, e.loaded;
    MulMonotone(t, l, 200);
    assert (2 * n) * t <= 201 * t;
    MulCancel(2 * n, 201, t);
    assert 1 * t < (2 * n + 2) * t;
    MulCancel(2 * n + 2, 1, t);
    if l == t {
      assert 201 * t < (2 * n + 2) * t;
      MulCancel(2 * n + 2, 201, t);
    }
  }

  lemma MulMonotone(a: int, b: int, t: nat)
    requires a >= b
    ensures a * t >= b * t
  {
  }

  lemma MulCancel(a: int, b: int, t: int)
    requires t > 0
    ensures a * t <= b * t ==> a <= b
    ensures a * t > b * t ==> a > b
  {
    if a > b {
      assert a * t - b * t == (a - b) * t;
    }
  }

  /** The progress list after the events of the upload of file `i`: each
      event overwrites entry `i`, so the last one is what remains. */
  function ProgressAfter(progress: seq<Percent>, i: nat, events: seq<ProgressEvent>): seq<Percent>
    requires i < |progress|
  {
    if events == [] then progress else progress[i := PercentCompleted(Last(events))]
  }

  /** The progress list after the uploads of the first `n` files. */
  function ProgressAfterUploads(progress: seq<Percent>, replies: nat -> UploadReply, n: nat): (r: seq<Percent>)
    requires n <= |progress|
    ensures |r| == |progress|
  {
    if n == 0 then progress
    else ProgressAfter(ProgressAfterUploads(progress, replies, n - 1), n - 1, replies(n - 1).events)
  }

  /** After `n` uploads, the entry of each of the first `n` files holds the
      percentage of its last progress event (unchanged if it reported
      none), and every later entry is untouched. */
  lemma {:induction false} ProgressAfterUploadsEntries(progress: seq<Percent>, replies: nat -> UploadReply, n: nat)
    requires n <= |progress|
    ensures forall j :: 0 <= j < |progress| ==>
      ProgressAfterUploads(progress, replies, n)[j] ==
        if j < n && replies(j).events != [] then PercentCompleted(Last(replies(j).events)) else progress[j]
  {
    if n > 0 {
      ProgressAfterUploadsEntries(progress, replies, n - 1);
    }
  }

  // ---------------------------------------------------------------------
  // Results and the message
  // ---------------------------------------------------------------------

  predicate Succeeded(reply: UploadReply) {
    reply.outcome.Returned? && reply.outcome.value.success
  }

  /** `uploadedResults` after the first `n` uploads: the `data` of each one
      that answered with `success`, in order. */
  function Collected(replies: nat -> UploadReply, n: nat): seq<Option<UploadedDoc>> {
    if n == 0 then []
    else
      var front := Collected(replies, n - 1);
      if Succeeded(replies(n - 1)) then front + [replies(n - 1).outcome.value.data] else front
  }

  /** How many of the first `n` uploads succeeded. */
  function SuccessCount(replies: nat -> UploadReply, n: nat): nat {
    if n == 0 then 0
    else SuccessCount(replies, n - 1) + (if Succeeded(replies(n - 1)) then 1 else 0)
  }

  /** The results are exactly the data of the uploads that succeeded, in
      file order: one entry per success, and the data of upload `j` sits
      after those of the successes before it. */
  lemma {:induction false} CollectedBounds(replies: nat -> UploadReply, n: nat)
    ensures |Collected(replies, n)| == SuccessCount(replies, n) <= n
    ensures forall j :: 0 <= j < n && Succeeded(replies(j)) ==>
      SuccessCount(replies, j) < |Collected(replies, n)|
      && Collected(replies, n)[SuccessCount(replies, j)] == replies(j).outcome.value.data
    ensures (forall k :: 0 <= k < n ==> Succeeded(replies(k))) ==>
      |Collected(replies, n)| == n
      && forall k :: 0 <= k < n ==> Collected(replies, n)[k] == replies(k).outcome.value.data
    ensures (forall k :: 0 <= k < n ==> !Succeeded(replies(k))) ==> Collected(replies, n) == []
  {
    if n > 0 {
      CollectedBounds(replies, n - 1);
      var front := Collected(replies, n - 1);
      forall j | 0 <= j < n && Succeeded(replies(j))
        ensures SuccessCount(replies, j) < |Collected(replies, n)|
        ensures Collected(replies, n)[SuccessCount(replies, j)] == replies(j).outcome.value.data
      {
        if j < n - 1 {
          assert Collected(replies, n)[SuccessCount(replies, j)] == front[SuccessCount(replies, j)];
        }
      }
      if forall k :: 0 <= k < n ==> Succeeded(replies(k)) {
        AllSucceededCount(replies, n);
      }
    }
  }

  /** When every upload succeeds, the `j`th success is upload `j`. */
  lemma {:induction false} AllSucceededCount(replies: nat -> UploadReply, n: nat)
    requires forall k :: 0 <= k < n ==> Succeeded(replies(k))
    ensures forall j :: 0 <= j <= n ==> SuccessCount(replies, j) == j
  {
    if n > 0 {
      AllSucceededCount(replies, n - 1);
    }
  }

  /** The message an upload leaves: the reply's own message whether or not
      it succeeded, or the error text when it threw. */
  function MessageOf(reply: UploadReply): string {
    match reply.outcome
    case Returned(r) => r.message
    case Threw => UploadErrorMessage
  }

  /** The call that uploads `file` into folder `folderId`. */
  function CallFor(folderId: int, file: File): UploadCall {
    UploadCall(folderId, CustomFileName(file.name), file.name)
  }

  /** The upload calls for `files`, one per file in order. */
  function UploadCalls(folderId: int, files: seq<File>): (r: seq<UploadCall>)
    ensures |r| == |files|
  {
    if files == [] then []
    else
      UploadCalls(folderId, files[..|files| - 1]) + [CallFor(folderId, Last(files))]
  }

  /** The `k`th call uploads the `k`th file under its custom name, with
      the original name alongside. */
  lemma {:induction false} UploadCallsEntries(folderId: int, files: seq<File>)
    ensures forall k :: 0 <= k < |files| ==>
      UploadCalls(folderId, files)[k] == UploadCall(folderId, CustomFileName(files[k].name), files[k].name)
  {
    if files != [] {
      var front := files[..|files| - 1];
      UploadCallsEntries(folderId, front);
      assert forall k :: 0 <= k < |front| ==> front[k] == files[k];
    }
  }

  /** The calls of the first `i + 1` files extend those of the first `i`,
      after any calls issued before. */
  lemma UploadCallsStep(before: seq<UploadCall>, folderId: int, files: seq<File>, i: nat)
    requires i < |files|
    ensures before + UploadCalls(folderId, files[..i + 1]) ==
      before + UploadCalls(folderId, files[..i]) + [CallFor(folderId, files[i])]
  {
    assert files[..i + 1][..i] == files[..i];
  }

  // ---------------------------------------------------------------------
  // The component
  // ---------------------------------------------------------------------

  class Uploader {
    const folderId: int
    var files: seq<File>
    var uploadMessage: Option<string>
    var uploadedData: Option<seq<Option<UploadedDoc>>>
    var uploadProgress: seq<Percent>
    /** The upload calls issued so far, in order. */
    var uploads: seq<UploadCall>

    /** Dropped files always come with one progress entry each; clearing
        empties the files only. */
    ghost predicate Valid()
      reads this
    {
      files == [] || |files| == |uploadProgress|
    }

    constructor (folderId: int)
      ensures Valid()
      ensures this.folderId == folderId
      ensures files == [] && uploadProgress == [] && uploads == []
      ensures uploadMessage == None && uploadedData == None
    {
      this.folderId := folderId;
      files := [];
      uploadMessage := None;
      uploadedData := None;
      uploadProgress := [];
      uploads := [];
    }

    /** `onDrop`: the dropped files replace the selection and every
        progress entry restarts at 0. */
    method OnDrop(accepted: seq<File>)
      modifies this
      ensures Valid()
      ensures files == accepted
      ensures |uploadProgress| == |accepted| && forall k :: 0 <= k < |accepted| ==> uploadProgress[k] == Finite(0)
      ensures uploadMessage == old(uploadMessage) && uploadedData == old(uploadedData) && uploads == old(uploads)
    {
      files := accepted;
      uploadProgress := seq(|accepted|, _ => Finite(0));
    }

    /** Clear Files: only the selection is emptied. */
    method ClearFiles()
      modifies this
      ensures Valid()
      ensures files == []
      ensures uploadProgress == old(uploadProgress) && uploadMessage == old(uploadMessage)
      ensures uploadedData == old(uploadedData) && uploads == old(uploads)
    {
      files := [];
    }

    /** The progress callback of the upload of file `i`, event by event. */
    method ReportProgress(i: nat, events: seq<ProgressEvent>)
      requires i < |uploadProgress|
      modifies this
      ensures uploadProgress == ProgressAfter(old(uploadProgress), i, events)
      ensures files == old(files) && uploadMessage == old(uploadMessage)
      ensures uploadedData == old(uploadedData) && uploads == old(uploads)
    {
      for k := 0 to |events|
        invariant |uploadProgress| == |old(uploadProgress)|
        invariant uploadProgress == ProgressAfter(old(uploadProgress), i, events[..k])
        invariant files == old(files) && uploadMessage == old(uploadMessage)
        invariant uploadedData == old(uploadedData) && uploads == old(uploads)
      {
        uploadProgress := uploadProgress[i := PercentCompleted(events[k])];
        assert Last(events[..k + 1]) == events[k];
      }
      assert events[..|events|] == events;
    }

    /** One pass of the loop, the `try` block for file `i`: the upload
        under the custom name, its progress callbacks, then the reply's
        data pushed onto `results` on success and the message set from
        the reply or, when the call threw, the error text. */
    method UploadFile(i: nat, reply: UploadReply, results: seq<Option<UploadedDoc>>)
      returns (pushed: seq<Option<UploadedDoc>>)
      requires i < |files| && i < |uploadProgress|
      modifies this
      ensures files == old(files) && uploadedData == old(uploadedData)
      ensures pushed == if Succeeded(reply) then results + [reply.outcome.value.data] else results
      ensures uploads == old(uploads) + [CallFor(folderId, files[i])]
      ensures uploadProgress == ProgressAfter(old(uploadProgress), i, reply.events)
      ensures uploadMessage == Some(MessageOf(reply))
    {
      var file := files[i];
      uploads := uploads + [UploadCall(folderId, CustomFileName(file.name), file.name)];
      ReportProgress(i, reply.events);
      pushed := results;
      if reply.outcome.Returned? {
        var result := reply.outcome.value;
        if result.success {
          pushed := pushed + [result.data];
        }
        uploadMessage := Some(result.message);
      } else {
        uploadMessage := Some(UploadErrorMessage);
      }
    }

    /** `handleUpload`: with nothing selected only the prompt is shown.
        Otherwise every file is uploaded in turn under its custom name;
        the message follows the last upload, the collected data are those
        of the uploads that succeeded, and the progress entry of each file
        holds its last reported percentage. */
    method HandleUpload(replies: nat -> UploadReply)
      requires Valid()
      modifies this
      ensures Valid()
      ensures files == old(files)
      ensures old(files) == [] ==> uploadMessage == Some(SelectFilesMessage) && uploads == old(uploads)
      ensures old(files) == [] ==> uploadedData == old(uploadedData) && uploadProgress == old(uploadProgress)
      ensures old(files) != [] ==> uploads == old(uploads) + UploadCalls(folderId, files)
      ensures old(files) != [] ==> uploadedData == Some(Collected(replies, |files|))
      ensures old(files) != [] ==> uploadMessage == Some(MessageOf(replies(|files| - 1)))
      ensures old(files) != [] ==> uploadProgress == ProgressAfterUploads(old(uploadProgress), replies, |files|)
    {
      if files == [] {
        uploadMessage := Some(SelectFilesMessage);
        return;
      }
      uploadMessage := None;
      var results: seq<Option<UploadedDoc>> := [];
      ghost var calls0, progress0 := uploads, uploadProgress;
      for i := 0 to |files|
        invariant files == old(files) && |uploadProgress| == |files|
        invariant uploads == calls0 + UploadCalls(folderId, files[..i])
        invariant results == Collected(replies, i)
        invariant uploadMessage == (if i == 0 then None else Some(MessageOf(replies(i - 1))))
        invariant uploadProgress == ProgressAfterUploads(progress0, replies, i)
        invariant uploadedData == old(uploadedData)
      {
        results := UploadFile(i, replies(i), results);
        UploadCallsStep(calls0, folderId, files, i);
      }
      assert files[..|files|] == files;
      uploadedData := Some(results);
    }
  }
}
