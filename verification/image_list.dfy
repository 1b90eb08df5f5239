/** The image list shared by the product form and the two crop-photo pages
    (client/src/components/AddNewProduct.jsx, client/src/pages/PhotoUpload.jsx and
    client/src/components/UploadPhoto.jsx carry the same `handleFiles` and the same
    remove-by-index). Also the photo page's submit guard and multipart request. */
module ImageList {

  /** A browser `File`, reduced to what the handlers read. */
  datatype File = File(name: string, mimeType: string, size: nat)

  /** The 10 MiB limit per image. */
  const MaxImageBytes: nat := 10 * 1024 * 1024

  predicate IsImageType(f: File) {
    f.mimeType == "image/jpeg" || f.mimeType == "image/png" || f.mimeType == "image/webp"
  }

  predicate WithinSizeLimit(f: File) {
    f.size <= MaxImageBytes
  }

  /** The acceptance predicate: a JPEG, PNG or WebP of at most 10 MiB. */
  predicate Accepted(f: File) {
    IsImageType(f) && WithinSizeLimit(f)
  }

  /** `Array.prototype.filter` with a pure predicate. */
  function Filter(p: File -> bool, s: seq<File>): (r: seq<File>)
    ensures |r| <= |s|
    ensures forall f :: f in r <==> f in s && p(f)
    decreases |s|
  {
    if |s| == 0 then []
    else (if p(s[0]) then [s[0]] else []) + Filter(p, s[1..])
  }

  /** Filtering a concatenation filters each part. */
  lemma {:induction false} FilterConcat(p: File -> bool, a: seq<File>, b: seq<File>)
    ensures Filter(p, a + b) == Filter(p, a) + Filter(p, b)
    decreases |a|
  {
    if |a| == 0 {
      assert a + b == b;
    } else {
      var head := if p(a[0]) then [a[0]] else [];
      assert (a + b)[0] == a[0];
      assert (a + b)[1..] == a[1..] + b;
      FilterConcat(p, a[1..], b);
      assert Filter(p, a + b) == head + (Filter(p, a[1..]) + Filter(p, b));
      assert head + (Filter(p, a[1..]) + Filter(p, b)) == (head + Filter(p, a[1..])) + Filter(p, b);
    }
  }

  /** A list whose every element passes is left as it is. */
  lemma {:induction false} FilterAllPass(p: File -> bool, s: seq<File>)
    requires forall i :: 0 <= i < |s| ==> p(s[i])
    ensures Filter(p, s) == s
    decreases |s|
  {
    if |s| > 0 {
      FilterAllPass(p, s[1..]);
    }
  }

  /** A list none of whose elements passes filters to nothing. */
  lemma {:induction false} FilterNonePass(p: File -> bool, s: seq<File>)
    requires forall i :: 0 <= i < |s| ==> !p(s[i])
    ensures Filter(p, s) == []
    decreases |s|
  {
    if |s| > 0 {
      FilterNonePass(p, s[1..]);
    }
  }

  /** The two filters in a row (type, then size) are one filter with `Accepted`. */
  lemma {:induction false} TwoStageFilter(files: seq<File>)
    ensures Filter(WithinSizeLimit, Filter(IsImageType, files)) == Filter(Accepted, files)
    decreases |files|
  {
    if |files| > 0 {
      var head := if IsImageType(files[0]) then [files[0]] else [];
      TwoStageFilter(files[1..]);
      assert Filter(IsImageType, files) == head + Filter(IsImageType, files[1..]);
      FilterConcat(WithinSizeLimit, head, Filter(IsImageType, files[1..]));
      if IsImageType(files[0]) {
        assert Filter(WithinSizeLimit, head) == if WithinSizeLimit(files[0]) then [files[0]] else [];
      }
    }
  }

  /** Every stored image passes the acceptance predicate. */
  predicate AllAccepted(list: seq<File>) {
    forall i :: 0 <= i < |list| ==> Accepted(list[i])
  }

  /** `handleFiles(files)`: the accepted files are appended, in input order; when none
      is accepted the state is not touched. */
  function HandleFiles(list: seq<File>, files: seq<File>): (r: seq<File>)
    ensures r == list + Filter(Accepted, files)
  {
    var validFiles := Filter(WithinSizeLimit, Filter(IsImageType, files));
    TwoStageFilter(files);
    if |validFiles| > 0 then list + validFiles else list
  }

  /** When no file is accepted the list is unchanged. */
  lemma NothingAcceptedNothingAdded(list: seq<File>, files: seq<File>)
    requires forall i :: 0 <= i < |files| ==> !Accepted(files[i])
    ensures HandleFiles(list, files) == list
  {
    FilterNonePass(Accepted, files);
  }

  /** `handleDrop`: a non-empty drop passes its files to `handleFiles`; the dragging
      flag it clears is not modelled. The guard changes nothing, because an empty
      batch adds nothing: dropping is exactly handling the files. */
  function HandleDrop(list: seq<File>, dropped: seq<File>): (r: seq<File>)
    ensures r == HandleFiles(list, dropped)
    ensures |dropped| == 0 ==> r == list
  {
    if |dropped| > 0 then HandleFiles(list, dropped) else list
  }

  /** `prev.filter((_, i) => i !== index)`: keeps every position but `index`. */
  function RemoveAt(list: seq<File>, index: int): (r: seq<File>)
    ensures |r| == if 0 <= index < |list| then |list| - 1 else |list|
    decreases |list|
  {
    if |list| == 0 then []
    else (if index == 0 then [] else [list[0]]) + RemoveAt(list[1..], index - 1)
  }

  /** Removing position `i` deletes exactly that element, the others keep their
      order; an index outside the list removes nothing. */
  lemma {:induction false} RemoveAtDeletesOne(list: seq<File>, index: int)
    ensures 0 <= index < |list| ==> RemoveAt(list, index) == list[..index] + list[index + 1..]
    ensures !(0 <= index < |list|) ==> RemoveAt(list, index) == list
    decreases |list|
  {
    if |list| > 0 {
      RemoveAtDeletesOne(list[1..], index - 1);
      if index == 0 {
        assert list[index + 1..] == list[1..];
      } else if 0 < index < |list| {
        assert list[1..][..index - 1] == list[1..index];
        assert list[1..][index..] == list[index + 1..];
        assert [list[0]] + list[1..index] == list[..index];
      } else {
        assert [list[0]] + list[1..] == list;
      }
    }
  }

  /** Both operations keep every stored image accepted. */
  lemma HandleFilesKeepsInvariant(list: seq<File>, files: seq<File>)
    requires AllAccepted(list)
    ensures AllAccepted(HandleFiles(list, files))
  {
    var r := HandleFiles(list, files);
    forall i | 0 <= i < |r|
      ensures Accepted(r[i])
    {
      if i >= |list| {
        assert r[i] in Filter(Accepted, files);
      }
    }
  }

  lemma RemoveAtKeepsInvariant(list: seq<File>, index: int)
    requires AllAccepted(list)
    ensures AllAccepted(RemoveAt(list, index))
  {
    RemoveAtDeletesOne(list, index);
    var r := RemoveAt(list, index);
    forall i | 0 <= i < |r|
      ensures Accepted(r[i])
    {
      if 0 <= index < |list| && i >= index {
        assert r[i] == list[i + 1];
      }
    }
  }

  /** Adding files that are all accepted appends them unchanged. */
  lemma HandleAcceptedFiles(list: seq<File>, files: seq<File>)
    requires AllAccepted(files)
    ensures HandleFiles(list, files) == list + files
  {
    FilterAllPass(Accepted, files);
  }

  /** Two batches handled one after the other give the same list as one batch. */
  lemma HandleFilesBatches(list: seq<File>, a: seq<File>, b: seq<File>)
    ensures HandleFiles(HandleFiles(list, a), b) == HandleFiles(list, a + b)
  {
    var fa, fb := Filter(Accepted, a), Filter(Accepted, b);
    FilterConcat(Accepted, a, b);
    var mid := HandleFiles(list, a);
    assert mid == list + fa;
    assert HandleFiles(mid, b) == mid + fb;
    assert HandleFiles(list, a + b) == list + (fa + fb);
    assert (list + fa) + fb == list + (fa + fb);
  }

  // ---------------------------------------------------------------------------
  // The photo page's submit (client/src/pages/PhotoUpload.jsx, `handleSubmit`)

  const EmptyListAlert: string := "Please upload at least one image before analyzing."
  const UploadFailedAlert: string := "Failed to upload images. Please try again."
  const ResultRoute: string := "/photo-result"

  /** One multipart entry `formData.append(name, file)`. */
  datatype Part = Part(fieldName: string, file: File)

  /** The request body: one `"file"` part per stored image, in list order. */
  function MultipartBody(list: seq<File>): (parts: seq<Part>)
    ensures |parts| == |list|
    ensures forall i :: 0 <= i < |parts| ==> parts[i].fieldName == "file" && parts[i].file == list[i]
  {
    seq(|list|, i requires 0 <= i < |list| => Part("file", list[i]))
  }

  /** How the upload ended: `fetch` or `json()` threw, or a body with its `result`. */
  datatype UploadOutcome<R> = UploadThrew | UploadReplied(result: R)

  /** What the submit did: alerted before any request, or sent the request and then
      either alerted or navigated to the result page with `data.result`. */
  datatype SubmitEffect<R> =
    | RejectedEmpty(alert: string)
    | Sent(body: seq<Part>, alertText: string)
    | SentAndShown(body: seq<Part>, route: string, resultData: R)

  function SubmitPhotos<R>(list: seq<File>, outcome: UploadOutcome<R>): (e: SubmitEffect<R>)
    ensures e.RejectedEmpty? <==> |list| == 0
    ensures e.RejectedEmpty? ==> e.alert == EmptyListAlert
    ensures e.Sent? <==> |list| > 0 && outcome.UploadThrew?
    ensures e.Sent? ==> e.body == MultipartBody(list) && e.alertText == UploadFailedAlert
    ensures e.SentAndShown? ==>
              e.body == MultipartBody(list) && e.route == ResultRoute && e.resultData == outcome.result
  {
    if |list| == 0 then RejectedEmpty(EmptyListAlert)
    else match outcome
      case UploadThrew => Sent(MultipartBody(list), UploadFailedAlert)
      case UploadReplied(result) => SentAndShown(MultipartBody(list), ResultRoute, result)
  }

  /** With the list invariant kept by adding and removing, every image a submit sends
      is a JPEG, PNG or WebP of at most 10 MiB. */
  lemma SubmitSendsOnlyAccepted<R>(list: seq<File>, outcome: UploadOutcome<R>)
    requires AllAccepted(list)
    ensures var e := SubmitPhotos(list, outcome);
            !e.RejectedEmpty? ==> forall i :: 0 <= i < |e.body| ==> Accepted(e.body[i].file)
  {
  }

  /** The boundary size is accepted and one byte more is not. */
  lemma SizeBoundary(name: string)
    ensures Accepted(File(name, "image/png", MaxImageBytes))
    ensures !Accepted(File(name, "image/png", MaxImageBytes + 1))
  {
  }
}
