/** The special-lecture list manager (`useLectureData`). */
module Lectures {
  import opened Wrappers
  import opened Strings
  import opened JsValues
  import opened Sequences
  import opened Catalog
  import opened ImageFiles

  /** `LECTURE_IMAGE_BASE_URL`: the same `exh/` folder the exhibitions use. */
  const LectureImageBaseUrl := "https://" + RawHost + "/youngsungallery/IMG_DB/main/youngsungallery/exh/"

  lemma LectureBaseIsRaw()
    ensures RawImageBase(LectureImageBaseUrl)
  {
    var owner, path := "/youngsungallery/IMG_DB/main/", "youngsungallery/exh/";
    assert '?' !in owner && '?' !in path;
    assert owner + path == "/youngsungallery/IMG_DB/main/youngsungallery/exh/";
    RawBaseFromParts("https://", owner + path);
  }

  /** `generateFullImageUrl` under the lecture base. */
  function GenerateFullImageUrl(imageFilename: string): (url: string)
    ensures imageFilename == "" ==> url == ""
    ensures imageFilename != "" ==>
      StartsWith(url, LectureImageBaseUrl + imageFilename) && EndsWith(url, Png)
    ensures imageFilename != "" && EndsWith(imageFilename, Png) ==> url == LectureImageBaseUrl + imageFilename
    ensures imageFilename != "" && !EndsWith(imageFilename, Png) ==> url == LectureImageBaseUrl + imageFilename + Png
  {
    FullImageUrl(LectureImageBaseUrl, imageFilename)
  }

  /** A bare file name survives the trip to a lecture image URL and back. */
  lemma LectureImageRoundTrip(f: string)
    requires f != "" && '/' !in f && '?' !in f && !EndsWith(f, Png)
    ensures ExtractFilenameWithoutExtension(GenerateFullImageUrl(f)) == f
  {
    LectureBaseIsRaw();
    ExtractInvertsFullImageUrl(LectureImageBaseUrl, f);
  }

  /**
   * The committed fields after a save: `title`, `SLI` and `date` copied from the draft,
   * `imageFile` set to `imageFile || ''` and `image` to its URL; a truthy non-string file name
   * throws before any field is written.
   */
  function SavedLecture(committed: Record, draft: Record): (r: Result<Record>)
    ensures r.Err? <==> TruthyAt(draft, "imageFile") && !draft["imageFile"].Str?
    ensures r.Ok? ==>
      && Get(r.value, "title") == Get(draft, "title")
      && Get(r.value, "SLI") == Get(draft, "SLI")
      && Get(r.value, "date") == Get(draft, "date")
      && Get(r.value, "imageFile") == Some(ImageFileOrEmpty(draft))
      && ImageConsistent(LectureImageBaseUrl, r.value)
    ensures r.Ok? ==> forall k :: k != "title" && k != "SLI" && k != "date" && k != "imageFile" && k != "image" ==>
      Get(r.value, k) == Get(committed, k)
  {
    var file := ImageFileOrEmpty(draft);
    match GenerateFromValue(LectureImageBaseUrl, file)
    case Err(e) => Err(e)
    case Ok(url) =>
      var copied := CopyKey(CopyKey(CopyKey(committed, draft, "title"), draft, "SLI"), draft, "date");
      Ok(copied["imageFile" := file]["image" := Str(url)])
  }

  class LectureStore {
    var lectures: seq<Entry>
    var loading: bool
    var error: Option<string>

    constructor ()
      ensures lectures == [] && loading && error == None
    {
      lectures := [];
      loading := true;
      error := None;
    }

    /** Every item has a string `imageFile` and an `image` that is that file's URL. */
    predicate Valid()
      reads this, lectures
    {
      forall i :: 0 <= i < |lectures| ==> ImageConsistent(LectureImageBaseUrl, lectures[i].fields)
    }

    /**
     * The mounted load: a failed fetch or an exception in the mapping records the error and
     * leaves the list as it was; otherwise every raw record becomes one item, in order.
     */
    method Load(response: Fetch)
      modifies this
      ensures !loading
      ensures response.FetchFailed? ==> lectures == old(lectures) && error == Some(response.message)
      ensures response.Fetched? && LoadAll(LectureImageBaseUrl, response.data).Err? ==>
        lectures == old(lectures) && error == Some(LoadAll(LectureImageBaseUrl, response.data).error)
      ensures response.Fetched? && LoadAll(LectureImageBaseUrl, response.data).Ok? ==>
        && error == old(error)
        && Fields(lectures) == LoadAll(LectureImageBaseUrl, response.data).value
        && (forall i :: 0 <= i < |lectures| ==> fresh(lectures[i]) && lectures[i].Idle())
        && Valid()
    {
      match response {
        case FetchFailed(message) =>
          error := Some(message);
        case Fetched(data) =>
          match LoadAll(LectureImageBaseUrl, data) {
            case Err(e) =>
              error := Some(e);
            case Ok(rs) =>
              lectures := NewEntries(rs);
              LoadAllConsistent(LectureImageBaseUrl, data);
              forall i | 0 <= i < |lectures|
                ensures ImageConsistent(LectureImageBaseUrl, lectures[i].fields)
              {
                assert lectures[i].fields == Fields(lectures)[i];
              }
          }
      }
      loading := false;
    }

    /** `addLecture`: prepends without any duplicate check and reports success, unless the file name throws. */
    method AddLecture(newLecData: Record) returns (outcome: Result<bool>)
      modifies this
      ensures loading == old(loading) && error == old(error)
      ensures AddedRecord(LectureImageBaseUrl, newLecData).Err? ==>
        outcome == Err(AddedRecord(LectureImageBaseUrl, newLecData).error) && lectures == old(lectures)
      ensures AddedRecord(LectureImageBaseUrl, newLecData).Ok? ==>
        && outcome == Ok(true)
        && |lectures| == |old(lectures)| + 1 && lectures[1..] == old(lectures)
        && fresh(lectures[0]) && lectures[0].Idle()
        && lectures[0].fields == AddedRecord(LectureImageBaseUrl, newLecData).value
      ensures old(Valid()) ==> Valid()
    {
      match AddedRecord(LectureImageBaseUrl, newLecData) {
        case Err(e) =>
          outcome := Err(e);
        case Ok(r) =>
          var e := new Entry(r);
          lectures := [e] + lectures;
          outcome := Ok(true);
      }
    }

    method StartEditingLecture(lec: Entry)
      modifies lec
      ensures lec.fields == old(lec.fields) && lec.isEditing
      ensures lec.originalDataCopy == old(lec.fields) && lec.editedData == old(lec.fields)
      ensures old(Valid()) ==> Valid()
    {
      lec.StartEditing();
    }

    /**
     * `saveEditedLecture`: commits `SavedLecture` and refreshes the snapshot; when it throws,
     * nothing changes.
     */
    method SaveEditedLecture(lec: Entry) returns (outcome: Result<()>)
      modifies lec
      ensures SavedLecture(old(lec.fields), old(lec.editedData)).Err? ==>
        outcome.Err? && lec.fields == old(lec.fields) && lec.isEditing == old(lec.isEditing)
        && lec.editedData == old(lec.editedData) && lec.originalDataCopy == old(lec.originalDataCopy)
      ensures SavedLecture(old(lec.fields), old(lec.editedData)).Ok? ==>
        && outcome == Ok(())
        && lec.fields == SavedLecture(old(lec.fields), old(lec.editedData)).value
        && !lec.isEditing && lec.editedData == old(lec.editedData) && lec.originalDataCopy == lec.fields
      ensures old(Valid()) ==> Valid()
    {
      match SavedLecture(lec.fields, lec.editedData) {
        case Err(e) =>
          outcome := Err(e);
        case Ok(r) =>
          lec.fields := r;
          lec.isEditing := false;
          lec.originalDataCopy := lec.fields;
          outcome := Ok(());
      }
    }

    method CancelEditingLecture(lec: Entry)
      modifies lec
      ensures lec.fields == old(lec.fields) && lec.originalDataCopy == old(lec.originalDataCopy) && !lec.isEditing
      ensures lec.editedData == old(lec.originalDataCopy)
      ensures old(lec.SnapshotCurrent()) ==> lec.editedData == lec.fields
      ensures old(Valid()) ==> Valid()
    {
      lec.CancelEditing();
    }

    /**
     * The data `downloadJson` serialises: one record per item, in order, without `image` and
     * the transient keys, and with a string `imageFile` whenever the list is valid.
     */
    function DownloadJson(): (out: seq<Record>)
      reads this, lectures
      ensures |out| == |lectures|
      ensures forall i :: 0 <= i < |out| ==> out[i] == ExportRecord(lectures[i].fields)
      ensures Valid() ==> forall i :: 0 <= i < |out| ==> "imageFile" in out[i] && out[i]["imageFile"].Str?
    {
      MapSeq(ExportRecord, Fields(lectures))
    }
  }
}
