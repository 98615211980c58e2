/** The exhibition list manager (`useExhibitionData`). */
module Exhibitions {
  import opened Wrappers
  import opened Strings
  import opened JsValues
  import opened Sequences
  import opened Catalog
  import opened ImageFiles

  /** `EXHIBITION_IMAGE_BASE_URL`: https://raw.githubusercontent.com/youngsungallery/IMG_DB/main/youngsungallery/exh/ */
  const ExhibitionImageBaseUrl := "https://" + RawHost + "/youngsungallery/IMG_DB/main/youngsungallery/exh/"

  lemma ExhibitionBaseIsRaw()
    ensures RawImageBase(ExhibitionImageBaseUrl)
  {
    var owner, path := "/youngsungallery/IMG_DB/main/", "youngsungallery/exh/";
    assert '?' !in owner && '?' !in path;
    assert owner + path == "/youngsungallery/IMG_DB/main/youngsungallery/exh/";
    RawBaseFromParts("https://", owner + path);
  }

  /**
   * `generateFullImageUrl` under the exhibition base: `''` for `''`; otherwise the base, the
   * name, and a `.png` that is never doubled.
   */
  function GenerateFullImageUrl(imageFilename: string): (url: string)
    ensures imageFilename == "" ==> url == ""
    ensures imageFilename != "" ==>
      StartsWith(url, ExhibitionImageBaseUrl + imageFilename) && EndsWith(url, Png)
    ensures imageFilename != "" && EndsWith(imageFilename, Png) ==> url == ExhibitionImageBaseUrl + imageFilename
    ensures imageFilename != "" && !EndsWith(imageFilename, Png) ==> url == ExhibitionImageBaseUrl + imageFilename + Png
  {
    FullImageUrl(ExhibitionImageBaseUrl, imageFilename)
  }

  /** A bare file name survives the trip to an exhibition image URL and back. */
  lemma ExhibitionImageRoundTrip(f: string)
    requires f != "" && '/' !in f && '?' !in f && !EndsWith(f, Png)
    ensures ExtractFilenameWithoutExtension(GenerateFullImageUrl(f)) == f
  {
    ExhibitionBaseIsRaw();
    ExtractInvertsFullImageUrl(ExhibitionImageBaseUrl, f);
  }

  /** The committed fields after a save: only `title`, `date`, `desc` and `imageFile` are copied, and `image` is deleted. */
  function SavedExhibition(committed: Record, draft: Record): (r: Record)
    ensures Get(r, "title") == Get(draft, "title")
    ensures Get(r, "date") == Get(draft, "date")
    ensures Get(r, "desc") == Get(draft, "desc")
    ensures Get(r, "imageFile") == Some(ImageFileOrEmpty(draft))
    ensures "image" !in r
    ensures forall k :: k != "title" && k != "date" && k != "desc" && k != "imageFile" && k != "image" ==>
      Get(r, k) == Get(committed, k)
  {
    var copied := CopyKey(CopyKey(CopyKey(committed, draft, "title"), draft, "date"), draft, "desc");
    copied["imageFile" := ImageFileOrEmpty(draft)] - {"image"}
  }

  class ExhibitionStore {
    var exhibitions: seq<Entry>
    var loading: bool
    var error: Option<string>

    constructor ()
      ensures exhibitions == [] && loading && error == None
    {
      exhibitions := [];
      loading := true;
      error := None;
    }

    /** Every item has a string `imageFile`, and its `image`, while present, is that file's URL. */
    predicate Valid()
      reads this, exhibitions
    {
      forall i :: 0 <= i < |exhibitions| ==> ImageFileShape(ExhibitionImageBaseUrl, exhibitions[i].fields)
    }

    /**
     * The mounted load: a failed fetch or an exception in the mapping records the error and
     * leaves the list as it was; otherwise every raw record becomes one item, in order.
     */
    method Load(response: Fetch)
      modifies this
      ensures !loading
      ensures response.FetchFailed? ==> exhibitions == old(exhibitions) && error == Some(response.message)
      ensures response.Fetched? && LoadAll(ExhibitionImageBaseUrl, response.data).Err? ==>
        exhibitions == old(exhibitions) && error == Some(LoadAll(ExhibitionImageBaseUrl, response.data).error)
      ensures response.Fetched? && LoadAll(ExhibitionImageBaseUrl, response.data).Ok? ==>
        && error == old(error)
        && Fields(exhibitions) == LoadAll(ExhibitionImageBaseUrl, response.data).value
        && (forall i :: 0 <= i < |exhibitions| ==> fresh(exhibitions[i]) && exhibitions[i].Idle())
        && Valid()
    {
      match response {
        case FetchFailed(message) =>
          error := Some(message);
        case Fetched(data) =>
          match LoadAll(ExhibitionImageBaseUrl, data) {
            case Err(e) =>
              error := Some(e);
            case Ok(rs) =>
              exhibitions := NewEntries(rs);
              LoadAllConsistent(ExhibitionImageBaseUrl, data);
              forall i | 0 <= i < |exhibitions|
                ensures ImageFileShape(ExhibitionImageBaseUrl, exhibitions[i].fields)
              {
                assert exhibitions[i].fields == Fields(exhibitions)[i];
              }
          }
      }
      loading := false;
    }

    /** `addExhibition`: prepends without any duplicate check and reports success, unless the file name throws. */
    method AddExhibition(newExhData: Record) returns (outcome: Result<bool>)
      modifies this
      ensures loading == old(loading) && error == old(error)
      ensures AddedRecord(ExhibitionImageBaseUrl, newExhData).Err? ==>
        outcome == Err(AddedRecord(ExhibitionImageBaseUrl, newExhData).error) && exhibitions == old(exhibitions)
      ensures AddedRecord(ExhibitionImageBaseUrl, newExhData).Ok? ==>
        && outcome == Ok(true)
        && |exhibitions| == |old(exhibitions)| + 1 && exhibitions[1..] == old(exhibitions)
        && fresh(exhibitions[0]) && exhibitions[0].Idle()
        && exhibitions[0].fields == AddedRecord(ExhibitionImageBaseUrl, newExhData).value
      ensures old(Valid()) ==> Valid()
    {
      match AddedRecord(ExhibitionImageBaseUrl, newExhData) {
        case Err(e) =>
          outcome := Err(e);
        case Ok(r) =>
          var e := new Entry(r);
          exhibitions := [e] + exhibitions;
          outcome := Ok(true);
      }
    }

    method StartEditingExhibition(exh: Entry)
      modifies exh
      ensures exh.fields == old(exh.fields) && exh.isEditing
      ensures exh.originalDataCopy == old(exh.fields) && exh.editedData == old(exh.fields)
      ensures old(Valid()) ==> Valid()
    {
      exh.StartEditing();
    }

    /**
     * `saveEditedExhibition`: copies `title`, `date`, `desc` and `imageFile || ''` from the
     * draft, deletes `image`, and refreshes the snapshot; a truthy non-string file name throws
     * before anything changes.
     */
    method SaveEditedExhibition(exh: Entry) returns (outcome: Result<()>)
      modifies exh
      ensures GenerateFromValue(ExhibitionImageBaseUrl, ImageFileOrEmpty(old(exh.editedData))).Err? ==>
        outcome.Err? && exh.fields == old(exh.fields) && exh.isEditing == old(exh.isEditing)
        && exh.editedData == old(exh.editedData) && exh.originalDataCopy == old(exh.originalDataCopy)
      ensures GenerateFromValue(ExhibitionImageBaseUrl, ImageFileOrEmpty(old(exh.editedData))).Ok? ==>
        && outcome == Ok(())
        && exh.fields == SavedExhibition(old(exh.fields), old(exh.editedData))
        && !exh.isEditing && exh.editedData == old(exh.editedData) && exh.originalDataCopy == exh.fields
      ensures old(Valid()) ==> Valid()
    {
      var file := ImageFileOrEmpty(exh.editedData);
      match GenerateFromValue(ExhibitionImageBaseUrl, file) {
        case Err(e) =>
          outcome := Err(e);
        case Ok(url) =>
          exh.fields := SavedExhibition(exh.fields, exh.editedData);
          exh.isEditing := false;
          exh.originalDataCopy := exh.fields;
          outcome := Ok(());
      }
    }

    method CancelEditingExhibition(exh: Entry)
      modifies exh
      ensures exh.fields == old(exh.fields) && exh.originalDataCopy == old(exh.originalDataCopy) && !exh.isEditing
      ensures exh.editedData == old(exh.originalDataCopy)
      ensures old(exh.SnapshotCurrent()) ==> exh.editedData == exh.fields
      ensures old(Valid()) ==> Valid()
    {
      exh.CancelEditing();
    }

    /**
     * The data `downloadJson` serialises: one record per item, in order, without `image` and
     * the transient keys, and with a string `imageFile` whenever the list is valid.
     */
    function DownloadJson(): (out: seq<Record>)
      reads this, exhibitions
      ensures |out| == |exhibitions|
      ensures forall i :: 0 <= i < |out| ==> out[i] == ExportRecord(exhibitions[i].fields)
      ensures Valid() ==> forall i :: 0 <= i < |out| ==> "imageFile" in out[i] && out[i]["imageFile"].Str?
    {
      MapSeq(ExportRecord, Fields(exhibitions))
    }
  }
}
