/**
 * The image-reference handling shared, line for line, by the exhibition and lecture managers:
 * turning a stored URL into a bare file name, turning a file name into a display URL under a
 * base URL, the load-time resolution of `imageFile`/`image`, and the download projection.
 */
module ImageFiles {
  import opened Wrappers
  import opened Strings
  import opened JsValues

  const RawHost := "raw.githubusercontent.com"
  const BlobMarker := "/blob/"
  const Png := ".png"

  lemma NotInSlice(s: string, c: char, i: nat, j: nat)
    requires c !in s && i <= j <= |s|
    ensures c !in s[i..j]
  {
  }

  /** `name.endsWith('.png') ? name.slice(0, -4) : name` */
  function StripPng(name: string): (r: string)
    ensures EndsWith(name, Png) ==> r + Png == name
    ensures !EndsWith(name, Png) ==> r == name
  {
    if EndsWith(name, Png) then name[..|name| - |Png|] else name
  }

  lemma StripPngKeepsAbsent(name: string, c: char)
    requires c !in name
    ensures c !in StripPng(name)
  {
    NotInSlice(name, c, 0, |StripPng(name)|);
    assert StripPng(name) == name[0..|StripPng(name)|];
  }

  /** The file name, without one trailing `.png`, named by the path after `/blob/`. */
  function BlobFileName(clean: string): string
    requires Contains(clean, BlobMarker)
  {
    StripPng(AfterLastChar(SecondPiece(clean, BlobMarker), '/'))
  }

  /**
   * `extractFilenameWithoutExtension(url)`: drop the query, then take the last path segment
   * (of the part after `/blob/` for a blob URL) when the URL is a raw-content or blob URL,
   * and drop one trailing `.png`.
   */
  function ExtractFilenameWithoutExtension(url: string): (name: string)
    ensures url == "" ==> name == ""
    ensures '?' !in name
    ensures var clean := BeforeChar(url, '?');
      Contains(clean, RawHost) || Contains(clean, BlobMarker) ==> '/' !in name
    ensures var clean := BeforeChar(url, '?');
      url != "" && Contains(clean, RawHost) ==>
        var segment := AfterLastChar(clean, '/');
        (EndsWith(segment, Png) ==> name + Png == segment) && (!EndsWith(segment, Png) ==> name == segment)
    ensures var clean := BeforeChar(url, '?');
      url != "" && !Contains(clean, RawHost) && Contains(clean, BlobMarker) ==>
        var segment := AfterLastChar(SecondPiece(clean, BlobMarker), '/');
        (EndsWith(segment, Png) ==> name + Png == segment) && (!EndsWith(segment, Png) ==> name == segment)
    ensures var clean := BeforeChar(url, '?');
      !Contains(clean, RawHost) && !Contains(clean, BlobMarker) ==>
        (EndsWith(clean, Png) ==> name + Png == clean) && (!EndsWith(clean, Png) ==> name == clean)
  {
    if url == "" then ""
    else
      var clean := BeforeChar(url, '?');
      if Contains(clean, RawHost) then
        var segment := AfterLastChar(clean, '/');
        NotInSlice(clean, '?', |clean| - |segment|, |clean|);
        StripPngKeepsAbsent(segment, '?');
        StripPngKeepsAbsent(segment, '/');
        StripPng(segment)
      else if Contains(clean, BlobMarker) then
        var i := IndexOf(clean, BlobMarker).value;
        var tail := clean[i + |BlobMarker|..];
        NotInSlice(clean, '?', i + |BlobMarker|, |clean|);
        assert tail == clean[i + |BlobMarker|..|clean|];
        var path := SecondPiece(clean, BlobMarker);
        NotInSlice(tail, '?', 0, |path|);
        assert path == tail[0..|path|];
        var segment := AfterLastChar(path, '/');
        NotInSlice(path, '?', |path| - |segment|, |path|);
        StripPngKeepsAbsent(segment, '?');
        StripPngKeepsAbsent(segment, '/');
        BlobFileName(clean)
      else
        StripPngKeepsAbsent(clean, '?');
        StripPng(clean)
  }

  /**
   * `generateFullImageUrl(imageFilename)` under `base`: empty for an empty name, otherwise the
   * base, the name, and `.png` unless the name already ends with it.
   */
  function FullImageUrl(base: string, imageFilename: string): (url: string)
    ensures url == "" <==> imageFilename == ""
    ensures imageFilename != "" ==> StartsWith(url, base + imageFilename) && EndsWith(url, Png)
    ensures imageFilename != "" ==>
      |url| == |base| + |imageFilename| + if EndsWith(imageFilename, Png) then 0 else |Png|
  {
    if imageFilename == "" then ""
    else if EndsWith(imageFilename, Png) then base + imageFilename
    else base + imageFilename + Png
  }

  /** A base URL on the raw-content host, with no query, ending in a path separator. */
  predicate RawImageBase(base: string) {
    base != [] && base[|base| - 1] == '/' && '?' !in base && Contains(base, RawHost)
  }

  /** A base URL built as `scheme + raw host + path` is a raw-content base. */
  lemma RawBaseFromParts(scheme: string, path: string)
    requires '?' !in scheme && '?' !in path && '?' !in RawHost
    requires path != [] && path[|path| - 1] == '/'
    ensures RawImageBase(scheme + RawHost + path)
  {
    var base := scheme + RawHost + path;
    ContainsInMiddle(scheme, RawHost, path);
    assert base[|base| - 1] == path[|path| - 1];
  }

  lemma BeforeCharAbsent(s: string, c: char)
    requires c !in s
    ensures BeforeChar(s, c) == s
  {
  }

  lemma {:induction false} AfterLastCharOfJoin(a: string, b: string, c: char)
    requires a != [] && a[|a| - 1] == c && c !in b
    ensures AfterLastChar(a + b, c) == b
    decreases |b|
  {
    if b == [] {
      assert a + b == a;
    } else {
      var s := a + b;
      assert s[..|s| - 1] == a + b[..|b| - 1];
      AfterLastCharOfJoin(a, b[..|b| - 1], c);
      assert b == b[..|b| - 1] + [b[|b| - 1]];
    }
  }

  lemma ExtractRawUrl(url: string)
    requires url != "" && Contains(BeforeChar(url, '?'), RawHost)
    ensures ExtractFilenameWithoutExtension(url) == StripPng(AfterLastChar(BeforeChar(url, '?'), '/'))
  {
  }

  /** A file name with no `/`, no `?` and no `.png` suffix survives the trip to a URL and back. */
  lemma ExtractInvertsFullImageUrl(base: string, f: string)
    requires RawImageBase(base)
    requires f != "" && '/' !in f && '?' !in f && !EndsWith(f, Png)
    ensures ExtractFilenameWithoutExtension(FullImageUrl(base, f)) == f
  {
    var url := FullImageUrl(base, f);
    assert url == base + (f + Png);
    assert '?' !in Png && '/' !in Png;
    assert '?' !in url;
    BeforeCharAbsent(url, '?');
    ContainsInPrefix(base, f + Png, RawHost);
    assert '/' !in f + Png;
    AfterLastCharOfJoin(base, f + Png, '/');
    ExtractRawUrl(url);
    assert EndsWith(f + Png, Png);
    assert (f + Png)[..|f + Png| - |Png|] == f;
  }

  /**
   * The load-time resolution of the image file name: a truthy `imageFile` wins; otherwise a
   * truthy `image` URL is reduced to its file name; otherwise the empty name.  A truthy
   * `image` that is not a string makes `url.split` throw.
   */
  function ResolveImageFile(item: Record): (r: Result<Value>)
    ensures TruthyAt(item, "imageFile") ==> r == Ok(item["imageFile"])
    ensures r.Err? <==> !TruthyAt(item, "imageFile") && TruthyAt(item, "image") && !item["image"].Str?
    ensures r.Ok? && !TruthyAt(item, "imageFile") ==> r.value.Str? && '?' !in r.value.s
  {
    if TruthyAt(item, "imageFile") then Ok(item["imageFile"])
    else if TruthyAt(item, "image") then
      match item["image"]
      case Str(u) => Ok(Str(ExtractFilenameWithoutExtension(u)))
      case _ => Err("TypeError: url.split is not a function")
    else Ok(Str(""))
  }

  /**
   * A record that carries only the full URL of its image gets the bare file name back at load
   * time, so an export after a load keeps the name the URL was built from.
   */
  lemma ResolveRecoversFileName(base: string, f: string, item: Record)
    requires RawImageBase(base)
    requires f != "" && '/' !in f && '?' !in f && !EndsWith(f, Png)
    requires !TruthyAt(item, "imageFile") && Get(item, "image") == Some(Str(FullImageUrl(base, f)))
    ensures ResolveImageFile(item) == Ok(Str(f))
  {
    ExtractInvertsFullImageUrl(base, f);
  }

  /**
   * `generateFullImageUrl(v)` for any field value: a falsy value gives `''`; a truthy
   * non-string makes `imageFilename.endsWith` throw.
   */
  function GenerateFromValue(base: string, v: Value): (r: Result<string>)
    ensures r.Err? <==> Truthy(v) && !v.Str?
    ensures r.Ok? && v.Str? ==> r.value == FullImageUrl(base, v.s)
    ensures !Truthy(v) ==> r == Ok("")
  {
    if !Truthy(v) then Ok("")
    else match v
      case Str(s) => Ok(FullImageUrl(base, s))
      case _ => Err("TypeError: imageFilename.endsWith is not a function")
  }

  /** The record holds a string `imageFile`, and `image`, when present, is its display URL. */
  predicate ImageFileShape(base: string, r: Record) {
    && "imageFile" in r && r["imageFile"].Str?
    && ("image" in r ==> r["image"] == Str(FullImageUrl(base, r["imageFile"].s)))
  }

  /** `imageFile` is a string and `image` is its display URL. */
  predicate ImageConsistent(base: string, r: Record) {
    ImageFileShape(base, r) && "image" in r
  }

  /** One record of the load mapping: `{...item, imageFile: resolved, image: fullImageUrl}`. */
  function WithImageUrl(base: string, item: Record): (r: Result<Record>)
    ensures r.Ok? ==> r.value.Keys == item.Keys + {"imageFile", "image"}
    ensures r.Ok? ==> forall k :: k in item && k != "imageFile" && k != "image" ==> r.value[k] == item[k]
    ensures r.Ok? ==> ResolveImageFile(item) == Ok(r.value["imageFile"]) && ImageConsistent(base, r.value)
    ensures r.Err? <==> ResolveImageFile(item).Err? || (ResolveImageFile(item).Ok? && Truthy(ResolveImageFile(item).value) && !ResolveImageFile(item).value.Str?)
  {
    match ResolveImageFile(item)
    case Err(e) => Err(e)
    case Ok(resolved) =>
      match GenerateFromValue(base, resolved)
      case Err(e) => Err(e)
      case Ok(url) => Ok(item["imageFile" := resolved]["image" := Str(url)])
  }

  /**
   * `data.map(...)` of the load step: one record per raw record, in order; an exception in
   * any record aborts the whole mapping.
   */
  function LoadAll(base: string, data: seq<Record>): (r: Result<seq<Record>>)
    ensures r.Ok? ==> |r.value| == |data|
    ensures r.Ok? ==> forall i :: 0 <= i < |data| ==> WithImageUrl(base, data[i]) == Ok(r.value[i])
    ensures r.Err? ==> exists i :: 0 <= i < |data| && WithImageUrl(base, data[i]) == Err(r.error)
    ensures r.Err? <==> exists i :: 0 <= i < |data| && WithImageUrl(base, data[i]).Err?
    decreases |data|
  {
    if data == [] then Ok([])
    else
      match WithImageUrl(base, data[0])
      case Err(e) => Err(e)
      case Ok(first) =>
        match LoadAll(base, data[1..])
        case Err(e) => Err(e)
        case Ok(rest) => Ok([first] + rest)
  }

  /** Every record a successful load produces carries a string file name and its URL. */
  lemma LoadAllConsistent(base: string, data: seq<Record>)
    requires LoadAll(base, data).Ok?
    ensures forall i :: 0 <= i < |LoadAll(base, data).value| ==> ImageConsistent(base, LoadAll(base, data).value[i])
  {
    var rs := LoadAll(base, data).value;
    forall i | 0 <= i < |rs|
      ensures ImageConsistent(base, rs[i])
    {
      assert WithImageUrl(base, data[i]) == Ok(rs[i]);
    }
  }

  /** `newData.imageFile || ''` */
  function ImageFileOrEmpty(item: Record): (v: Value)
    ensures Truthy(v) <==> TruthyAt(item, "imageFile")
    ensures Truthy(v) ==> v == item["imageFile"]
    ensures v.Str? <==> !(TruthyAt(item, "imageFile") && !item["imageFile"].Str?)
  {
    if TruthyAt(item, "imageFile") then item["imageFile"] else Str("")
  }

  /**
   * The record an add operation prepends: `{...newData, imageFile, image}` with the file name
   * defaulted to `''`; a truthy non-string file name throws before anything is added.
   */
  function AddedRecord(base: string, newData: Record): (r: Result<Record>)
    ensures r.Err? <==> TruthyAt(newData, "imageFile") && !newData["imageFile"].Str?
    ensures r.Ok? ==> r.value.Keys == newData.Keys + {"imageFile", "image"}
    ensures r.Ok? ==> forall k :: k in newData && k != "imageFile" && k != "image" ==> r.value[k] == newData[k]
    ensures r.Ok? ==> r.value["imageFile"] == ImageFileOrEmpty(newData) && ImageConsistent(base, r.value)
  {
    var file := ImageFileOrEmpty(newData);
    match GenerateFromValue(base, file)
    case Err(e) => Err(e)
    case Ok(url) => Ok(newData["imageFile" := file]["image" := Str(url)])
  }

  /** `item.key = draft.key`: assigning `undefined` leaves the key without a value. */
  function CopyKey(item: Record, draft: Record, key: string): (r: Record)
    ensures Get(r, key) == Get(draft, key)
    ensures forall k :: k != key ==> Get(r, k) == Get(item, k)
  {
    if key in draft then item[key := draft[key]] else item - {key}
  }

  /**
   * One record of `downloadJson`: the fields without `image` and the transient keys, and
   * `imageFile` replaced by `imageFile || ''`.
   */
  function ExportRecord(item: Record): (out: Record)
    ensures "image" !in out && "isEditing" !in out && "editedData" !in out && "originalDataCopy" !in out
    ensures "imageFile" in out && out["imageFile"] == ImageFileOrEmpty(item)
    ensures forall k :: k in item && k != "image" && k != "isEditing" && k != "editedData" && k != "originalDataCopy" ==>
      k in out && (k != "imageFile" ==> out[k] == item[k])
    ensures forall k :: k in out ==> k in item || k == "imageFile"
  {
    (item - {"isEditing", "editedData", "originalDataCopy", "image"})["imageFile" := ImageFileOrEmpty(item)]
  }
}
