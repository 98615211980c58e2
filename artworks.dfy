/** The artwork list manager (`useArtworkData`). */
module Artworks {
  import opened Wrappers
  import opened Strings
  import opened JsValues
  import opened Sequences
  import opened Catalog

  /** `IMG_BASE_URL` and `IMG_DISPLAY_BASE_URL`, handed to the views unchanged. */
  const ImgBaseUrl := "https://github.com/youngsungallery/IMG_DB/blob/main/youngsungallery/art/"
  const ImgDisplayBaseUrl := "https://raw.githubusercontent.com/youngsungallery/IMG_DB/main/youngsungallery/art/"

  /** The three fields the load step and the save step turn into numbers. */
  predicate IsNumericKey(k: string) {
    k == "year" || k == "buyPrice" || k == "sellPrice"
  }

  /**
   * `{...item, year: item.year ? Number(item.year) : null, buyPrice: ..., sellPrice: ...}`:
   * the three numeric fields are always present afterwards, null when the raw value was
   * falsy and its numeric value otherwise; every other field is kept as it was.
   */
  function NormaliseArtwork(item: Record): (r: Record)
    ensures r.Keys == item.Keys + {"year", "buyPrice", "sellPrice"}
    ensures forall k :: IsNumericKey(k) ==> r[k] == NumericOrNull(item, k)
    ensures forall k :: IsNumericKey(k) ==> (r[k] == Null <==> !TruthyAt(item, k))
    ensures forall k :: IsNumericKey(k) ==> !r[k].Str?
    ensures forall k :: !IsNumericKey(k) ==> Get(r, k) == Get(item, k)
  {
    item["year" := NumericOrNull(item, "year")]
        ["buyPrice" := NumericOrNull(item, "buyPrice")]
        ["sellPrice" := NumericOrNull(item, "sellPrice")]
  }

  /** The three numeric fields are present and hold no string. */
  predicate NumericFields(r: Record) {
    && "year" in r && !r["year"].Str?
    && "buyPrice" in r && !r["buyPrice"].Str?
    && "sellPrice" in r && !r["sellPrice"].Str?
  }

  /**
   * Normalising twice is normalising once exactly when no numeric field normalises to `0` or
   * `NaN`: those are falsy, so a second pass turns them into null.
   */
  lemma NormaliseIdempotentIff(item: Record)
    ensures NormaliseArtwork(NormaliseArtwork(item)) == NormaliseArtwork(item) <==>
      forall k :: IsNumericKey(k) ==> NumericOrNull(item, k) != Num(0) && NumericOrNull(item, k) != NaN
  {
    var once := NormaliseArtwork(item);
    if NormaliseArtwork(once) == once {
      forall k | IsNumericKey(k)
        ensures NumericOrNull(item, k) != Num(0) && NumericOrNull(item, k) != NaN
      {
        assert NormaliseArtwork(once)[k] == NumericOrNull(once, k);
      }
    } else {
      var k :| k in once && NormaliseArtwork(once)[k] != once[k];
      assert IsNumericKey(k);
    }
  }

  /** `String(item.code)`, with `"undefined"` for a missing code. */
  function CodeText(item: Record): string {
    match Get(item, "code")
    case None => "undefined"
    case Some(v) => Display(v)
  }

  /** Replacing the first `YS` of `YS<digits>` and reading the rest with `parseInt` gives the digits' value. */
  lemma ParseAfterYs(text: string)
    requires |text| > 2 && text[..2] == "YS" && AllDigits(text[2..])
    ensures ParseInt(ReplaceFirst(text, "YS", "")) == Some(ParseDigits(text[2..]) as int)
  {
    assert OccursAt(text, "YS", 0);
    var d := text[2..];
    assert ReplaceFirst(text, "YS", "") == d;
    assert LeadingDigits(d) == d;
  }

  /**
   * The sort key `parseInt(String(code).replace('YS', ''))`; `None` stands for `NaN`.  For a
   * `YS<digits>` code it is the number after `YS`.
   */
  function CodeNumber(item: Record): (r: Option<int>)
    ensures CodeSuffix(item).Some? ==> r == Some(CodeSuffix(item).value as int)
  {
    var text := CodeText(item);
    if |text| > 2 && text[..2] == "YS" && AllDigits(text[2..]) then
      ParseAfterYs(text);
      ParseInt(ReplaceFirst(text, "YS", ""))
    else
      ParseInt(ReplaceFirst(text, "YS", ""))
  }

  /**
   * The sort key as a total order: the number after `YS` for a `YS<digits>` code, and 0 for a
   * code `parseInt` cannot read.
   */
  function CodeRank(item: Record): (n: int)
    ensures CodeSuffix(item).Some? ==> n == CodeSuffix(item).value
    ensures CodeNumber(item).None? ==> n == 0
  {
    match CodeNumber(item)
    case Some(n) => n
    case None => 0
  }

  /** Normalising the numeric fields leaves the code, and hence the sort key, alone. */
  lemma NormalisePreservesRank(r: Record)
    ensures CodeRank(NormaliseArtwork(r)) == CodeRank(r)
  {
    assert Get(NormaliseArtwork(r), "code") == Get(r, "code");
    assert CodeText(NormaliseArtwork(r)) == CodeText(r);
  }

  /** Non-increasing under `key`. */
  predicate SortedDescBy(s: seq<Record>, key: Record -> int) {
    forall i, j :: 0 <= i < j < |s| ==> key(s[i]) >= key(s[j])
  }

  /** Non-increasing in the number that follows `YS`. */
  predicate SortedByCodeDesc(s: seq<Record>) {
    SortedDescBy(s, CodeRank)
  }

  /** Normalising the numeric fields leaves the code, and hence the sort key, alone. */
  lemma NormalisePreservesOrder(s: seq<Record>)
    requires SortedByCodeDesc(s)
    ensures SortedByCodeDesc(MapSeq(NormaliseArtwork, s))
  {
    var t := MapSeq(NormaliseArtwork, s);
    forall i, j | 0 <= i < j < |t|
      ensures CodeRank(t[i]) >= CodeRank(t[j])
    {
      NormalisePreservesRank(s[i]);
      NormalisePreservesRank(s[j]);
    }
  }

  method Swap(a: array<Record>, i: nat, j: nat)
    requires i < a.Length && j < a.Length
    modifies a
    ensures a[..] == old(a[..])[i := old(a[j])][j := old(a[i])]
    ensures multiset(a[..]) == multiset(old(a[..]))
  {
    a[i], a[j] := a[j], a[i];
  }

  /** The first `n` elements are in non-increasing key order. */
  predicate PrefixSorted(s: seq<Record>, n: int, key: Record -> int) {
    forall k, l :: 0 <= k < l < n && l < |s| ==> key(s[k]) >= key(s[l])
  }

  /**
   * While `s[j]` moves left in `s[..i + 1]`: every other pair is in order, and everything to
   * the right of the moving element has a smaller key.
   */
  predicate Inserting(s: seq<Record>, i: int, j: int, key: Record -> int) {
    && (forall k, l :: 0 <= k < l <= i && l != j && l < |s| ==> key(s[k]) >= key(s[l]))
    && (forall l :: j < l <= i && 0 <= j && l < |s| ==> key(s[j]) > key(s[l]))
  }

  lemma InsertingStep(s: seq<Record>, i: int, j: int, key: Record -> int)
    requires 0 < j <= i < |s| && Inserting(s, i, j, key) && key(s[j - 1]) < key(s[j])
    ensures Inserting(s[j - 1 := s[j]][j := s[j - 1]], i, j - 1, key)
  {
  }

  lemma InsertingDone(s: seq<Record>, i: int, j: int, key: Record -> int)
    requires 0 <= j <= i < |s| && Inserting(s, i, j, key)
    requires j == 0 || key(s[j - 1]) >= key(s[j])
    ensures PrefixSorted(s, i + 1, key)
  {
  }

  /**
   * One pass of the insertion: `a[i]` moves left past every element with a smaller key, so
   * the sorted prefix grows by one.
   */
  method InsertDown(a: array<Record>, i: nat, key: Record -> int)
    requires i < a.Length
    requires PrefixSorted(a[..], i, key)
    modifies a
    ensures PrefixSorted(a[..], i + 1, key)
    ensures multiset(a[..]) == multiset(old(a[..]))
  {
    var j := i;
    while j > 0 && key(a[j - 1]) < key(a[j])
      invariant 0 <= j <= i
      invariant multiset(a[..]) == multiset(old(a[..]))
      invariant Inserting(a[..], i, j, key)
    {
      InsertingStep(a[..], i, j, key);
      Swap(a, j - 1, j);
      j := j - 1;
    }
    InsertingDone(a[..], i, j, key);
  }

  /**
   * `data.sort((a, b) => key(b) - key(a))`, in place: afterwards the array is a permutation
   * of what it held and its keys are non-increasing.
   */
  method SortDescBy(a: array<Record>, key: Record -> int)
    modifies a
    ensures SortedDescBy(a[..], key)
    ensures multiset(a[..]) == multiset(old(a[..]))
  {
    var i := 0;
    while i < a.Length
      invariant 0 <= i <= a.Length
      invariant PrefixSorted(a[..], i, key)
      invariant multiset(a[..]) == multiset(old(a[..]))
    {
      InsertDown(a, i, key);
      i := i + 1;
    }
  }

  /** `text` is `YS` followed by the non-empty digit string `d`. */
  predicate YsDigits(text: string, d: string) {
    d != [] && AllDigits(d) && text == "YS" + d
  }

  lemma YsDigitsShape(text: string)
    ensures forall d :: YsDigits(text, d) ==> |text| > 2 && text[..2] == "YS" && text[2..] == d
  {
    forall d | YsDigits(text, d)
      ensures |text| > 2 && text[..2] == "YS" && text[2..] == d
    {
    }
  }

  /**
   * The number matched by `/^YS(\d+)$/` in `String(item.code)`: present exactly when the code
   * is `YS` followed by one or more decimal digits, and then the value of those digits.
   */
  function CodeSuffix(item: Record): (n: Option<nat>)
    ensures forall d :: YsDigits(CodeText(item), d) ==> n == Some(ParseDigits(d))
    ensures n.Some? ==> |CodeText(item)| > 2 && YsDigits(CodeText(item), CodeText(item)[2..])
  {
    var text := CodeText(item);
    YsDigitsShape(text);
    if |text| > 2 && text[..2] == "YS" && AllDigits(text[2..]) then
      assert YsDigits(text, text[2..]);
      Some(ParseDigits(text[2..]))
    else
      None
  }

  /** The largest number present in `ns`, or 0 when none is. */
  function MaxPresent(ns: seq<Option<nat>>): (m: nat)
    ensures forall i :: 0 <= i < |ns| && ns[i].Some? ==> ns[i].value <= m
    ensures m == 0 || exists i :: 0 <= i < |ns| && ns[i] == Some(m)
    decreases |ns|
  {
    if ns == [] then 0
    else
      var before := MaxPresent(ns[..|ns| - 1]);
      assert forall i :: 0 <= i < |ns| - 1 ==> ns[..|ns| - 1][i] == ns[i];
      match ns[|ns| - 1]
      case Some(n) => if n > before then n else before
      case None => before
  }

  /**
   * The `reduce` in `nextArtworkCode`: the largest `YS` suffix, or 0 when no code has the
   * `YS<digits>` form.
   */
  function MaxCodeSuffix(rs: seq<Record>): (m: nat)
    ensures forall i :: 0 <= i < |rs| && CodeSuffix(rs[i]).Some? ==> CodeSuffix(rs[i]).value <= m
    ensures m == 0 || exists i :: 0 <= i < |rs| && CodeSuffix(rs[i]) == Some(m)
  {
    MaxPresent(MapSeq(CodeSuffix, rs))
  }

  /** `nextArtworkCode`: `YS` followed by one more than the largest suffix. */
  function NextCode(rs: seq<Record>): (code: string)
    ensures (forall i :: 0 <= i < |rs| ==> CodeSuffix(rs[i]).None?) ==> code == "YS1"
    ensures StartsWith(code, "YS")
  {
    "YS" + NatToString(MaxCodeSuffix(rs) + 1)
  }

  /**
   * `items.some(item => item.code === code)`: any item holding the same code counts, a
   * missing code matches every item without one, and `NaN` matches nothing.
   */
  function CodeTaken(rs: seq<Record>, code: Option<Value>): (b: bool)
    ensures code != Some(NaN) && (exists i :: 0 <= i < |rs| && Get(rs[i], "code") == code) ==> b
    ensures code == None ==> (b <==> exists i :: 0 <= i < |rs| && "code" !in rs[i])
    ensures b ==> code != Some(NaN)
  {
    exists i :: 0 <= i < |rs| && StrictEquals(Get(rs[i], "code"), code)
  }

  /** `YS` followed by the decimal notation of `n` matches `/^YS(\d+)$/` with suffix `n`. */
  lemma {:induction false} YsCodeSuffix(n: nat)
    ensures CodeSuffix(map["code" := Str("YS" + NatToString(n))]) == Some(n)
  {
    var digits := NatToString(n);
    var text := "YS" + digits;
    var item := map["code" := Str(text)];
    assert Get(item, "code") == Some(Str(text));
    assert CodeText(item) == text;
    assert text[..2] == "YS";
    assert text[2..] == digits;
    ParseNatToString(n);
  }

  /** The generated code matches `/^YS\d+$/` with a suffix one above every existing suffix. */
  lemma {:induction false} NextCodeSuffix(rs: seq<Record>)
    ensures CodeSuffix(map["code" := Str(NextCode(rs))]) == Some(MaxCodeSuffix(rs) + 1)
  {
    YsCodeSuffix(MaxCodeSuffix(rs) + 1);
  }

  /** The generated code is never one already in the list, so adding with it succeeds. */
  lemma {:induction false} NextCodeIsFresh(rs: seq<Record>)
    ensures !CodeTaken(rs, Some(Str(NextCode(rs))))
  {
    var code := NextCode(rs);
    NextCodeSuffix(rs);
    forall i | 0 <= i < |rs|
      ensures Get(rs[i], "code") != Some(Str(code))
    {
      assert CodeSuffix(rs[i]) != CodeSuffix(map["code" := Str(code)]);
      assert CodeText(rs[i]) != code;
    }
  }

  /** The suffixes of the three example codes: two in the `YS<digits>` form, one not. */
  lemma ExampleSuffixes()
    ensures CodeSuffix(map["code" := Str("YS3")]) == Some(3)
    ensures CodeSuffix(map["code" := Str("YS7")]) == Some(7)
    ensures CodeSuffix(map["code" := Str("A12")]) == None
  {
    YsCodeSuffix(3);
    YsCodeSuffix(7);
    assert NatToString(3) == "3" && NatToString(7) == "7";
    var c := map["code" := Str("A12")];
    assert CodeText(c) == "A12" && "A12"[..2] == "A1";
  }

  /** The largest suffix among YS3, YS7 and A12 is 7. */
  lemma ExampleMaxSuffix()
    ensures MaxCodeSuffix([map["code" := Str("YS3")], map["code" := Str("YS7")], map["code" := Str("A12")]]) == 7
  {
    var rs := [map["code" := Str("YS3")], map["code" := Str("YS7")], map["code" := Str("A12")]];
    ExampleSuffixes();
    var three: Option<nat>, seven: Option<nat>, none: Option<nat> := Some(3), Some(7), None;
    var ns := MapSeq(CodeSuffix, rs);
    assert ns == [three, seven, none];
    var first, firstTwo, empty: seq<Option<nat>> := [three], [three, seven], [];
    assert ns[..2] == firstTwo && firstTwo[..1] == first && first[..0] == empty;
    assert MaxPresent(first) == 3;
    assert MaxPresent(firstTwo) == 7;
  }

  /** Codes `YS3` and `YS7` and a code of another form give `YS8`. */
  lemma NextCodeExample()
    ensures NextCode([map["code" := Str("YS3")], map["code" := Str("YS7")], map["code" := Str("A12")]]) == "YS8"
  {
    ExampleMaxSuffix();
    assert NatToString(8) == "8";
  }

  /**
   * The fields after a save: `Object.assign(artwork, normalisedDraft)` keeps every committed
   * field the draft lacks and takes every other one, normalised, from the draft.
   */
  function SavedArtwork(committed: Record, draft: Record): (r: Record)
    ensures r.Keys == committed.Keys + NormaliseArtwork(draft).Keys
    ensures forall k :: k in NormaliseArtwork(draft) ==> r[k] == NormaliseArtwork(draft)[k]
    ensures forall k :: k in committed && k !in draft && !IsNumericKey(k) ==> r[k] == committed[k]
    ensures NumericFields(r)
  {
    committed + NormaliseArtwork(draft)
  }

  /** When the draft still has every committed field (as after a start), the save commits exactly the normalised draft. */
  lemma SaveCommitsDraft(committed: Record, draft: Record)
    requires committed.Keys <= draft.Keys
    ensures SavedArtwork(committed, draft) == NormaliseArtwork(draft)
  {
    var r, d := SavedArtwork(committed, draft), NormaliseArtwork(draft);
    assert r.Keys == d.Keys;
    forall k | k in r
      ensures r[k] == d[k]
    {
    }
  }

  /** `items.filter(item => item.code !== code)` */
  function WithoutCode(es: seq<Entry>, code: Option<Value>): (r: seq<Entry>)
    reads es
    ensures IsSubsequence(r, es)
    ensures forall e :: e in r ==> e in es && !StrictEquals(Get(e.fields, "code"), code)
    ensures forall e :: e in es && !StrictEquals(Get(e.fields, "code"), code) ==> multiset(r)[e] == multiset(es)[e]
    decreases |es|
  {
    if es == [] then []
    else
      var rest := WithoutCode(es[1..], code);
      assert es == [es[0]] + es[1..];
      if !StrictEquals(Get(es[0].fields, "code"), code) then [es[0]] + rest else rest
  }

  /** Keys of the internal export, in the order the object literal lists them. */
  const InternalKeys: set<string> :=
    {"code", "title", "artist", "technique", "size", "year", "buyPrice", "sellPrice", "stockDate", "setName"}

  /** Keys of the external export. */
  const ExternalKeys: set<string> := {"code", "title", "artist", "technique", "size", "year", "setName"}

  /** The fields an export always writes: the renormalised numbers and `setName || null`. */
  predicate AlwaysExported(k: string) {
    IsNumericKey(k) || k == "setName"
  }

  /** The exported value of one listed field. */
  function ExportValue(item: Record, k: string): Value
    requires AlwaysExported(k) || k in item
  {
    if IsNumericKey(k) then NumericOrNull(item, k)
    else if k == "setName" then ValueOrNull(item, k)
    else item[k]
  }

  /**
   * `const {k1, ..., kn} = item; return {k1, ..., kn}` with the numeric fields and `setName`
   * rewritten; a plain field that is `undefined` is left out of the JSON.
   */
  function Projection(item: Record, keys: set<string>): (out: Record)
    ensures out.Keys <= keys
    ensures forall k :: k in keys && AlwaysExported(k) ==> Get(out, k) == Some(ExportValue(item, k))
    ensures forall k :: k in keys && !AlwaysExported(k) ==> Get(out, k) == Get(item, k)
  {
    map k | k in keys && (AlwaysExported(k) || k in item) :: ExportValue(item, k)
  }

  /**
   * One record of `downloadInternalJson`: the ten listed fields only; the numeric ones
   * renormalised, `setName || null`, and the plain ones copied when defined.
   */
  function InternalRecord(item: Record): (out: Record)
    ensures out.Keys <= InternalKeys
    ensures forall k :: IsNumericKey(k) ==> Get(out, k) == Some(NumericOrNull(item, k))
    ensures Get(out, "setName") == Some(ValueOrNull(item, "setName"))
    ensures forall k :: k in InternalKeys && !AlwaysExported(k) ==> Get(out, k) == Get(item, k)
  {
    Projection(item, InternalKeys)
  }

  /** One record of `downloadExternalJson`: the seven public fields, with no prices, stock date or image URL. */
  function ExternalRecord(item: Record): (out: Record)
    ensures out.Keys <= ExternalKeys
    ensures "buyPrice" !in out && "sellPrice" !in out && "stockDate" !in out && "imageUrl" !in out
    ensures Get(out, "year") == Some(NumericOrNull(item, "year"))
    ensures Get(out, "setName") == Some(ValueOrNull(item, "setName"))
    ensures forall k :: k in ExternalKeys && !AlwaysExported(k) ==> Get(out, k) == Get(item, k)
  {
    Projection(item, ExternalKeys)
  }

  /** The external export is the internal one without the private fields. */
  lemma ExternalIsInternalWithoutPrivate(item: Record)
    ensures ExternalRecord(item) == InternalRecord(item) - {"buyPrice", "sellPrice", "stockDate"}
  {
    assert ExternalKeys == InternalKeys - {"buyPrice", "sellPrice", "stockDate"};
  }

  /**
   * The body of the load: copy the fetched records into an array, sort it in place by
   * descending code, then normalise each record.
   */
  method SortAndNormalise(data: seq<Record>) returns (rs: seq<Record>)
    ensures |rs| == |data|
    ensures multiset(rs) == multiset(MapSeq(NormaliseArtwork, data))
    ensures SortedByCodeDesc(rs)
    ensures forall i :: 0 <= i < |rs| ==> NumericFields(rs[i])
  {
    var a := new Record[|data|](i requires 0 <= i < |data| => data[i]);
    assert a[..] == data;
    SortDescBy(a, CodeRank);
    rs := MapSeq(NormaliseArtwork, a[..]);
    MapRespectsPermutation(NormaliseArtwork, a[..], data);
    NormalisePreservesOrder(a[..]);
  }

  class ArtworkStore {
    var artworks: seq<Entry>
    var loading: bool
    var error: Option<string>

    constructor ()
      ensures artworks == [] && loading && error == None
    {
      artworks := [];
      loading := true;
      error := None;
    }

    /**
     * The mounted load: a failed fetch records the error and leaves the list as it was;
     * otherwise the records are sorted by descending code in place and each becomes one
     * normalised item.
     */
    method Load(response: Fetch)
      modifies this
      ensures !loading
      ensures response.FetchFailed? ==> artworks == old(artworks) && error == Some(response.message)
      ensures response.Fetched? ==>
        && error == old(error)
        && |artworks| == |response.data|
        && multiset(Fields(artworks)) == multiset(MapSeq(NormaliseArtwork, response.data))
        && SortedByCodeDesc(Fields(artworks))
        && (forall i :: 0 <= i < |artworks| ==> fresh(artworks[i]) && artworks[i].Idle())
        && (forall i :: 0 <= i < |artworks| ==> NumericFields(artworks[i].fields))
    {
      match response {
        case FetchFailed(message) =>
          error := Some(message);
        case Fetched(data) =>
          var normalised := SortAndNormalise(data);
          artworks := NewEntries(normalised);
          assert |artworks| == |Fields(artworks)|;
          forall i | 0 <= i < |artworks|
            ensures NumericFields(artworks[i].fields)
          {
            assert artworks[i].fields == Fields(artworks)[i];
          }
      }
      loading := false;
    }

    /** `nextArtworkCode` over the current list. */
    function NextArtworkCode(): (code: string)
      reads this, artworks
      ensures !CodeTaken(Fields(artworks), Some(Str(code)))
    {
      NextCodeIsFresh(Fields(artworks));
      NextCode(Fields(artworks))
    }

    /**
     * `addArtwork`: refused, with nothing changed, when some item's code is `===` the new
     * one; otherwise the raw data becomes a new item at the head of the list.
     */
    method AddArtwork(newArtData: Record) returns (added: bool)
      modifies this
      ensures loading == old(loading) && error == old(error)
      ensures added <==> !CodeTaken(old(Fields(artworks)), Get(newArtData, "code"))
      ensures !added ==> artworks == old(artworks)
      ensures added ==>
        && |artworks| == |old(artworks)| + 1 && artworks[1..] == old(artworks)
        && fresh(artworks[0]) && artworks[0].Idle() && artworks[0].fields == newArtData
    {
      if CodeTaken(Fields(artworks), Get(newArtData, "code")) {
        added := false;
      } else {
        var e := new Entry(newArtData);
        artworks := [e] + artworks;
        added := true;
      }
    }

    method StartEditingArtwork(artwork: Entry)
      modifies artwork
      ensures artwork.fields == old(artwork.fields) && artwork.isEditing
      ensures artwork.originalDataCopy == old(artwork.fields) && artwork.editedData == old(artwork.fields)
    {
      artwork.StartEditing();
    }

    /**
     * `saveEditedArtwork`: normalises the draft in place, assigns it over the item, ends
     * editing and snapshots the new state.
     */
    method SaveEditedArtwork(artwork: Entry)
      modifies artwork
      ensures artwork.editedData == NormaliseArtwork(old(artwork.editedData))
      ensures artwork.fields == SavedArtwork(old(artwork.fields), old(artwork.editedData))
      ensures !artwork.isEditing && artwork.originalDataCopy == artwork.fields
      ensures old(artwork.fields).Keys <= old(artwork.editedData).Keys ==> artwork.fields == artwork.editedData
    {
      if artwork.fields.Keys <= artwork.editedData.Keys {
        SaveCommitsDraft(artwork.fields, artwork.editedData);
      }
      artwork.editedData := NormaliseArtwork(artwork.editedData);
      artwork.fields := artwork.fields + artwork.editedData;
      artwork.isEditing := false;
      artwork.originalDataCopy := artwork.fields;
    }

    method CancelEditingArtwork(artwork: Entry)
      modifies artwork
      ensures artwork.fields == old(artwork.fields) && artwork.originalDataCopy == old(artwork.originalDataCopy)
      ensures !artwork.isEditing && artwork.editedData == old(artwork.originalDataCopy)
      ensures old(artwork.SnapshotCurrent()) ==> artwork.editedData == artwork.fields
    {
      artwork.CancelEditing();
    }

    /**
     * `deleteArtwork`, with the answer to `confirm` as a parameter: when confirmed, every item
     * whose code is `===` the target's goes and the rest keep their order; otherwise nothing
     * changes.
     */
    method DeleteArtwork(artwork: Entry, confirmed: bool)
      modifies this
      ensures loading == old(loading) && error == old(error)
      ensures !confirmed ==> artworks == old(artworks)
      ensures confirmed ==> artworks == WithoutCode(old(artworks), Get(artwork.fields, "code"))
    {
      if confirmed {
        artworks := WithoutCode(artworks, Get(artwork.fields, "code"));
      }
    }

    /** The data `downloadInternalJson` serialises, one record per item in list order. */
    function DownloadInternalJson(): (out: seq<Record>)
      reads this, artworks
      ensures |out| == |artworks|
      ensures forall i :: 0 <= i < |out| ==> out[i] == InternalRecord(artworks[i].fields) && out[i].Keys <= InternalKeys
    {
      MapSeq(InternalRecord, Fields(artworks))
    }

    /** The data `downloadExternalJson` serialises, one record per item in list order. */
    function DownloadExternalJson(): (out: seq<Record>)
      reads this, artworks
      ensures |out| == |artworks|
      ensures forall i :: 0 <= i < |out| ==> out[i] == ExternalRecord(artworks[i].fields)
      ensures forall i :: 0 <= i < |out| ==> "buyPrice" !in out[i] && "sellPrice" !in out[i] && "stockDate" !in out[i]
    {
      MapSeq(ExternalRecord, Fields(artworks))
    }
  }
}
