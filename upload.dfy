/**
 * The upload handlers of src/Utils/PngUtils.ts. A file selection
 * (`input.files`) is `None` when the input has no file list and otherwise the
 * selected files in order. `URL.createObjectURL` is a host call and is passed
 * in as `createObjectUrl`.
 */
module Upload {
  import opened Wrappers
  import opened FilenameKey
  import opened NumericOrder

  /** `{ url, name }`: an uploaded sequence image or overlay. */
  datatype Asset = Asset(url: string, name: string)

  /** `{ audioSrc, audioFileName }`: the uploaded audio track. */
  datatype AudioAsset = AudioAsset(audioSrc: string, audioFileName: string)

  /** `Capture${index}`: `Capture` followed by the decimal rendering of `index`, whose digits
      `parseInt` reads back as `index`. */
  function CaptureName(index: nat): (r: string)
    ensures |r| > 7 && r[..7] == "Capture"
    ensures r[7..] == NatToString(index)
    ensures AllDigits(r[7..]) && DecimalValue(r[7..]) == index
  {
    var r := "Capture" + NatToString(index);
    assert r[7..] == NatToString(index);
    r
  }

  /** The key the sequence comparator reads from `Capture${index}` is `index` again. */
  lemma CaptureNameKey(index: nat)
    ensures Key(CaptureName(index)) == index
  {
    assert CaptureName(index) == "Capture" + NatToString(index) + [];
    KeyOfRenderedNumber("Capture", index, []);
  }

  /** The `map` of handlePNGSequenceUpload: the k-th file (from 0) becomes `Capture<k+1>`. */
  function CaptureAssets(sorted: seq<File>, createObjectUrl: File -> string): (r: seq<Asset>)
    ensures |r| == |sorted|
    ensures forall k :: 0 <= k < |r| ==> r[k] == Asset(createObjectUrl(sorted[k]), CaptureName(k + 1))
  {
    seq(|sorted|, k requires 0 <= k < |sorted| => Asset(createObjectUrl(sorted[k]), CaptureName(k + 1)))
  }

  /** handlePNGSequenceUpload: the selected files ordered by their numeric key, renamed `Capture1..CaptureN`. */
  function HandlePngSequenceUpload(files: Option<seq<File>>, createObjectUrl: File -> string): (r: seq<Asset>)
    ensures files.None? ==> r == []
    ensures files.Some? ==> |r| == |files.value|
    ensures forall k :: 0 <= k < |r| ==> r[k].name == CaptureName(k + 1)
  {
    match files
    case None => []
    case Some(selected) => CaptureAssets(SortBy(selected, FileKey), createObjectUrl)
  }

  /** The asset of each position comes from the file any stable sort by key puts there:
      the order of the result is ordered by key, equal keys in selection order. */
  lemma SequenceUploadOrder(selected: seq<File>, sorted: seq<File>, createObjectUrl: File -> string)
    requires IsStableSortBy(selected, sorted, FileKey)
    ensures var r := HandlePngSequenceUpload(Some(selected), createObjectUrl);
      |r| == |sorted| && forall k :: 0 <= k < |r| ==> r[k].url == createObjectUrl(sorted[k])
  {
    StableSortIsSortBy(selected, sorted, FileKey);
  }

  /** The result holds one asset per selected file: its files are a permutation of the selection. */
  lemma SequenceUploadPermutation(selected: seq<File>, createObjectUrl: File -> string)
    ensures var r := HandlePngSequenceUpload(Some(selected), createObjectUrl);
      exists sorted: seq<File> :: multiset(sorted) == multiset(selected) && SortedBy(sorted, FileKey)
        && |sorted| == |r| && forall k :: 0 <= k < |r| ==> r[k].url == createObjectUrl(sorted[k])
  {
    var sorted := SortBy(selected, FileKey);
    assert multiset(sorted) == multiset(selected) && SortedBy(sorted, FileKey);
  }

  /** No two results share a name, whatever the original file names were. */
  lemma {:induction false} CaptureNamesDistinct(selected: seq<File>, createObjectUrl: File -> string, i: nat, j: nat)
    requires i < |selected| && j < |selected| && i != j
    ensures var r := HandlePngSequenceUpload(Some(selected), createObjectUrl); r[i].name != r[j].name
  {
    var r := HandlePngSequenceUpload(Some(selected), createObjectUrl);
    CaptureNameKey(i + 1);
    CaptureNameKey(j + 1);
  }

  /** The first selected file, when there is one. */
  function FirstFile(files: Option<seq<File>>): (r: Option<File>)
    ensures r.None? <==> files.None? || files.value == []
    ensures r.Some? ==> r.value == files.value[0]
  {
    match files
    case None => None
    case Some(selected) => if selected == [] then None else Some(selected[0])
  }

  /** handleTopOverlayUpload: null without a selected file, else the first file's URL and its own name. */
  function HandleTopOverlayUpload(files: Option<seq<File>>, createObjectUrl: File -> string): (r: Option<Asset>)
    ensures r.None? <==> files.None? || |files.value| == 0
    ensures r.Some? ==> r.value == Asset(createObjectUrl(files.value[0]), files.value[0].name)
  {
    match FirstFile(files)
    case None => None
    case Some(file) => Some(Asset(createObjectUrl(file), file.name))
  }

  /** handleBottomOverlayUpload: null without a selected file, else the first file's URL and its own name. */
  function HandleBottomOverlayUpload(files: Option<seq<File>>, createObjectUrl: File -> string): (r: Option<Asset>)
    ensures r.None? <==> files.None? || |files.value| == 0
    ensures r.Some? ==> r.value == Asset(createObjectUrl(files.value[0]), files.value[0].name)
  {
    match FirstFile(files)
    case None => None
    case Some(file) => Some(Asset(createObjectUrl(file), file.name))
  }

  /** handleAudioUpload: null without a selected file, else the first file's URL and its own name. */
  function HandleAudioUpload(files: Option<seq<File>>, createObjectUrl: File -> string): (r: Option<AudioAsset>)
    ensures r.None? <==> files.None? || |files.value| == 0
    ensures r.Some? ==> r.value == AudioAsset(createObjectUrl(files.value[0]), files.value[0].name)
  {
    match FirstFile(files)
    case None => None
    case Some(file) => Some(AudioAsset(createObjectUrl(file), file.name))
  }

  /** The single-file handlers look at the first selected file only: selections that start
      with the same file give the same result. */
  lemma SingleFileHandlersUseFirstOnly(a: seq<File>, b: seq<File>, createObjectUrl: File -> string)
    requires a != [] && b != [] && a[0] == b[0]
    ensures HandleTopOverlayUpload(Some(a), createObjectUrl) == HandleTopOverlayUpload(Some(b), createObjectUrl)
    ensures HandleBottomOverlayUpload(Some(a), createObjectUrl) == HandleBottomOverlayUpload(Some(b), createObjectUrl)
    ensures HandleAudioUpload(Some(a), createObjectUrl) == HandleAudioUpload(Some(b), createObjectUrl)
  {
  }
}
