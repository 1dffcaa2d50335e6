/** The global clipboard as the overlay sees it: which flavors are present, and
    which one the host hands back for a list of requested flavors. */
module Clipboard {
  import opened Wrappers
  import opened Flavors

  /** The data behind a flavor: an input stream of bytes for images, a string for
      the text flavors, a file handle for "application/x-moz-file". */
  datatype Payload = Stream(bytes: seq<bv8>) | Text(text: string) | File(path: string)

  /** The clipboard: every flavor present, with its data. */
  type Contents = map<string, Payload>

  /** What getDataFromClipboard returns; its `length` field is used by no caller and is left out. */
  datatype ClipData = ClipData(flavor: string, data: Payload)

  /** The error getAnyTransferData raises when no requested flavor is present. */
  const NoData: string := "NS_ERROR_FAILURE"

  /** The host's hasDataMatchingFlavors: some requested flavor is present. */
  predicate HasDataMatchingFlavors(flavors: seq<string>, present: set<string>)
  {
    exists k :: 0 <= k < |flavors| && flavors[k] in present
  }

  /** The index of the first item of a list that is in a set: the first requested flavor
      that is present (and, for unload, the first file whose removal throws). */
  function FirstPresent<T>(items: seq<T>, present: set<T>): (r: Option<nat>)
    ensures r.None? <==> forall k :: 0 <= k < |items| ==> items[k] !in present
    ensures r.Some? ==> r.value < |items| && items[r.value] in present
    ensures r.Some? ==> forall k :: 0 <= k < r.value ==> items[k] !in present
  {
    if items == [] then None
    else if items[0] in present then Some(0)
    else match FirstPresent(items[1..], present)
      case None => None
      case Some(i) => Some(i + 1)
  }

  /** The host's getAnyTransferData after getData: the first requested flavor present, with its data. */
  function GetAnyTransferData(requested: seq<string>, clip: Contents): Result<ClipData>
  {
    match FirstPresent(requested, clip.Keys)
    case None => Err(NoData)
    case Some(k) => Ok(ClipData(requested[k], clip[requested[k]]))
  }

  /** canAttach: whether any flavor of the priority list is on the clipboard.
      It holds exactly when the host would hand back some flavor for that list. */
  function CanAttach(clip: Contents, pasteImageType: int): (r: bool)
    ensures r <==> FirstPresent(OrderedFlavors(pasteImageType), clip.Keys).Some?
    ensures r <==> GetAnyTransferData(OrderedFlavors(pasteImageType), clip).Ok?
  {
    HasDataMatchingFlavors(OrderedFlavors(pasteImageType), clip.Keys)
  }

  /** canAttach does not depend on the preference: every list holds the same flavors. */
  lemma CanAttachIgnoresPreference(clip: Contents, p: int, q: int)
    ensures CanAttach(clip, p) == CanAttach(clip, q)
  {
    OrderedFlavorsPermutation(p, q);
    if CanAttach(clip, p) {
      var k :| 0 <= k < |OrderedFlavors(p)| && OrderedFlavors(p)[k] in clip;
      assert OrderedFlavors(p)[k] in multiset(OrderedFlavors(q));
    }
    if CanAttach(clip, q) {
      var k :| 0 <= k < |OrderedFlavors(q)| && OrderedFlavors(q)[k] in clip;
      assert OrderedFlavors(q)[k] in multiset(OrderedFlavors(p));
    }
  }

  /** A clipboard holding only plain text offers nothing to attach. */
  lemma PlainTextOnlyCannotAttach(text: string, pasteImageType: int)
    ensures !CanAttach(map[TextPlain := Text(text)], pasteImageType)
  {

  }

  /** getDataFromClipboard: the priority list is added to a transferable one flavor at a
      time, then the host returns the first of them that is present. */
  method GetDataFromClipboard(clip: Contents, pasteImageType: int) returns (r: Result<ClipData>)
    ensures r == GetAnyTransferData(OrderedFlavors(pasteImageType), clip)
    ensures r.Ok? <==> CanAttach(clip, pasteImageType)
    ensures r.Err? ==> r.error == NoData
    ensures r.Ok? ==> r.value.flavor in clip && r.value.data == clip[r.value.flavor]
    ensures r.Ok? ==>
      exists k :: 0 <= k < |OrderedFlavors(pasteImageType)| &&
        OrderedFlavors(pasteImageType)[k] == r.value.flavor &&
        forall j :: 0 <= j < k ==> OrderedFlavors(pasteImageType)[j] !in clip
  {
    var flavors := GetOrderedFlavors(pasteImageType);
    var requested: seq<string> := [];
    var i := 0;
    while i < |flavors|
      invariant 0 <= i <= |flavors|
      invariant requested == flavors[..i]
    {
      requested := requested + [flavors[i]];
      i := i + 1;
    }
    assert requested == flavors;
    r := GetAnyTransferData(requested, clip);
  }
}
