/** The clipboard flavors the overlay asks for, in priority order (getOrderedFlavors). */
module Flavors {

  const ImageJpeg: string := "image/jpeg"
  const ImageJpg: string := "image/jpg"
  const ImagePng: string := "image/png"
  const ImageGif: string := "image/gif"
  const MozFile: string := "application/x-moz-file"
  const MozUrl: string := "text/x-moz-url"
  const TextHtml: string := "text/html"
  const TextUnicode: string := "text/unicode"
  /** Handled by the dispatch, but never put in the requested list. */
  const TextPlain: string := "text/plain"

  /** The non-image formats that close every priority list, in this order. */
  const FixedTail: seq<string> := [MozFile, MozUrl, TextHtml, TextUnicode]

  /** `flavor.indexOf("image/") === 0`: the flavor starts with "image/". */
  predicate IsImageFlavor(flavor: string)
  {
    |flavor| >= 6 && flavor[..6] == "image/"
  }

  predicate Distinct(s: seq<string>)
  {
    forall i, j :: 0 <= i < j < |s| ==> s[i] != s[j]
  }

  /** The image formats in the order the preference `clipboard.paste_image_type` selects;
      1 and every value other than 0 and 2 take the `default` arm. */
  function ImageOrder(pasteImageType: int): seq<string>
  {
    match pasteImageType
    case 0 => [ImageJpeg, ImageJpg, ImagePng, ImageGif]
    case 2 => [ImageGif, ImageJpeg, ImageJpg, ImagePng]
    case _ => [ImagePng, ImageJpeg, ImageJpg, ImageGif]
  }

  /** The specification of the list getOrderedFlavors builds. */
  function OrderedFlavors(pasteImageType: int): seq<string>
  {
    ImageOrder(pasteImageType) + FixedTail
  }

  /** getOrderedFlavors: the list is built by successive pushes inside a switch. */
  method GetOrderedFlavors(pasteImageType: int) returns (flavors: seq<string>)
    ensures flavors == OrderedFlavors(pasteImageType)
  {
    flavors := [];
    if pasteImageType == 0 {
      flavors := flavors + [ImageJpeg];
      flavors := flavors + [ImageJpg];
      flavors := flavors + [ImagePng];
      flavors := flavors + [ImageGif];
    } else if pasteImageType == 2 {
      flavors := flavors + [ImageGif];
      flavors := flavors + [ImageJpeg];
      flavors := flavors + [ImageJpg];
      flavors := flavors + [ImagePng];
    } else {
      flavors := flavors + [ImagePng];
      flavors := flavors + [ImageJpeg];
      flavors := flavors + [ImageJpg];
      flavors := flavors + [ImageGif];
    }
    flavors := flavors + [MozFile];
    flavors := flavors + [MozUrl];
    flavors := flavors + [TextHtml];
    flavors := flavors + [TextUnicode];
  }

  /** The image part of the list for each preference value. */
  lemma PreferenceImageOrder(pasteImageType: int)
    ensures pasteImageType == 0 ==>
      OrderedFlavors(pasteImageType)[..4] == [ImageJpeg, ImageJpg, ImagePng, ImageGif]
    ensures pasteImageType == 2 ==>
      OrderedFlavors(pasteImageType)[..4] == [ImageGif, ImageJpeg, ImageJpg, ImagePng]
    ensures pasteImageType != 0 && pasteImageType != 2 ==>
      OrderedFlavors(pasteImageType)[..4] == [ImagePng, ImageJpeg, ImageJpg, ImageGif]
  {
  }

  /** Every list has eight distinct entries: four image formats followed by the fixed tail. */
  lemma OrderedFlavorsShape(pasteImageType: int)
    ensures |OrderedFlavors(pasteImageType)| == 8
    ensures OrderedFlavors(pasteImageType)[4..] == FixedTail
    ensures OrderedFlavors(pasteImageType)[4..] ==
      ["application/x-moz-file", "text/x-moz-url", "text/html", "text/unicode"]
    ensures forall k :: 0 <= k < 4 ==> IsImageFlavor(OrderedFlavors(pasteImageType)[k])
    ensures forall k :: 4 <= k < 8 ==> !IsImageFlavor(OrderedFlavors(pasteImageType)[k])
    ensures Distinct(OrderedFlavors(pasteImageType))
  {
    var r := OrderedFlavors(pasteImageType);
    forall k | 4 <= k < 8
      ensures !IsImageFlavor(r[k])
    {
      assert r[k][0] != 'i';
    }
  }

  /** The image part holds each image format once, whatever the preference. */
  lemma ImageOrderMultiset(pasteImageType: int)
    ensures multiset(ImageOrder(pasteImageType)) == multiset{ImageJpeg, ImageJpg, ImagePng, ImageGif}
  {

  }

  /** Whatever the preference, the list is a permutation of the same eight flavors. */
  lemma OrderedFlavorsPermutation(p: int, q: int)
    ensures multiset(OrderedFlavors(p)) == multiset(OrderedFlavors(q))
    ensures multiset(OrderedFlavors(p)) ==
      multiset{ImageJpeg, ImageJpg, ImagePng, ImageGif, MozFile, MozUrl, TextHtml, TextUnicode}
  {
    ImageOrderMultiset(p);
    ImageOrderMultiset(q);
    assert multiset(FixedTail) == multiset{MozFile, MozUrl, TextHtml, TextUnicode};
  }

  /** "text/plain" is never requested, whatever the preference. */
  lemma PlainTextNeverRequested(pasteImageType: int)
    ensures TextPlain !in OrderedFlavors(pasteImageType)
  {
  }
}
