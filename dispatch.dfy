/** The classification step of attachFromClipboard: what the overlay does with the
    flavor and data the clipboard handed back. */
module Dispatch {
  import opened Wrappers
  import opened Flavors
  import opened Lines
  import opened Clipboard

  /** A link-style attachment built from a "text/x-moz-url" payload; no file is involved. */
  datatype Link = Link(url: string, name: Option<string>, size: Option<string>)

  /** What one attach request does once the data is classified. */
  datatype Action =
    | NoAction                                  // nothing to attach, or an unhandled flavor
    | CopyImage(fileName: string, data: Payload)  // create a temporary file, then stream the data into it
    | WriteText(fileName: string, text: string) // write the text as UTF-8 into a new temporary file
    | AttachLink(link: Link)                    // hand a link attachment to the compose window
    | AttachFile(path: string)                  // hand the clipboard's own file to the compose window
    | Fail(error: string)                       // an exception, reported to the user
  {
    /** The arm creates a temporary file (once its host calls return). */
    predicate CreatesTempFile()
    {
      CopyImage? || WriteText?
    }

    /** The copy into the new file starts: text always converts to a stream, while the
        image arm hands the clipboard data to the copy as it is, and only a stream is accepted. */
    predicate CopyStarts()
    {
      WriteText? || (CopyImage? && data.Stream?)
    }
  }

  /** The error raised when data is not of the interface its use requires: a QueryInterface
      in the text and file arms, the stream copy in the image arm. */
  const NoInterface: string := "NS_NOINTERFACE"

  /** The temporary file's extension for an image flavor. */
  function ImageExtension(flavor: string): string
  {
    if flavor == ImagePng then "png" else if flavor == ImageGif then "gif" else "jpg"
  }

  /** The fields of a link attachment: the first line is the URL, the second (if any) the
      name, the third (if any) the size; later lines are ignored. */
  function ParseUrlPayload(text: string): Link
  {
    var lines := SplitLines(text);
    Link(lines[0],
         if |lines| > 1 then Some(lines[1]) else None,
         if |lines| > 2 then Some(lines[2]) else None)
  }

  /** The dispatch chain of attachFromClipboard, its tests taken in source order. The image
      arm does not look at the data: whether it is a stream shows only when the copy starts. */
  function Classify(flavor: string, data: Payload): Action
  {
    if IsImageFlavor(flavor) then
      CopyImage("image." + ImageExtension(flavor), data)
    else if flavor == TextHtml then
      (if data.Text? then WriteText("document.html", data.text) else Fail(NoInterface))
    else if flavor == MozUrl then
      (if data.Text? then AttachLink(ParseUrlPayload(data.text)) else Fail(NoInterface))
    else if flavor == TextUnicode || flavor == TextPlain then
      (if data.Text? then WriteText("document.txt", data.text) else Fail(NoInterface))
    else if flavor == MozFile then
      (if data.File? then AttachFile(data.path) else Fail(NoInterface))
    else
      NoAction
  }

  /** What attachFromClipboard decides for a clipboard and a preference value: nothing when
      canAttach is false, otherwise the classification of the flavor the host hands back. */
  function Resolve(clip: Contents, pasteImageType: int): Action
  {
    if !CanAttach(clip, pasteImageType) then NoAction
    else match GetAnyTransferData(OrderedFlavors(pasteImageType), clip)
      case Ok(d) => Classify(d.flavor, d.data)
      case Err(e) => Fail(e)
  }

  // ---------------------------------------------------------------------------------
  // Properties of the dispatch

  /** Every "image/" flavor is handled as an image, whatever other test it might meet. */
  lemma ImageHandledFirst(flavor: string, data: Payload)
    requires IsImageFlavor(flavor)
    ensures var a := Classify(flavor, data);
      a.CopyImage? && a.fileName[..6] == "image." && a.data == data
  {
  }

  /** The temporary file names: the image extension is png for image/png, gif for image/gif
      and jpg for every other image flavor; html becomes document.html, unicode and plain text
      document.txt; nothing else creates a file. */
  lemma TempFileName(flavor: string, data: Payload)
    ensures Classify(flavor, data).CreatesTempFile() <==>
      IsImageFlavor(flavor) ||
      ((flavor == TextHtml || flavor == TextUnicode || flavor == TextPlain) && data.Text?)
    ensures Classify(flavor, data).CreatesTempFile() ==>
      Classify(flavor, data).fileName ==
        if flavor == ImagePng then "image.png"
        else if flavor == ImageGif then "image.gif"
        else if IsImageFlavor(flavor) then "image.jpg"
        else if flavor == TextHtml then "document.html"
        else "document.txt"
  {
    var a := Classify(flavor, data);
    if IsImageFlavor(flavor) {
      assert flavor != TextHtml && flavor != TextUnicode && flavor != TextPlain by {
        assert flavor[0] == 'i';
      }
    }
  }

  /** For the image formats the overlay requests, the extension is the format's own
      subtype, except that image/jpeg is written as jpg. */
  lemma RequestedImageExtension(pasteImageType: int, k: nat)
    requires k < 4
    ensures var f := OrderedFlavors(pasteImageType)[k];
      ImageExtension(f) == (if f == ImageJpeg then "jpg" else f[6..])
  {
  }

  /** A flavor yields no action exactly when none of the dispatch tests accepts it. */
  lemma NoActionIffUnhandled(flavor: string, data: Payload)
    ensures Classify(flavor, data) == NoAction <==>
      !IsImageFlavor(flavor) && flavor !in {TextHtml, MozUrl, TextUnicode, TextPlain, MozFile}
  {
  }

  /** Every flavor the overlay requests is handled by some arm of the dispatch. */
  lemma RequestedFlavorsHandled(pasteImageType: int, k: nat, data: Payload)
    requires k < |OrderedFlavors(pasteImageType)|
    ensures Classify(OrderedFlavors(pasteImageType)[k], data) != NoAction
  {
  }

  /** A file-handle flavor is attached as that file and a URL flavor as a link; whatever
      the data, neither creates a temporary file. */
  lemma FileAndUrlWriteNothing(path: string, text: string, data: Payload)
    ensures Classify(MozFile, File(path)) == AttachFile(path)
    ensures Classify(MozUrl, Text(text)) == AttachLink(ParseUrlPayload(text))
    ensures !Classify(MozFile, data).CreatesTempFile() && !Classify(MozUrl, data).CreatesTempFile()
  {
    assert !IsImageFlavor(MozFile) by { assert MozFile[0] == 'a'; }
    assert !IsImageFlavor(MozUrl) by { assert MozUrl[0] == 't'; }
  }

  // ---------------------------------------------------------------------------------
  // Properties of the URL payload

  /** The URL is the text before the first newline (the whole text when there is none);
      the name is set iff there is a newline, the size iff there are two. */
  lemma UrlPayloadFields(text: string)
    ensures var link := ParseUrlPayload(text);
      && Newline !in link.url
      && (link.url == text <==> Newline !in text)
      && (Newline in text ==> |link.url| < |text| && text[..|link.url| + 1] == link.url + [Newline])
      && (link.name.Some? <==> NewlineCount(text) >= 1)
      && (link.size.Some? <==> NewlineCount(text) >= 2)
  {
    FirstLine(text);
    SplitLineCount(text);
  }

  /** Lines after the third do not change the link. */
  lemma UrlPayloadIgnoresExtraLines(url: string, name: string, size: string, rest: string)
    requires Newline !in url && Newline !in name && Newline !in size
    ensures ParseUrlPayload(url + [Newline] + name + [Newline] + size + [Newline] + rest) ==
      Link(url, Some(name), Some(size))
  {
    var tail := size + [Newline] + rest;
    var mid := name + [Newline] + tail;
    SplitAtNewline(size, rest);
    SplitAtNewline(name, tail);
    SplitAtNewline(url, mid);
    assert url + [Newline] + name + [Newline] + size + [Newline] + rest == url + [Newline] + mid;
  }

  /** A link whose fields hold no newline and whose size comes only with a name. */
  predicate WellFormedLink(link: Link)
  {
    && Newline !in link.url
    && (link.name.Some? ==> Newline !in link.name.value)
    && (link.size.Some? ==> link.name.Some? && Newline !in link.size.value)
  }

  /** The payload a link is copied to the clipboard as: URL, then name, then size, one per line. */
  function FormatUrlPayload(link: Link): string
  {
    JoinLines([link.url] +
      (if link.name.Some? then [link.name.value] else []) +
      (if link.size.Some? && link.name.Some? then [link.size.value] else []))
  }

  /** Parsing the payload of a well-formed link gives back the link. */
  lemma UrlPayloadRoundTrip(link: Link)
    requires WellFormedLink(link)
    ensures ParseUrlPayload(FormatUrlPayload(link)) == link
  {
    var lines := [link.url] +
      (if link.name.Some? then [link.name.value] else []) +
      (if link.size.Some? && link.name.Some? then [link.size.value] else []);
    SplitJoin(lines);
  }

  /** A three-line payload sets URL, name and size. */
  lemma UrlPayloadThreeLines(url: string, name: string, size: string)
    requires Newline !in url && Newline !in name && Newline !in size
    ensures ParseUrlPayload(url + [Newline] + name + [Newline] + size) == Link(url, Some(name), Some(size))
  {
    var lines := [url, name, size];
    assert lines[1..][1..] == [size];
    assert JoinLines(lines[1..]) == name + [Newline] + size;
    assert JoinLines(lines) == url + [Newline] + (name + [Newline] + size);
    assert [url] + [name] + [size] == lines;
    UrlPayloadRoundTrip(Link(url, Some(name), Some(size)));
    assert FormatUrlPayload(Link(url, Some(name), Some(size))) == url + [Newline] + name + [Newline] + size;
  }
  /** The payloads of a link with name and size, and of a bare URL. */
  lemma UrlPayloadExample()
    ensures ParseUrlPayload("https://example.com/a.png\ncat.png\n12345") ==
      Link("https://example.com/a.png", Some("cat.png"), Some("12345"))
    ensures ParseUrlPayload("https://example.com/a.png") == Link("https://example.com/a.png", None, None)
  {
    var url: string, name: string, size: string := "https://example.com/a.png", "cat.png", "12345";
    assert Newline !in url;
    assert Newline !in name;
    assert Newline !in size;
    UrlPayloadThreeLines(url, name, size);
    assert url + [Newline] + name + [Newline] + size == "https://example.com/a.png\ncat.png\n12345";
    SplitSingle(url);
  }

  // ---------------------------------------------------------------------------------
  // Properties of the whole decision

  /** Nothing happens when canAttach is false; otherwise some arm always acts. */
  lemma ResolveActsIffCanAttach(clip: Contents, pasteImageType: int)
    ensures Resolve(clip, pasteImageType) == NoAction <==> !CanAttach(clip, pasteImageType)
  {
  }

  /** The flavor classified is the first one of the priority list that is present. */
  lemma ResolveSelectsFirstPresent(clip: Contents, pasteImageType: int, k: nat)
    requires k < |OrderedFlavors(pasteImageType)|
    requires OrderedFlavors(pasteImageType)[k] in clip
    requires forall j :: 0 <= j < k ==> OrderedFlavors(pasteImageType)[j] !in clip
    ensures Resolve(clip, pasteImageType) ==
      Classify(OrderedFlavors(pasteImageType)[k], clip[OrderedFlavors(pasteImageType)[k]])
  {
  }

  /** When any requested image format is present, the image wins over every
      non-image representation of the same content. */
  lemma ImageWinsOverText(clip: Contents, pasteImageType: int, k: nat)
    requires k < 4 && OrderedFlavors(pasteImageType)[k] in clip
    ensures var a := Resolve(clip, pasteImageType);
      a.CopyImage? && a.fileName[..6] == "image."
  {
  }
}
