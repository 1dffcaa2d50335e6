# Attach from clipboard: a verified model of the compose-window overlay

The overlay adds one command to a mail compose window: take whatever is on the
system clipboard and attach it to the message being written. This project models
the decision logic inside that overlay (`clipboard@ganss.org/chrome/content/overlay.js`)
and proves its properties:

- **Flavors** (`flavors.dfy`): `getOrderedFlavors`, the priority list built from the
  preference `clipboard.paste_image_type`. Four image formats come first, in the order
  the preference selects (0, 2, or the default arm for 1 and every other value). The
  fixed tail of four non-image formats follows. The list is built by pushes in a
  method, `GetOrderedFlavors`, which is proved equal to the function `OrderedFlavors`.
- **Lines** (`lines.dfy`): JavaScript's `split('\n')` and its inverse `join('\n')`,
  with both round trips proved.
- **Clipboard** (`clipboard.dfy`): the clipboard is a map from the flavors present to
  their data. `canAttach` asks the host whether any listed flavor is present. The
  host's `getAnyTransferData` hands back the first present flavor in list order.
  `getDataFromClipboard` adds the list to a transferable in a loop, then reads.
- **Dispatch** (`dispatch.dfy`): the if/else chain of `attachFromClipboard`. It writes an
  image, an HTML document or a text document to a temporary file. It can also build a
  link attachment from a `text/x-moz-url` payload, or attach the clipboard's own file.
  It does nothing for any other flavor. `Resolve` gives the whole decision for one
  clipboard and one preference.
- **Session** (`session.dfy`): the module-level `createdFiles` registry, as a class.
  The class also holds the files whose copy is still running, the attachments handed
  to the compose window, and the errors shown to the user.
  - `AttachFromClipboard` starts a copy.
  - `CompleteCopy` is the copy's completion callback, which runs `addFileAttachment`.
  - `Unload` removes the registered files and clears the registry.

Host services are parameters:
- the preference value (`pasteImageType`);
- the clipboard contents;
- whether each host call throws (`HostCall`);
- which file removals throw (`failing`).

The model follows the code where it departs from the overlay's intended design:
- `unload` stops at the first removal that throws and leaves the registry as it was. It is not a best-effort loop.
- A file is registered after `AddAttachments` returns, not before.
- `split('\n')` always returns at least one piece. So a URL payload never has zero lines: an empty payload gives the URL `""`.

## Model

| member | source | states |
|---|---|---|
| `Flavors.IsImageFlavor` | clipboard@ganss.org/chrome/content/overlay.js:119 | the test `indexOf("image/") === 0`: the flavor starts with `image/`; used by the image arm and the shape lemma |
| `Flavors.ImageOrder` | clipboard@ganss.org/chrome/content/overlay.js:19-39 | the image formats each switch arm pushes; its properties are the PreferenceImageOrder and ImageOrderMultiset rows |
| `Flavors.OrderedFlavors` | clipboard@ganss.org/chrome/content/overlay.js:16-47 | the whole priority list, image part then fixed tail; its properties are the Flavors lemma rows |
| `Flavors.GetOrderedFlavors` | clipboard@ganss.org/chrome/content/overlay.js:16-47 | the list pushed for a preference value is the specified priority list |
| `Flavors.PreferenceImageOrder` | clipboard@ganss.org/chrome/content/overlay.js:19-39 | preference 0 gives jpeg, jpg, png, gif; preference 2 gives gif, jpeg, jpg, png; 1 and every other value give png, jpeg, jpg, gif |
| `Flavors.OrderedFlavorsShape` | clipboard@ganss.org/chrome/content/overlay.js:16-47 | every list has 8 distinct entries; the first four are image flavors; the last four are x-moz-file, x-moz-url, html, unicode in that order and are not image flavors |
| `Flavors.ImageOrderMultiset` | clipboard@ganss.org/chrome/content/overlay.js:19-39 | every switch arm pushes each of the four image formats exactly once |
| `Flavors.OrderedFlavorsPermutation` | clipboard@ganss.org/chrome/content/overlay.js:16-47 | the lists for any two preference values are permutations of each other and of the same eight flavors |
| `Flavors.PlainTextNeverRequested` | clipboard@ganss.org/chrome/content/overlay.js:41-44 | `text/plain` is in no priority list |
| `Lines.SplitLines` | clipboard@ganss.org/chrome/content/overlay.js:133 | splitting yields at least one line and no line holds a newline |
| `Lines.JoinSplit` | clipboard@ganss.org/chrome/content/overlay.js:133 | joining the lines of a split with newlines gives back the text |
| `Lines.SplitJoin` | clipboard@ganss.org/chrome/content/overlay.js:133 | splitting newline-free lines joined with newlines gives back the lines |
| `Lines.SplitLineCount` | clipboard@ganss.org/chrome/content/overlay.js:133 | a split has one line more than the text has newlines |
| `Lines.SplitSingle` | clipboard@ganss.org/chrome/content/overlay.js:133 | a text without a newline splits into itself alone |
| `Lines.SplitAtNewline` | clipboard@ganss.org/chrome/content/overlay.js:133 | the text before the first newline is the first line and the rest splits independently |
| `Lines.FirstLine` | clipboard@ganss.org/chrome/content/overlay.js:133-135 | the first line is the text up to the first newline, or the whole text exactly when it has no newline |
| `Clipboard.HasDataMatchingFlavors` | clipboard@ganss.org/chrome/content/overlay.js:111 | the host's test that some requested flavor is present; CanAttach's contract ties it to the read |
| `Clipboard.GetAnyTransferData` | clipboard@ganss.org/chrome/content/overlay.js:58-64 | the host's read: the first present requested flavor with its data, or `NS_ERROR_FAILURE`; its properties are the CanAttach and GetDataFromClipboard rows |
| `Clipboard.FirstPresent` | clipboard@ganss.org/chrome/content/overlay.js:58-64 | the host's choice is the first requested flavor that is present, and there is none exactly when no requested flavor is present (unload uses it for the first file whose removal throws) |
| `Clipboard.CanAttach` | clipboard@ganss.org/chrome/content/overlay.js:108-113 | canAttach holds exactly when reading the clipboard with the same list yields a flavor |
| `Clipboard.CanAttachIgnoresPreference` | clipboard@ganss.org/chrome/content/overlay.js:108-113 | canAttach gives the same answer for every preference value |
| `Clipboard.PlainTextOnlyCannotAttach` | clipboard@ganss.org/chrome/content/overlay.js:108-113 | a clipboard holding only `text/plain` cannot be attached |
| `Clipboard.GetDataFromClipboard` | clipboard@ganss.org/chrome/content/overlay.js:49-67 | the read succeeds exactly when canAttach holds; it returns the first present flavor of the priority list with that flavor's data; otherwise the host's failure |
| `Dispatch.ImageExtension` | clipboard@ganss.org/chrome/content/overlay.js:120 | the nested ternary choosing png, gif or jpg; its properties are the TempFileName and RequestedImageExtension rows |
| `Dispatch.ParseUrlPayload` | clipboard@ganss.org/chrome/content/overlay.js:133-137 | the link built from the split payload; its properties are the UrlPayload rows |
| `Dispatch.Classify` | clipboard@ganss.org/chrome/content/overlay.js:119-148 | the dispatch chain's tests in source order; its properties are the Dispatch lemma rows |
| `Dispatch.Resolve` | clipboard@ganss.org/chrome/content/overlay.js:114-149 | the whole decision of attachFromClipboard: nothing unless canAttach holds, else the classification of the host's read; its properties are the Resolve and ImageWinsOverText rows |
| `Dispatch.ImageHandledFirst` | clipboard@ganss.org/chrome/content/overlay.js:119-125 | every flavor starting with `image/` goes to the image arm, which copies the data as it is into an `image.*` temporary file |
| `Dispatch.TempFileName` | clipboard@ganss.org/chrome/content/overlay.js:119-143 | a temporary file is created exactly for images (whatever the data) and for html, unicode and plain text carrying a string. Its name is image.png for image/png, image.gif for image/gif, image.jpg for other images, document.html for html and document.txt for unicode or plain text |
| `Dispatch.RequestedImageExtension` | clipboard@ganss.org/chrome/content/overlay.js:120 | for the requested image formats the extension is the subtype, except that jpeg is written as jpg |
| `Dispatch.NoActionIffUnhandled` | clipboard@ganss.org/chrome/content/overlay.js:119-148 | a flavor yields no action exactly when it is neither an image nor html, x-moz-url, unicode, plain text or x-moz-file |
| `Dispatch.RequestedFlavorsHandled` | clipboard@ganss.org/chrome/content/overlay.js:119-148 | every flavor in a priority list is handled by some arm of the chain |
| `Dispatch.FileAndUrlWriteNothing` | clipboard@ganss.org/chrome/content/overlay.js:131-147 | a file flavor attaches its own file and a URL flavor attaches a parsed link; whatever the data, neither creates a temporary file |
| `Dispatch.UrlPayloadFields` | clipboard@ganss.org/chrome/content/overlay.js:131-137 | the URL is the text before the first newline; the name is set iff there is at least one newline; the size is set iff there are at least two |
| `Dispatch.UrlPayloadIgnoresExtraLines` | clipboard@ganss.org/chrome/content/overlay.js:133-137 | lines after the third do not change the link |
| `Dispatch.UrlPayloadRoundTrip` | clipboard@ganss.org/chrome/content/overlay.js:133-137 | parsing the newline-separated payload of a well-formed link gives back the link |
| `Dispatch.UrlPayloadThreeLines` | clipboard@ganss.org/chrome/content/overlay.js:133-137 | a three-line payload sets URL, name and size to its three lines |
| `Dispatch.UrlPayloadExample` | clipboard@ganss.org/chrome/content/overlay.js:133-137 | `https://example.com/a.png\ncat.png\n12345` gives URL, name cat.png and size 12345; the bare URL gives neither name nor size |
| `Dispatch.ResolveActsIffCanAttach` | clipboard@ganss.org/chrome/content/overlay.js:114-149 | attachFromClipboard does nothing exactly when canAttach is false |
| `Dispatch.ResolveSelectsFirstPresent` | clipboard@ganss.org/chrome/content/overlay.js:114-118 | the flavor classified is the first present one in list order |
| `Dispatch.ImageWinsOverText` | clipboard@ganss.org/chrome/content/overlay.js:114-125 | when any requested image format is present, the outcome is the image arm's `image.*` file, never html, a link or text |
| `Session.ComposeSession.constructor` | clipboard@ganss.org/chrome/content/overlay.js:105 | a new window starts with an empty registry |
| `Session.ComposeSession.AddFileAttachment` | clipboard@ganss.org/chrome/content/overlay.js:95-103 | for a created, unregistered, no longer pending file: it is appended to the registry and the attachment list only when FileToAttachment and AddAttachments both return, keeping the registry duplicate-free; otherwise both stay unchanged and the first exception is reported |
| `Session.ComposeSession.CompleteCopy` | clipboard@ganss.org/chrome/content/overlay.js:123-129 | a pending file stops being pending and goes through addFileAttachment; the registry stays duplicate-free |
| `Session.ComposeSession.AttachFromClipboard` | clipboard@ganss.org/chrome/content/overlay.js:114-153 | the decision is `Resolve`. A temporary file gets a fresh id and becomes pending once its copy starts; in the image arm a host exception is reported before the data is looked at, and data that is not a stream is rejected only after the file exists. A link or the clipboard's file is attached at once. A host exception, or a QueryInterface failure in the text and file arms, is reported and changes nothing else; a rejected image copy is reported after its file id has been used (`created` is set and `nextTemp` grows, but nothing becomes pending). The registry is never touched |
| `Session.ComposeSession.Unload` | clipboard@ganss.org/chrome/content/overlay.js:160-165 | removal is tried in registry order. If none throws, the registry ends empty. If one throws, the walk stops there and the registry is unchanged. An empty registry is a no-op |
| `Session.ComposeSession.CloseThenUnload` | clipboard@ganss.org/chrome/content/overlay.js:171-173 | unload runs for both window events. After a successful first call the second tries no removal and the registry stays empty. After a failed first call the second walks the unchanged registry again from its start under the host's new removal outcomes (`failing2`), clearing it or stopping at its first failing file |

## Left out

- Reading the preference (`getPasteImageType`, overlay.js:7-14) is a host call; its value is the `pasteImageType` parameter.
- The transferable, `hasDataMatchingFlavors` and `getAnyTransferData` are host services. They are modelled by `HasDataMatchingFlavors` and `FirstPresent` over one clipboard value. A clipboard that changes between `canAttach` and the read is not modelled.
- Unique temporary-file naming (`createUnique`) is a file-system operation; the model hands out fresh ids from a counter.
- The bytes written to a temporary file, the UTF-8 conversion and `NetUtil.asyncCopy` are not modelled. `CopyImage` and `WriteText` carry the data, and completion is the plain call `CompleteCopy`. The source ignores the copy's status too.
- The host calls of one dispatch arm are one `HostCall` parameter. A temporary file created before a later call in the same arm throws stays on disk unregistered in the source; the model has no file system to show it. The one such case the model shows is an image file whose copy rejects the data: its id is used, but the file never becomes pending.
- Data of the wrong kind is modelled as the abstract failure `NS_NOINTERFACE`, reported like any other exception. In the html, URL, text and file arms it comes from a QueryInterface, before any host call. In the image arm it comes from the stream copy, after the file has been created and its stream opened.
- `showException` (overlay.js:87-93) is a dialog with localised strings; the model records only the exception text.
- `updateCommand` and `goSetCommandEnabled` (overlay.js:154-157) only pass `canAttach` to the menu; UI.
- DOM event wiring (overlay.js:167-175) is UI plumbing, apart from the double unload that `CloseThenUnload` shows.
- The attachment's `size` stays the payload's string; the host converts it to a number.
- Session.ComposeSession.Unload: files are not modelled on disk. After a failed unload, the files before the failing one are already deleted but still registered. Whether a later unload then throws on them depends on the host's file removal, which is not modelled.
