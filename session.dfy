/** The state one compose window's overlay keeps: the registry of temporary files it
    created (createdFiles), together with the host state its operations act on. */
module Session {
  import opened Wrappers
  import opened Clipboard
  import opened Dispatch

  /** A temporary file object. Each createFile call yields a new object with its own id;
      createUnique only avoids names that exist on disk at that moment, so the path of a
      deleted file may be given to a later one, but the ids stay distinct. */
  type TempId = nat

  /** A host call (FileToAttachment, AddAttachments, file creation, a removal) that either
      returns or throws an exception with the given text. */
  datatype HostCall = Succeeds | Throws(error: string)

  /** What the compose window receives through AddAttachments. */
  datatype AttachmentRef =
    | TempFileAttachment(id: TempId, fileName: string)
    | UserFileAttachment(path: string)
    | LinkAttachment(link: Link)

  /** The exception, if any, that the first or else the second of two host calls throws. */
  function Thrown(first: HostCall, second: HostCall): (e: Option<string>)
  {
    if first.Throws? then Some(first.error)
    else if second.Throws? then Some(second.error)
    else None
  }

  class ComposeSession {
    /** The registry: temporary files attached so far, in the order their attachment succeeded. */
    var createdFiles: seq<TempId>
    /** Temporary files whose copy has been started and has not completed, with their names. */
    var pending: map<TempId, string>
    /** The next id createUnique hands out. */
    var nextTemp: TempId
    /** The attachments this overlay has handed to the compose window, in order. */
    var attachments: seq<AttachmentRef>
    /** The exception texts shown to the user, in order. */
    var errors: seq<string>

    /** Every registered file was created, is no longer pending, and is registered once. */
    ghost predicate Valid()
      reads this
    {
      && (forall k :: 0 <= k < |createdFiles| ==> createdFiles[k] < nextTemp && createdFiles[k] !in pending)
      && (forall i, j :: 0 <= i < j < |createdFiles| ==> createdFiles[i] != createdFiles[j])
      && (forall id :: id in pending ==> id < nextTemp)
    }

    /** A compose window opens with an empty registry. */
    constructor ()
      ensures Valid()
      ensures createdFiles == [] && pending == map[] && attachments == [] && errors == []
    {
      createdFiles := [];
      pending := map[];
      nextTemp := 0;
      attachments := [];
      errors := [];
    }

    /** addFileAttachment: the file is registered only once FileToAttachment and
        AddAttachments have both returned; an exception from either is reported instead. */
    method AddFileAttachment(id: TempId, fileName: string, toAttachment: HostCall, addAttachments: HostCall)
      requires Valid() && id < nextTemp && id !in pending && id !in createdFiles
      modifies this`createdFiles, this`attachments, this`errors
      ensures Valid()
      ensures Thrown(toAttachment, addAttachments).None? ==>
        && createdFiles == old(createdFiles) + [id]
        && attachments == old(attachments) + [TempFileAttachment(id, fileName)]
        && errors == old(errors)
      ensures Thrown(toAttachment, addAttachments).Some? ==>
        && createdFiles == old(createdFiles)
        && attachments == old(attachments)
        && errors == old(errors) + [Thrown(toAttachment, addAttachments).value]
    {
      if toAttachment.Throws? {
        errors := errors + [toAttachment.error];
      } else if addAttachments.Throws? {
        errors := errors + [addAttachments.error];
      } else {
        attachments := attachments + [TempFileAttachment(id, fileName)];
        createdFiles := createdFiles + [id];
      }
    }

    /** The completion callback of a copy into a temporary file: the file stops being
        pending and addFileAttachment runs on it. A file can complete only once, so it
        enters the registry at most once. */
    method CompleteCopy(id: TempId, toAttachment: HostCall, addAttachments: HostCall)
      requires Valid() && id in pending
      modifies this`createdFiles, this`pending, this`attachments, this`errors
      ensures Valid()
      ensures pending == old(pending) - {id}
      ensures Thrown(toAttachment, addAttachments).None? ==>
        && createdFiles == old(createdFiles) + [id]
        && attachments == old(attachments) + [TempFileAttachment(id, old(pending)[id])]
        && errors == old(errors)
      ensures Thrown(toAttachment, addAttachments).Some? ==>
        && createdFiles == old(createdFiles)
        && attachments == old(attachments)
        && errors == old(errors) + [Thrown(toAttachment, addAttachments).value]
    {
      var fileName := pending[id];
      pending := pending - {id};
      AddFileAttachment(id, fileName, toAttachment, addAttachments);
    }

    /** attachFromClipboard: nothing when canAttach is false; otherwise the flavor the
        clipboard hands back is classified and acted on. `host` stands for the arm's host
        calls (file creation and stream opening, or AddAttachments); an exception from them is
        reported and changes nothing else, and so is a QueryInterface failure of the text and
        file arms, which comes before them. The image arm first creates its file; only then does
        the copy reject data that is not a stream, leaving that file unregistered. A file whose
        copy starts stays pending until the copy completes; a link or the clipboard's own file
        is handed to the compose window at once. The registry itself is never touched here. */
    method AttachFromClipboard(clip: Contents, pasteImageType: int, host: HostCall)
      returns (action: Action, created: Option<TempId>)
      requires Valid()
      modifies this`pending, this`nextTemp, this`attachments, this`errors
      ensures Valid()
      ensures action == Resolve(clip, pasteImageType)
      ensures action.CreatesTempFile() && host.Succeeds? ==>
        && created == Some(old(nextTemp))
        && old(nextTemp) !in old(pending) && old(nextTemp) !in createdFiles
        && nextTemp == old(nextTemp) + 1
        && pending == if action.CopyStarts() then old(pending)[old(nextTemp) := action.fileName]
                      else old(pending)
      ensures !(action.CreatesTempFile() && host.Succeeds?) ==>
        created == None && pending == old(pending) && nextTemp == old(nextTemp)
      ensures attachments ==
        if action.AttachLink? && host.Succeeds? then old(attachments) + [LinkAttachment(action.link)]
        else if action.AttachFile? && host.Succeeds? then old(attachments) + [UserFileAttachment(action.path)]
        else old(attachments)
      ensures errors ==
        if action.Fail? then old(errors) + [action.error]
        else if !action.NoAction? && host.Throws? then old(errors) + [host.error]
        else if action.CreatesTempFile() && !action.CopyStarts() then old(errors) + [NoInterface]
        else old(errors)
    {
      action, created := NoAction, None;
      if CanAttach(clip, pasteImageType) {
        var data := GetDataFromClipboard(clip, pasteImageType);
        match data
        case Err(_) =>
          // canAttach held, so the host always finds a flavor to hand back.
          assert false;
        case Ok(d) =>
          action := Classify(d.flavor, d.data);
          match action
          case NoAction =>
          case Fail(e) =>
            errors := errors + [e];
          case CopyImage(fileName, payload) =>
            if host.Throws? {
              errors := errors + [host.error];
            } else {
              created := Some(nextTemp);
              nextTemp := nextTemp + 1;
              if payload.Stream? {
                pending := pending[created.value := fileName];
              } else {
                errors := errors + [NoInterface];
              }
            }
          case WriteText(fileName, _) =>
            if host.Throws? {
              errors := errors + [host.error];
            } else {
              created := Some(nextTemp);
              pending := pending[nextTemp := fileName];
              nextTemp := nextTemp + 1;
            }
          case AttachLink(link) =>
            if host.Throws? {
              errors := errors + [host.error];
            } else {
              attachments := attachments + [LinkAttachment(link)];
            }
          case AttachFile(path) =>
            if host.Throws? {
              errors := errors + [host.error];
            } else {
              attachments := attachments + [UserFileAttachment(path)];
            }
      }
    }

    /** unload: each registered file is removed in registry order, then the registry is
        emptied. A removal that throws ends the walk before the registry is cleared, so the
        registry is left as it was; `attempted` lists the files whose removal was tried. */
    method Unload(failing: set<TempId>) returns (attempted: seq<TempId>, ok: bool)
      requires Valid()
      modifies this`createdFiles
      ensures Valid()
      ensures ok <==> FirstPresent(old(createdFiles), failing).None?
      ensures ok ==> attempted == old(createdFiles) && createdFiles == []
      ensures !ok ==>
        && createdFiles == old(createdFiles)
        && attempted == old(createdFiles)[..FirstPresent(old(createdFiles), failing).value + 1]
      ensures old(createdFiles) == [] ==> ok && attempted == [] && createdFiles == []
    {
      attempted := [];
      var i := 0;
      while i < |createdFiles|
        invariant 0 <= i <= |createdFiles|
        invariant attempted == createdFiles[..i]
        invariant forall k :: 0 <= k < i ==> createdFiles[k] !in failing
      {
        attempted := attempted + [createdFiles[i]];
        if createdFiles[i] in failing {
          ok := false;
          return;
        }
        i := i + 1;
      }
      assert attempted == createdFiles;
      createdFiles := [];
      ok := true;
    }

    /** The window's "compose-window-close" and "compose-window-unload" events both run
        unload. Once the first call has emptied the registry the second tries no removal.
        When the first failed, the second walks the unchanged registry from its start again;
        which removals throw then (`failing2`) is up to the host, since the files before the
        failing one are already gone. */
    method CloseThenUnload(failing: set<TempId>, failing2: set<TempId>)
      returns (ok: bool, secondOk: bool, secondAttempted: seq<TempId>)
      requires Valid()
      modifies this`createdFiles
      ensures Valid()
      ensures ok <==> FirstPresent(old(createdFiles), failing).None?
      ensures ok ==> createdFiles == [] && secondOk && secondAttempted == []
      ensures !ok ==> (secondOk <==> FirstPresent(old(createdFiles), failing2).None?)
      ensures !ok && secondOk ==> createdFiles == [] && secondAttempted == old(createdFiles)
      ensures !ok && !secondOk ==>
        && createdFiles == old(createdFiles)
        && secondAttempted == old(createdFiles)[..FirstPresent(old(createdFiles), failing2).value + 1]
    {
      var first: seq<TempId>;
      first, ok := Unload(failing);
      secondAttempted, secondOk := Unload(failing2);
    }
  }
}
