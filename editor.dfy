/** The editor views: validation of the request parameters, choice of what to
    ask the XML library for, and the mapping of the library's failures onto the
    errors the JSON API reports. What the library computes (parsed documents,
    rendered forms, element data) stays opaque: each view receives the outcome
    the library call would have as a parameter. */
module Editor {
  import opened Outcomes
  import opened PosixPath
  import opened Tags
  import opened Plugins

  /** How a view fails. */
  datatype HttpError =
    | ClientError(message: string)          // HTTPClientError, status 400
    | InternalServerError(message: string)  // HTTPInternalServerError, status 500
    | Uncaught(message: string)             // an exception the view does not catch

  /** A JSON body of the views that report errors in the body rather than by status. */
  datatype Reply<D> = ErrorMsg(msg: string) | InfoMsg(msg: string) | Data(data: D)

  /** `d.get(key)` on a parameter dictionary. */
  function Get(d: map<string, string>, key: string): (r: Option<string>)
    ensures r.Some? <==> key in d
    ensures r.Some? ==> r.value == d[key]
  {
    if key in d then Some(d[key]) else None
  }

  // ---------------------------------------------------------------- edit

  /** The error for a failed library call on the file at `path`: a DTD that
      cannot be fetched is named as such, any other failure keeps its message. */
  function LoadFailure<T>(path: string, outcome: Outcome<T>): (e: HttpError)
    requires !outcome.Ok?
    ensures e.InternalServerError?
    ensures outcome.DtdFetchError? ==> e.message == "The dtd of " + path + " can't be loaded."
    ensures outcome.OtherError? ==> e.message == outcome.msg
  {
    match outcome
    case DtdFetchError(_) => InternalServerError("The dtd of " + path + " can't be loaded.")
    case OtherError(m) => InternalServerError(m)
  }

  /** The `edit` view: `load` is what loading and rendering the document at the
      path gives (the form and tree data on success). */
  function Edit<Page>(path: Option<string>, load: Outcome<Page>): (r: Result<Page, HttpError>)
    ensures r.Success? <==> Truthy(path) && load.Ok?
    ensures r.Success? ==> r.value == load.value
    ensures !Truthy(path) ==> r == Failure(ClientError("No filename given"))
    ensures Truthy(path) && load.DtdFetchError? ==>
              r == Failure(InternalServerError("The dtd of " + path.value + " can't be loaded."))
    ensures Truthy(path) && load.OtherError? ==> r == Failure(InternalServerError(load.msg))
  {
    if !Truthy(path) then Failure(ClientError("No filename given"))
    else if load.Ok? then Success(load.value)
    else Failure(LoadFailure(path.value, load))
  }

  // ---------------------------------------------------------------- get_tags

  /** The `get_tags` view: `parsed` is what parsing the DTD at the url gives; a
      parse failure is not caught. Any non-empty `text` parameter asks for the
      text elements. */
  method GetTagsJson(dtdUrl: Option<string>, text: Option<string>, parsed: Outcome<Dtd>)
    returns (r: Result<seq<string>, HttpError>)
    ensures !Truthy(dtdUrl) ==> r == Failure(ClientError("No dtd url given"))
    ensures Truthy(dtdUrl) && !parsed.Ok? ==> r == Failure(Uncaught(parsed.Message()))
    ensures Truthy(dtdUrl) && parsed.Ok? ==> r.Success? && TagListing(parsed.value, Truthy(text), r.value)
  {
    if !Truthy(dtdUrl) {
      return Failure(ClientError("No dtd url given"));
    }
    if !parsed.Ok? {
      return Failure(Uncaught(parsed.Message()));
    }
    var tags := GetTags(parsed.value, Truthy(text));
    return Success(tags);
  }

  // ---------------------------------------------------------------- new

  /** Where `new` takes the document from. */
  datatype NewMode = FromDtd(dtdUrl: string, dtdTag: string) | FromTemplate(path: string) | NoMode

  /** Dtd mode needs both the tag and the url; otherwise a path selects
      template mode. */
  function SelectMode(path: Option<string>, dtdUrl: Option<string>, dtdTag: Option<string>): (m: NewMode)
    ensures m.FromDtd? <==> Truthy(dtdTag) && Truthy(dtdUrl)
    ensures m.FromDtd? ==> m == FromDtd(dtdUrl.value, dtdTag.value)
    ensures m.FromTemplate? <==> !(Truthy(dtdTag) && Truthy(dtdUrl)) && Truthy(path)
    ensures m.FromTemplate? ==> m.path == path.value
  {
    if Truthy(dtdTag) && Truthy(dtdUrl) then FromDtd(dtdUrl.value, dtdTag.value)
    else if Truthy(path) then FromTemplate(path.value)
    else NoMode
  }

  /** The document `new` starts from: an empty element of a DTD, recording the
      DTD's url, or the document loaded from a template file. */
  datatype NewDocument<Doc> = BlankElement(dtdUrl: string, tag: string) | Template(path: string, doc: Doc)

  /** The `new` view: `parsed` is what parsing the DTD at `dtdUrl` gives and
      `template` what loading the file at `path` gives; each is consulted only
      in its own mode. */
  function New<Doc>(path: Option<string>, dtdUrl: Option<string>, dtdTag: Option<string>,
                    parsed: Outcome<Dtd>, template: Outcome<Doc>): (r: Result<NewDocument<Doc>, HttpError>)
    ensures SelectMode(path, dtdUrl, dtdTag).NoMode? ==> r == Failure(InternalServerError("Can't create new XML"))
    ensures SelectMode(path, dtdUrl, dtdTag).FromDtd? ==>
              && (parsed.DtdFetchError? ==> r == Failure(InternalServerError("The dtd file " + dtdUrl.value + " can't be loaded.")))
              && (parsed.OtherError? ==> r == Failure(Uncaught(parsed.msg)))
              && (parsed.Ok? && dtdTag.value !in parsed.value ==>
                    r == Failure(InternalServerError("Invalid dtd element: " + dtdTag.value + " (" + dtdUrl.value + ")")))
              && (parsed.Ok? && dtdTag.value in parsed.value ==> r == Success(BlankElement(dtdUrl.value, dtdTag.value)))
    ensures SelectMode(path, dtdUrl, dtdTag).FromTemplate? ==>
              && (template.Ok? ==> r == Success(Template(path.value, template.value)))
              && (!template.Ok? ==> r == Failure(InternalServerError(template.Message())))
  {
    match SelectMode(path, dtdUrl, dtdTag)
    case FromDtd(url, tag) =>
      (match parsed
       case DtdFetchError(_) => Failure(InternalServerError("The dtd file " + url + " can't be loaded."))
       case OtherError(m) => Failure(Uncaught(m))
       case Ok(dic) =>
         if tag !in dic then Failure(InternalServerError("Invalid dtd element: " + tag + " (" + url + ")"))
         else Success(BlankElement(url, tag)))
    case FromTemplate(p) =>
      if template.Ok? then Success(Template(p, template.value))
      else Failure(InternalServerError(template.Message()))
    case NoMode => Failure(InternalServerError("Can't create new XML"))
  }

  /** Without both a tag and a url and without a path there is nothing to
      create from, whatever the library would have answered. */
  lemma NewNeedsParameters<Doc>(dtdUrl: Option<string>, dtdTag: Option<string>, parsed: Outcome<Dtd>, template: Outcome<Doc>)
    requires !(Truthy(dtdTag) && Truthy(dtdUrl))
    ensures New(None, dtdUrl, dtdTag, parsed, template) == Failure(InternalServerError("Can't create new XML"))
  {
  }

  /** A complete dtd url and tag take precedence over a template path. */
  lemma NewPrefersDtd<Doc>(path: Option<string>, url: string, tag: string, dtd: Dtd, template: Outcome<Doc>)
    requires url != "" && tag != "" && tag in dtd
    ensures New(path, Some(url), Some(tag), Ok(dtd), template) == Success(BlankElement(url, tag))
  {
  }

  // ---------------------------------------------------------------- update

  const FilenameField := "_xml_filename"

  /** Why `update` refuses a file name, if it does: the name must be given and
      its extension must be exactly ".xml". */
  function SaveFilenameError(filename: Option<string>): (r: Option<HttpError>)
    ensures r.None? <==> Truthy(filename) && Extension(filename.value) == ".xml"
    ensures !Truthy(filename) ==> r == Some(ClientError("No filename given"))
    ensures Truthy(filename) && Extension(filename.value) == "" ==>
              r == Some(ClientError("No filename extension. It should be '.xml'"))
    ensures Truthy(filename) && Extension(filename.value) != "" && Extension(filename.value) != ".xml" ==>
              r == Some(ClientError("Bad filename extension '" + Extension(filename.value) + "'. It should be '.xml'"))
  {
    if !Truthy(filename) then Some(ClientError("No filename given"))
    else
      var ext := Extension(filename.value);
      if ext != ".xml" then
        if ext != "" then Some(ClientError("Bad filename extension '" + ext + "'. It should be '.xml'"))
        else Some(ClientError("No filename extension. It should be '.xml'"))
      else None
  }

  /** The names the save view's tests have refused: a missing name and "test",
      which has no extension. */
  lemma SaveFilenameExamples()
    ensures SaveFilenameError(None) == Some(ClientError("No filename given"))
    ensures SaveFilenameError(Some("test")) == Some(ClientError("No filename extension. It should be '.xml'"))
  {
    NoDotNoExtension("test");
  }

  /** Two more refusals that follow from the checks and from splitext's rule:
      an empty name counts as missing, and a hidden file ".xml" has no extension. */
  lemma SaveFilenameEdgeCases()
    ensures SaveFilenameError(Some("")) == Some(ClientError("No filename given"))
    ensures SaveFilenameError(Some(".xml")) == Some(ClientError("No filename extension. It should be '.xml'"))
  {
    ExtensionOfDotXml();
  }

  /** The name the save view's tests store under. */
  lemma SaveFilenameAccepted()
    ensures SaveFilenameError(Some("test" + ".xml")) == None
  {
    DocAndXmlAreExtensions();
    ExtensionAfterTest(".xml");
  }

  /** A wrong extension is quoted in the message. */
  lemma SaveFilenameWrongExtension()
    ensures SaveFilenameError(Some("test" + ".doc")) == Some(ClientError("Bad filename extension '" + ".doc" + "'. It should be '.xml'"))
  {
    DocAndXmlAreExtensions();
    ExtensionAfterTest(".doc");
  }

  /** A file name is accepted exactly when it ends in ".xml" after a final path
      component that is not only dots. */
  lemma SaveAcceptsExactlyXml(filename: string)
    ensures SaveFilenameError(Some(filename)) == None <==>
              |filename| >= 4 && filename[|filename| - 4..] == ".xml" && HasStem(filename[..|filename| - 4])
  {
    assert ".xml"[1..] == "xml";
    ExtensionCharacterised(filename, ".xml");
  }

  /** A call of the library's write: the file name and the submitted fields. */
  datatype Save = Save(filename: string, fields: map<string, string>)

  // ---------------------------------------------------------------- text save hook

  /** The `before_update.txt` hook: content saved as text under an ".xml" name must
      load as XML (`parsed` is what loading it gives) and is then passed through
      the configured transform; any other name passes through untouched. */
  function IsValidFilecontent(path: string, content: string, parsed: Outcome<()>,
                              transform: Option<string -> string>): (r: Result<(string, string), HttpError>)
    ensures r.Success? ==> r.value.0 == path
    ensures Extension(path) != ".xml" ==> r == Success((path, content))
    ensures Extension(path) == ".xml" && parsed.Ok? && transform.None? ==> r == Success((path, content))
    ensures Extension(path) == ".xml" && parsed.Ok? && transform.Some? ==>
              r == Success((path, transform.value(content)))
    ensures Extension(path) == ".xml" && !parsed.Ok? ==> r == Failure(InternalServerError(parsed.Message()))
  {
    if Extension(path) != ".xml" then Success((path, content))
    else if !parsed.Ok? then Failure(InternalServerError(parsed.Message()))
    else if transform.Some? then Success((path, transform.value(content)))
    else Success((path, content))
  }

  // ---------------------------------------------------------------- add_element

  /** The `add_element_json` view: a claiming plugin's data when it is truthy,
      otherwise the library's default data for the element (`factory`). */
  method AddElementJson<D>(eltId: Option<string>, dtdUrl: Option<string>, plugins: seq<Plugin<D>>,
                           truthy: D -> bool, factory: (string, string) -> D) returns (r: Reply<D>)
    ensures !Truthy(eltId) || !Truthy(dtdUrl) ==> r == ErrorMsg("Bad parameter")
    ensures Truthy(eltId) && Truthy(dtdUrl) ==>
              var m := FirstMatch(plugins, eltId.value, dtdUrl.value);
              if m.Some? && truthy(plugins[m.value].addElement(eltId.value, dtdUrl.value))
              then r == Data(plugins[m.value].addElement(eltId.value, dtdUrl.value))
              else r == Data(factory(eltId.value, dtdUrl.value))
  {
    if !Truthy(eltId) || !Truthy(dtdUrl) {
      return ErrorMsg("Bad parameter");
    }
    var res := AddElement(plugins, eltId.value, dtdUrl.value);
    if res.Some? && truthy(res.value) {
      return Data(res.value);
    }
    return Data(factory(eltId.value, dtdUrl.value));
  }

  // ---------------------------------------------------------------- clipboard

  /** The session's clipboard entry: the temporary file holding the copied
      element's data, and the element's id. */
  datatype Clip = Clip(filename: string, eltId: string)

  /** What the library's paste factory is given: the target element id, the
      remaining form fields, the clipboard file and the DTD url. None stands
      for a falsy result. */
  type PasteFactory<!D> = (string, map<string, string>, string, string) -> Option<D>

  /** The clipboard slot after `copy_json`: overwritten when an element id is
      posted, untouched otherwise. */
  function CopiedSlot(post: map<string, string>, slot: Option<Clip>, tempFile: string): (s: Option<Clip>)
    ensures "elt_id" in post ==> s == Some(Clip(tempFile, post["elt_id"]))
    ensures "elt_id" !in post ==> s == slot
  {
    if "elt_id" in post then Some(Clip(tempFile, post["elt_id"])) else slot
  }

  /** The reply of `copy_json`. Only the presence of the key is checked, so an
      empty element id is copied. */
  function CopyReply(post: map<string, string>): (r: Reply<()>)
    ensures r.InfoMsg? <==> "elt_id" in post
    ensures r.InfoMsg? ==> r.msg == "Copied"
    ensures !r.InfoMsg? ==> r == ErrorMsg("Bad parameter")
  {
    if "elt_id" !in post then ErrorMsg("Bad parameter") else InfoMsg("Copied")
  }

  /** The reply of `paste_json`, checked in order: both parameters, then the
      clipboard, then whether the factory can paste here. */
  function PasteReply<D>(post: map<string, string>, slot: Option<Clip>, factory: PasteFactory<D>): (r: Reply<D>)
    ensures !Truthy(Get(post, "elt_id")) || !Truthy(Get(post, "_xml_dtd_url")) ==> r == ErrorMsg("Bad parameter")
    ensures Truthy(Get(post, "elt_id")) && Truthy(Get(post, "_xml_dtd_url")) && slot.None? ==>
              r == ErrorMsg("Empty clipboard")
    ensures Truthy(Get(post, "elt_id")) && Truthy(Get(post, "_xml_dtd_url")) && slot.Some? ==>
              var pasted := factory(post["elt_id"], post - {"elt_id", "_xml_dtd_url"}, slot.value.filename, post["_xml_dtd_url"]);
              r == if pasted.Some? then Data(pasted.value) else ErrorMsg("The element can't be pasted here")
  {
    var eltId := Get(post, "elt_id");
    var dtdUrl := Get(post, "_xml_dtd_url");
    var data := post - {"elt_id", "_xml_dtd_url"};
    if !Truthy(eltId) || !Truthy(dtdUrl) then ErrorMsg("Bad parameter")
    else if slot.None? then ErrorMsg("Empty clipboard")
    else
      match factory(eltId.value, data, slot.value.filename, dtdUrl.value)
      case None => ErrorMsg("The element can't be pasted here")
      case Some(d) => Data(d)
  }

  /** One slot: a copy replaces whatever an earlier copy left. */
  lemma LastCopyWins(first: map<string, string>, second: map<string, string>, slot: Option<Clip>, t1: string, t2: string)
    requires "elt_id" in second
    ensures CopiedSlot(second, CopiedSlot(first, slot, t1), t2) == CopiedSlot(second, slot, t2)
    ensures CopiedSlot(second, CopiedSlot(first, slot, t1), t2) == Some(Clip(t2, second["elt_id"]))
  {
  }

  /** Pasting right after a successful copy hands the copied file to the factory. */
  lemma PasteAfterCopy<D>(copied: map<string, string>, post: map<string, string>, slot: Option<Clip>,
                          tempFile: string, factory: PasteFactory<D>)
    requires "elt_id" in copied
    requires Truthy(Get(post, "elt_id")) && Truthy(Get(post, "_xml_dtd_url"))
    ensures PasteReply(post, CopiedSlot(copied, slot, tempFile), factory) ==
              match factory(post["elt_id"], post - {"elt_id", "_xml_dtd_url"}, tempFile, post["_xml_dtd_url"])
              case None => ErrorMsg("The element can't be pasted here")
              case Some(d) => Data(d)
  {
  }

  /** A paste with no copy before it in the session finds the clipboard empty. */
  lemma PasteWithoutCopy<D>(post: map<string, string>, factory: PasteFactory<D>)
    requires Truthy(Get(post, "elt_id")) && Truthy(Get(post, "_xml_dtd_url"))
    ensures PasteReply(post, None, factory) == ErrorMsg("Empty clipboard")
  {
  }

  // ---------------------------------------------------------------- the view object

  /** An editor view over one request: its POST parameters, which `update` and
      `paste_json` pop keys from, and the session's 'clipboard' slot, which
      `copy_json` overwrites. The rest of the session is not modelled. */
  class EditorView {
    var post: map<string, string>
    var clipboard: Option<Clip>

    constructor (post: map<string, string>, clipboard: Option<Clip>)
      ensures this.post == post && this.clipboard == clipboard
    {
      this.post := post;
      this.clipboard := clipboard;
    }

    /** The `update` view. `write` is what the library's update of the file
        gives; `saved` records the call, which is made only once the file name
        is accepted, with the fields left after the file name is popped. */
    method Update(write: Outcome<bool>) returns (r: Result<string, HttpError>, saved: Option<Save>)
      modifies this
      ensures post == old(post) - {FilenameField}
      ensures clipboard == old(clipboard)
      ensures var filename := Get(old(post), FilenameField);
              && (SaveFilenameError(filename).Some? ==> r == Failure(SaveFilenameError(filename).value) && saved.None?)
              && (SaveFilenameError(filename).None? ==>
                    && saved == Some(Save(filename.value, post))
                    && r == if write.Ok? then Success("File updated") else Failure(LoadFailure(filename.value, write)))
    {
      var filename := Get(post, FilenameField);
      post := post - {FilenameField};
      var refusal := SaveFilenameError(filename);
      if refusal.Some? {
        return Failure(refusal.value), None;
      }
      saved := Some(Save(filename.value, post));
      if !write.Ok? {
        return Failure(LoadFailure(filename.value, write)), saved;
      }
      r := Success("File updated");
    }

    /** The `copy_json` view; `tempFile` is the name of the fresh temporary file
        the element's data is written to. */
    method CopyJson(tempFile: string) returns (r: Reply<()>)
      modifies this
      ensures post == old(post)
      ensures clipboard == CopiedSlot(old(post), old(clipboard), tempFile)
      ensures r == CopyReply(old(post))
    {
      if "elt_id" !in post {
        return ErrorMsg("Bad parameter");
      }
      clipboard := Some(Clip(tempFile, post["elt_id"]));
      return InfoMsg("Copied");
    }

    /** The `paste_json` view: pops the element id and the DTD url from the POST
        parameters and never touches the clipboard. */
    method PasteJson<D>(factory: PasteFactory<D>) returns (r: Reply<D>)
      modifies this
      ensures post == old(post) - {"elt_id", "_xml_dtd_url"}
      ensures clipboard == old(clipboard)
      ensures r == PasteReply(old(post), clipboard, factory)
    {
      var eltId := Get(post, "elt_id");
      post := post - {"elt_id"};
      var dtdUrl := Get(post, "_xml_dtd_url");
      post := post - {"_xml_dtd_url"};
      if !Truthy(eltId) || !Truthy(dtdUrl) {
        return ErrorMsg("Bad parameter");
      }
      if clipboard.None? {
        return ErrorMsg("Empty clipboard");
      }
      var pasted := factory(eltId.value, post, clipboard.value.filename, dtdUrl.value);
      if pasted.None? {
        return ErrorMsg("The element can't be pasted here");
      }
      return Data(pasted.value);
    }
  }
}
