# waxe XML editor views, modelled in Dafny

This project models the decision logic of the XML editor views of waxe
(`waxe/xml/views/editor.py`), a web editor for XML documents that are described by
DTDs. The views read request parameters and call the external `xmltool` library. They
then turn the library's results and exceptions into JSON replies or HTTP errors. The
model keeps the branches, messages and check order of that code, except for the
paths listed under "Left out". The library,
the file system and the web framework become parameters:

- a parsed DTD is a map from tag name to "this element class is a text element";
- a library call is an `Outcome`: `Ok(value)`, `DtdFetchError(msg)` (urllib2's
  `HTTPError`/`URLError`) or `OtherError(msg)`;
- a plugin is a `matches` function paired with the data its `add_element` returns;
- the request's POST dictionary and the session's `clipboard` slot are the two
  fields of the `EditorView` class. The methods that pop keys from POST or overwrite
  the clipboard update those fields.

Modules:

- `PyStrings`: `str.split('\n')`, its inverse `join` and `filter(bool, …)`.
- `PosixPath`: `os.path.splitext`. The extension starts at the last `.` of the final
  path component. Leading dots of that component are skipped.
- `StrOrder`: Python's `<` on strings and a model of `list.sort`.
- `Tags`: `_get_tags`.
- `Plugins`: `match`, `add_element`.
- `Settings`: `get_dtd_urls`, `get_xml_plugins`.
- `Editor`: the views `edit`, `get_tags`, `new`, `update`, `add_element_json`,
  `copy_json` and `paste_json`, plus the `before_update.txt` hook `is_valid_filecontent`.

Where the code and older descriptions of it (its test suite among them) disagree, the model follows the code:

- `new` with no parameters fails with "Can't create new XML". It does not return a
  selection modal.
- `edit` on a file that does not parse fails with the library's message. It does not
  fall back to a text editor.
- Failures are raised as HTTP errors rather than returned as `{status: False}`
  dictionaries. The exception is the JSON views whose code does return `error_msg`
  dictionaries (`add_element_json`, `copy_json`, `paste_json`).

## Model

| member | source | states |
|---|---|---|
| `PyStrings.Split` | waxe/xml/views/editor.py:287 | the pieces of `s.split(sep)`: at least one, none containing the separator |
| `PyStrings.JoinSplit` | waxe/xml/views/editor.py:287 | joining the pieces of a split with the separator gives back the string |
| `PyStrings.SplitJoin` | waxe/xml/views/editor.py:287 | splitting a join of separator-free pieces gives back the pieces, so Split is the inverse of join |
| `PyStrings.Compact` | waxe/xml/views/editor.py:287 | `filter(bool, xs)` keeps exactly the non-empty strings and is no longer than its input |
| `PyStrings.CompactAppend` | waxe/xml/views/editor.py:287 | the filter keeps order: it distributes over concatenation |
| `PyStrings.CompactOfNonEmpty` | waxe/xml/views/editor.py:287 | a list with no empty string passes through the filter unchanged |
| `PosixPath.RFind` | waxe/xml/views/editor.py:184 | the index of the last occurrence of a character, or -1 when it is absent |
| `PosixPath.SplitExt` | waxe/xml/views/editor.py:184 | root + extension == path; the extension is empty or is a '.' followed by no '.' or '/', after a root whose final component is not only dots |
| `PosixPath.ExtensionCharacterised` | waxe/xml/views/editor.py:184-185 | a well-formed extension e is the path's extension iff the path ends in e and the rest has a stem |
| `PosixPath.ExtensionExamples` | waxe/xml/views/editor.py:184 | splitext on the names saved under in the save view's tests: "test" has no extension, "test.doc" has ".doc", "test.xml" has ".xml"; and the hidden file ".xml" has none |
| `StrOrder.LessLexicographic` | waxe/xml/views/editor.py:40 | Python's str order: after the longest common prefix, the first string has ended while the second goes on, or has the smaller code point |
| `StrOrder.LessTransitive` | waxe/xml/views/editor.py:40 | Python's string order is transitive |
| `StrOrder.LessTotal` | waxe/xml/views/editor.py:40 | any two different strings are ordered one way or the other |
| `StrOrder.Sort` | waxe/xml/views/editor.py:40 | `list.sort` leaves a sorted permutation of the list |
| `StrOrder.SortDistinct` | waxe/xml/views/editor.py:40 | sorting a list without repetition gives a strictly ascending list with the same elements |
| `StrOrder.AscendingUnique` | waxe/xml/views/editor.py:40-41 | two strictly ascending lists with the same elements are equal |
| `Tags.GetTags` | waxe/xml/views/editor.py:25-41 | the result is strictly ascending and holds exactly the DTD tags whose text-ness equals the flag |
| `Tags.TagListingUnique` | waxe/xml/views/editor.py:25-41 | the listing is determined by the DTD and the flag, so repeated calls agree |
| `Tags.TagListingsPartition` | waxe/xml/views/editor.py:29-33 | the text listing and the non-text listing together are a permutation of the DTD's tags |
| `Tags.ExerciseDtdTags` | waxe/xml/tests/test_editor.py:39-44 | the exercise DTD's non-text tags list as ["Exercise", "comments", "mqm", "qcm", "test"] |
| `Plugins.FirstMatch` | waxe/xml/views/editor.py:45-48 | the index of a plugin that matches, with no earlier plugin matching; None iff no plugin matches |
| `Plugins.Match` | waxe/xml/views/editor.py:45-48 | returns the first matching plugin in list order, or None iff none matches |
| `Plugins.AddElement` | waxe/xml/views/editor.py:51-55 | None iff no plugin matches, otherwise the first matching plugin's `add_element` result |
| `Plugins.NonMatchingPrefix` | waxe/xml/views/editor.py:46-48 | plugins in front that match nothing do not change the winner, only its position |
| `Settings.GetDtdUrls` | waxe/xml/views/editor.py:284-287 | an error iff the setting is absent; otherwise exactly the non-empty `\n`-separated pieces, in their order, none containing a newline |
| `Settings.DtdUrlsRoundTrip` | waxe/xml/views/editor.py:284-287 | urls written one per line with blank lines before and after are read back unchanged and in order |
| `Settings.LinesOfJoin` | waxe/xml/views/editor.py:287 | lines written one per line, any of them blank, read back as the non-blank ones in their order |
| `Settings.GetXmlPlugins` | waxe/xml/views/editor.py:290-299 | [] when the setting is absent, otherwise one imported module per non-empty line, in order |
| `Editor.LoadFailure` | waxe/xml/views/editor.py:106-112 | a DTD fetch failure is reported as "The dtd of <path> can't be loaded."; any other failure with its own message |
| `Editor.Edit` | waxe/xml/views/editor.py:85-118 | succeeds iff a path is given and loading succeeds; otherwise "No filename given", the DTD message or the library's message |
| `Editor.GetTagsJson` | waxe/xml/views/editor.py:120-126 | "No dtd url given" without a url; a parse failure propagates; otherwise a tag listing for the truthiness of `text` |
| `Editor.SelectMode` | waxe/xml/views/editor.py:134-158 | dtd mode iff both tag and url are non-empty; template mode iff not that and a path is given; no mode otherwise |
| `Editor.New` | waxe/xml/views/editor.py:129-158 | each mode's outcomes: DTD not loadable, other parse error uncaught, "Invalid dtd element: <tag> (<url>)", template load errors, "Can't create new XML" |
| `Editor.NewNeedsParameters` | waxe/xml/views/editor.py:157-158 | without a tag and url pair and without a path, creation fails with "Can't create new XML" |
| `Editor.NewPrefersDtd` | waxe/xml/views/editor.py:135-148 | a complete url and a known tag create a blank element whether or not a path is given |
| `Editor.SaveFilenameError` | waxe/xml/views/editor.py:179-190 | no error iff the name is given and its extension is ".xml"; otherwise the three messages for missing name, missing extension and a wrong extension |
| `Editor.SaveFilenameExamples` | waxe/xml/tests/test_editor.py:281-291 | a missing name and "test" are refused with the messages the tests expect |
| `Editor.SaveFilenameEdgeCases` | waxe/xml/views/editor.py:180-190 | an empty name counts as missing; the hidden file ".xml" is refused for having no extension |
| `Editor.SaveFilenameAccepted` | waxe/xml/tests/test_editor.py:300-304 | "test.xml" is accepted and reaches the library write |
| `Editor.SaveFilenameWrongExtension` | waxe/xml/tests/test_editor.py:293-298 | "test.doc" is refused with the message quoting its extension ".doc" |
| `Editor.SaveAcceptsExactlyXml` | waxe/xml/views/editor.py:184-185 | a name is accepted iff it ends in ".xml" after a final component that is not only dots |
| `Editor.EditorView.Update` | waxe/xml/views/editor.py:177-208 | pops the file name; the library write is made iff the name is accepted, with the remaining fields; write failures map to the DTD or library message |
| `Editor.IsValidFilecontent` | waxe/xml/views/editor.py:59-70 | the path is never changed; a non-".xml" path passes its content unchanged; ".xml" content that loads is transformed if a transform is set; a load failure is a 500 with the library's message |
| `Editor.AddElementJson` | waxe/xml/views/editor.py:210-226 | "Bad parameter" unless both parameters are given; otherwise the first matching plugin's data when truthy, else the library's default data |
| `Editor.CopiedSlot` | waxe/xml/views/editor.py:229-240 | with an `elt_id` the slot becomes {temp file, elt_id}; without one it is unchanged |
| `Editor.CopyReply` | waxe/xml/views/editor.py:229-241 | "Copied" iff `elt_id` is posted, else "Bad parameter" |
| `Editor.PasteReply` | waxe/xml/views/editor.py:243-273 | checks in order: "Bad parameter", then "Empty clipboard", then "The element can't be pasted here" for a falsy factory result |
| `Editor.LastCopyWins` | waxe/xml/views/editor.py:237-240 | a copy overwrites the single slot whatever earlier copies left |
| `Editor.PasteAfterCopy` | waxe/xml/views/editor.py:237-273 | a paste after a copy gives the factory the copied temp file |
| `Editor.PasteWithoutCopy` | waxe/xml/views/editor.py:253-257 | a well-formed paste with nothing copied yields "Empty clipboard" |
| `Editor.EditorView.CopyJson` | waxe/xml/views/editor.py:228-241 | leaves POST alone and sets the clipboard and the reply as CopiedSlot and CopyReply say |
| `Editor.EditorView.PasteJson` | waxe/xml/views/editor.py:243-273 | pops `elt_id` and `_xml_dtd_url`, never modifies the clipboard, and replies as PasteReply says |

## Left out

- The internals of the `xmltool` library: DTD parsing, `load`, `load_string`, `update`,
  form generation, tree data and the element factories. They are external code. Each
  call is a parameter that gives the call's outcome.
- `get_comment_modal_json`: it only renders a Mako template.
- `_get_html_renderer`, `get_xmltool_transform`, `includeme`, the routes, the static
  resources, logging and the `updated.xml` event. These are dynamic imports and
  framework plumbing.
- The form attributes built from `custom_route_path`: presentation only.
- `browser.absolute_path` and `add_opened_file`: helpers of another package. The model
  keeps the relative file name.
- `tempfile.mktemp`, writing and reading the clipboard's JSON file, and
  `getElementData` / `unflatten_params`. The temp file name is a parameter and stands
  for the file's content. The paste factory receives the remaining POST fields as
  they are.
- The request object that `match` and `add_element` pass to plugins is not modelled.
- Python's dict iteration order in `_get_tags`: the loop takes the tags in an arbitrary
  order, which cannot matter after sorting.
- `list.sort` is modelled as a function on the list's contents, not as an in-place update.
- Editor.IsValidFilecontent: the transform is a total function. In the source, an
  exception raised by the transform is reported like a load failure.
- Editor.EditorView.Update: the `transform` argument passed to the library's update is
  not recorded in `Save`. `req_post` (defined in a base class that is not part of this
  model) is taken to be the request's POST dictionary.
- Editor.New: the created object is taken to be truthy, so `if not obj` only catches
  "no mode". Failures while rendering the new document are not modelled.
- Settings.GetXmlPlugins: an import that fails (`ImportError`) is not modelled. The
  import function is total.
