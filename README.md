# camgrab `Grabber`, modelled in Dafny

camgrab polls a camera. A `Grabber` holds a camera URL, a sleep time (`every`), a
directory (`save_to`), a file-name template (`save_filename`) and an optional
callable. `begin` loops over `tick` and `sleep(every)`. Each tick:

- downloads an image with `urlopen` and decodes it with Pillow;
- saves the image when saving is switched on, under the path
  `save_to + "/" + save_filename` rendered at the current time;
- hands the image to the callable, if there is one, with a `saved` keyword.

The path is rendered by `str.format`. Its named fields `{Y} {y} {m} {d} {H} {M} {S} {f}` are
filled with the `strftime` codes of the same name, all taken from a single
`datetime.now()`. Before saving, the directory part of the path (`os.path.dirname`)
is created with `makedirs(..., exist_ok=True)`.

The project has three modules:

- `PathTemplate` (`path_template.dfy`) is the pure part:
  - instants and the fixed-width `strftime` fields;
  - the subset of `str.format` the grabber relies on: literal text, the `{{` and `}}` escapes,
    and named fields looked up among the eight codes. A field naming anything else is an
    error: an unknown name is a missing key (`KeyError`), a name of digits or none is
    positional (`IndexError`), and a field using format specs, conversions, attribute or
    index access is `Unsupported` (see "Left out");
  - POSIX `dirname`.

  `Format` is proved sound and complete against a second reading of templates, as
  sequences of literal characters and fields (`Template`/`Expand`).
- `Camgrab` (`camgrab.dfy`) holds the `Grabber` class, with one method per Python method.
  - The outside world is an `Environment` object. It answers image downloads and clock
    readings from fixed tables (`camera`, `clock`, indexed by how many were taken before).
    It records every download, `makedirs`, `im.save`, callable call and `sleep` as an
    `Event` in its `log`; clock readings are only counted, in `clockReads`.
  - Every `Grabber` method is proved equal to a specification function on values
    (`TickSpec`, `HandleSpec`, `SaveSpec`, `Run`, ...). Each round's properties are proved
    as lemmas about those functions.
- `TestInstances` (`test_instances.dfy`) states the concrete cases of the
  repository's tests about the model.

The code and the documentation of `begin` and `make_save_path_dirs` leave some
corner cases open. The model follows the code:

- a negative `every` makes `sleep` raise;
- an empty directory part would make `makedirs` raise. `SaveDirectoryNonEmpty`
  proves that this cannot happen on the save path;
- `_test_max_ticks` of zero or less runs no round, because `counter < _test_max_ticks`
  fails at once.

## Model

| member | source | states |
|---|---|---|
| PathTemplate.DecimalOfZeroPad | camgrab/camgrab.py:89-96 | a number zero-padded to a width that fits it is all digits and reads back as that number |
| PathTemplate.TokenDenotes | camgrab/camgrab.py:89-96 | every strftime field is a string of digits whose decimal value is the instant's component for that code |
| PathTemplate.TokenValue | camgrab/camgrab.py:89-96 | each field has the fixed strftime width: four digits for %Y, six for %f, two for the others |
| PathTemplate.TokensInjective | camgrab/camgrab.py:86-97 | two instants that render all eight fields alike are equal, so the fields of a path determine the instant |
| PathTemplate.Lookup | camgrab/camgrab.py:88-97 | a field resolves exactly when it names one of the eight codes, and then to that code's value; otherwise a name with field syntax (`:`, `!`, `.`, `[`, `{`) is `Unsupported`, a name of digits (or the empty name) is positional, and any other name is a missing-key error carrying the name |
| PathTemplate.Format | camgrab/camgrab.py:88-97 | a template that renders yields at most two characters per template character (a three-character field gives at most six digits); its full meaning is pinned by FormatTemplate and FormatParses |
| PathTemplate.FormatTemplate | camgrab/camgrab.py:88-97 | soundness: a template made of literal characters (braces doubled) and fields naming the codes formats to their meaning |
| PathTemplate.FormatParses | camgrab/camgrab.py:88-97 | completeness: every template that formats is such a sequence of pieces, and its output is their meaning |
| PathTemplate.FormatSucceedsIff | camgrab/camgrab.py:88-97 | formatting succeeds if and only if the template is written from literal characters and code fields |
| PathTemplate.FormatAppend | camgrab/camgrab.py:88-97 | a template that formats may be followed by any text; the result is its output followed by the text's result |
| PathTemplate.FormatJoin | camgrab/camgrab.py:88-97 | two templates that format also format side by side, to the concatenation of their outputs |
| PathTemplate.FormatField | camgrab/camgrab.py:88-97 | a lone field naming a code renders as that code's strftime value |
| PathTemplate.FormatSuccessIndependent | camgrab/camgrab.py:86-97 | whether a template formats does not depend on the time it is formatted at |
| PathTemplate.FormatNoBraces | camgrab/camgrab.py:88-97 | a template without braces comes back unchanged |
| PathTemplate.FormatUnknownName | camgrab/camgrab.py:88-97 | a field whose name is not one of the eight codes, holds no `}`, no field syntax (`:`, `!`, `.`, `[`, `{`, which give `Unsupported`) and is not made of digits (which gives the positional error) makes the whole format fail with a missing-key error carrying that name, whatever follows; it never passes through |
| PathTemplate.ExpandKeepsSlash | camgrab/camgrab.py:88-97 | a `/` in the template of a piece sequence appears in its meaning, and not first unless it was first |
| PathTemplate.FormatKeepsSlash | camgrab/camgrab.py:88-97 | a `/` in a template survives formatting, and one not at the start of the template is not at the start of the output |
| PathTemplate.Dirname | camgrab/camgrab.py:82 | the directory part is a prefix of the path, and it is empty exactly when the path holds no `/` |
| PathTemplate.DirnameSplits | camgrab/camgrab.py:82 | a path is its dirname, then a run of slashes, then its final component, which holds no slash; the run is empty when the path has no slash or when the dirname is made of slashes only (`/a` has dirname `/`), and only then may the dirname end in a slash; the dirname is empty exactly when the path has no slash |
| PathTemplate.DirnameOfJoin | camgrab/camgrab.py:77-83 | the dirname of `dir + "/" + file` is `dir` when `file` has no slash and `dir` does not end in one |
| PathTemplate.DirnameNonEmpty | camgrab/camgrab.py:77-83 | a path with a slash after its first character has a non-empty dirname |
| Camgrab.Environment.Open | camgrab/camgrab.py:45-47 | a download records one `urlopen` call with the grabber's timeout and returns the camera's next answer |
| Camgrab.Environment.Now | camgrab/camgrab.py:86 | reading the clock returns its next reading and changes nothing else |
| Camgrab.Environment.CreateDirs | camgrab/camgrab.py:83 | `makedirs` with `exist_ok` is recorded and fails only for the empty path |
| Camgrab.Environment.SaveImage | camgrab/camgrab.py:68 | `im.save(path)` is recorded with the image and the path, and nothing else changes |
| Camgrab.Environment.Notify | camgrab/camgrab.py:55-59 | calling the callable is recorded with the image and the `saved` value, and nothing else changes |
| Camgrab.Environment.Pause | camgrab/camgrab.py:29 | `sleep` is recorded and fails only for a negative time |
| Camgrab.Grabber.constructor | camgrab/camgrab.py:12-23 | the URL, `every`, `save_to` and callable are as given; the defaults are 2, `grabbed_images` and none; the timeout is 30, the template is the documented default, saving is on and there is no tick limit |
| Camgrab.Grabber.Begin | camgrab/camgrab.py:25-31 | the loop's outcome and effects are exactly `Run` for as many rounds as `_test_max_ticks` allows (none when it is not positive), stopping at the first exception |
| Camgrab.Grabber.Tick | camgrab/camgrab.py:33-38 | a tick downloads, then handles the image; a download error propagates with nothing saved or sent |
| Camgrab.Grabber.GetImageFromUrl | camgrab/camgrab.py:40-48 | one download of the grabber's URL with its timeout, answered by the camera's next response |
| Camgrab.Grabber.HandleReceivedImage | camgrab/camgrab.py:50-59 | a save happens exactly when saving is on and both halves of the path are set; then the callable, if set, is called once with `saved` False when no save was attempted and None after one |
| Camgrab.Grabber.ShouldSaveImage | camgrab/camgrab.py:61-63 | true exactly when `save` is on and both `save_filename` and `save_to` are non-empty |
| Camgrab.Grabber.DoSaveImage | camgrab/camgrab.py:65-68 | one clock reading renders the path; its directory is created, then the image is saved there; a template error or an empty directory raises |
| Camgrab.Grabber.GetFullSavePath | camgrab/camgrab.py:70-75 | the path is `format_path(save_to + "/" + save_filename)` at one reading of the clock |
| Camgrab.Grabber.MakeSavePathDirs | camgrab/camgrab.py:77-83 | `makedirs` is called once, on the dirname of the path, and fails only when that is empty |
| Camgrab.Grabber.FormatPath | camgrab/camgrab.py:85-99 | the clock is read once and every field comes from that one reading |
| Camgrab.RunStaysRaised | camgrab/camgrab.py:25-31 | once a run has raised, further rounds change neither the outcome nor the world |
| Camgrab.RunCompletes | camgrab/camgrab.py:25-31 | with a non-negative sleep time, a camera that delivers and a save path that renders, `k` rounds complete with exactly `k` downloads, each followed by exactly one sleep |
| Camgrab.TickLimitHonoured | camgrab/camgrab.py:25-31 | with `_test_max_ticks = n` and every round delivering, `n > 0` gives exactly `n` downloads, each followed by exactly one sleep, and `n <= 0` gives no round and leaves the world unchanged |
| Camgrab.RunStopsAtFailedFetch | camgrab/camgrab.py:33-38 | a failed download ends the run with that download's error; after the request, nothing is saved, sent or slept |
| Camgrab.TickEffects | camgrab/camgrab.py:50-68 | a delivered tick makes exactly: the download, then `makedirs` and the save when saving applies, then one callable call if set; the clock is read only for a save |
| Camgrab.RoundCompletes | camgrab/camgrab.py:25-38 | a delivered round with an accepted sleep completes and adds exactly one download and one sleep to the rhythm of the log |
| Camgrab.SaveDirectoryNonEmpty | camgrab/camgrab.py:77-83 | a rendered save path always has a non-empty directory part, so `makedirs` never gets the empty path |
| Camgrab.FullSavePathJoins | camgrab/camgrab.py:70-75 | when `save_to` has no braces, the save path renders exactly when the file-name template does, to `save_to + "/"` followed by its rendering |
| TestInstances.InitExample | tests/test_camgrab.py:7-25 | a grabber made from a URL alone has the defaults, and one made with keywords keeps them |
| TestInstances.FormatPathExample | tests/test_camgrab.py:60-72 | `some_dir/{Y}-{m}-{d}/{y}{m}{d}-{H}{M}{S}-{f}.jpg` at 2017-01-02 12:13:14.987654 renders `some_dir/2017-01-02/170102-121314-987654.jpg` |
| TestInstances.GetFullSavePathExample | tests/test_camgrab.py:39-58 | with `save_to` `a_dir` and the template `{Y}{m}{d}/blah/{H}{M}{S}{f}.jpg`, the path handed to `format_path` is `a_dir/{Y}{m}{d}/blah/{H}{M}{S}{f}.jpg` |
| TestInstances.MakeSavePathDirsExample | tests/test_camgrab.py:27-37 | the directory created for `a_dir/somewhere/another_dir/final_file.jpg` is `a_dir/somewhere/another_dir` |

## Left out

- HTTP and Pillow: a download is the camera's next answer from a fixed table, either an image (an opaque number) or an exception message. Reading the response and decoding the image are not modelled.
- Camgrab.Environment.SaveImage: `im.save` never fails in the model. Pillow raises for a path whose extension names no format (a `save_filename` of `{Y}`, say) and may raise decoding errors it defers to the save; either would skip the callable and end `begin`, which the model does not capture.
- `im.save`, `makedirs` and `sleep` are recorded as events. `makedirs` fails only on the empty path and `sleep` only on a negative time. File-system failures (permissions, a file in the way) and real waiting are not modelled.
- `datetime.now()` is a fixed table of instants, read in order. Real time is not modelled.
- Instants are restricted to years 1000 to 9999, where `%Y` is always four digits.
- `str.format`: format specifications, conversions, attribute and index access, and nested fields are not modelled.
  - They all give the `Unsupported` error, so a template such as `{Y:}` or `{Y!s}` fails in the model although CPython renders it.
  - Error kinds for malformed fields are merged, where CPython tells them apart. The model keeps which templates fail.
  - The `{{` and `}}` escapes are modelled.
- The callable: only the fact that it was called, with the image and `saved`, is recorded. What it does, what it raises and any change it makes to the grabber are not modelled.
- `send_to_callable` is a flag. A `save_to` or `save_filename` of `None` is the empty string. Both are falsy, which is all `should_save_image` looks at; `get_full_save_path` called directly on `None` would put `None` in the path.
- Camgrab.Grabber.Begin: when `_test_max_ticks` is `None` the loop never ends on its own. The model takes a `horizon` standing for the round at which it is stopped from outside (KeyboardInterrupt, a killed process).
- `every` is a real number. Python accepts ints and floats alike.
- The `try`/`except`/`raise e` in `tick` re-raises the same exception. It is modelled as propagating it.
- TestInstances.FormatPathExample and the other concrete instances state their templates and outputs as concatenations of the literal pieces, not as one literal.
- TestInstances.MakeSavePathDirsExample: the test's expected call passes `exists_ok=True` (tests/test_camgrab.py:36), a keyword `makedirs` does not take. The model keeps the code's `exist_ok=True`.
- TestInstances.GetFullSavePathExample: the test replaces `format_path` with a stub. Only the template handed to it is stated.
- setup.py (packaging) is not part of this model.
