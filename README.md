# easyapply themes core in Dafny

easyapply renders job applications from Jinja2 themes. Its theme library,
`easyapply/themes`, has three parts. This project models all three in Dafny
and proves properties of the model.

- **The filter library** (`filters.py`). Templates use these filters to:
  - turn URLs, GitHub profiles, dates, phone numbers and e-mail addresses
    into display text and links;
  - split text into paragraphs;
  - embed scripts and images;
  - rewrite SVG documents: set the fill or stroke colour of every path, or
    add attributes to the root element;
  - optimise SVG documents with the external tools `svgo` and `scour`. Each
    tool's output is kept in a content-addressed cache on disk, keyed by
    the SHA-256 digest of its input.
- **The template globals** (`globals.py`). These:
  - read a resource from the web, from a `file:` URI or from a local path;
  - embed JavaScript, a base64 image or an SVG document;
  - run `optimize_svg`, which chains svgo and then scour behind one cache
    directory whose name records which tools were found.
- **The theme lookup** (`__init__.py`). It:
  - finds a theme under the current directory or its parent;
  - builds a Jinja2 environment per template directory, memoised with
    `functools.cache`, that registers the seventeen filters;
  - loads a template from a theme's `templates` directory.

## How the model is laid out

| module | models |
|---|---|
| `Results` | `Option`, `Result` and the Python exceptions the core raises |
| `Text` | character classes, `str.replace`, `str.join`, `str.lower` |
| `Dicts` | a Python `dict[str, str]` as its entries in insertion order |
| `Filters` | the pure filters and `embed_image` |
| `Dates` | `parse_date` (with `strptime`'s directive patterns) and `day_suffix` |
| `SvgTree` | `set_fill`, `set_stroke` and `add_attributes` on a tree of `Element` objects |
| `FileSystem` | the file map, pathlib's `/`, and the newline translation of `Path.read_text` |
| `SvgCache` | the `svgo`, `scour` and `optimize_svg` caches; `Host` owns the file map |
| `Globals` | `read_text_file`, `embed_js`, `embed_image_base64` and `embed_svg` |
| `Themes` | `find_theme`, `load_template`, and `get_env` with its memo table |

Pure code is modelled as functions plus lemmas about them. Code that
mutates state is modelled as imperative Dafny:

- Dict mutation and tree edits become methods with frames. Each method's
  `ensures` ties the new state to a specification function, and lemmas
  prove properties of that function.
- `Element` objects carry their attribute map as a mutable field.
- The machine's files are a `map` field of `SvgCache.Host`. Optimiser
  calls update it. A cache file is written as it is and read back with
  `read_text`, whose universal newlines turn "\r\n" and "\r" into "\n"
  (`FileSystem.ReadBack`); so a hit can return a text that differs from
  the one the miss returned.
- The `get_env` memo table is a `map` field of `Themes.EnvCache`.

A few parts of the system become parameters of the model:

- SHA-256, the two optimiser tools and `mimetypes.guess_type` are function
  parameters.
- The network is a function from URL to response text or error.
- The current directory and its parent are string parameters.
- The existing paths form a set.

## Model

| member | source | states |
|---|---|---|
| `Filters.StripUrlProtocol` | easyapply/themes/filters.py:46-50 | on failure the error is `ValueError("Invalid URL: " + url)`; a result is non-empty and holds no newline |
| `Filters.StripUrlProtocolOfMatch` | easyapply/themes/filters.py:29-48 | whenever `^\w+://(.+)` matches, the result is the matched group |
| `Filters.StripUrlProtocolSpec` | easyapply/themes/filters.py:29-50 | succeeds if and only if the pattern matches, and then returns the group of a match |
| `Filters.StripUrlProtocolOfParts` | easyapply/themes/filters.py:46-48 | `scheme + "://" + rest` with a word-character scheme and a one-line rest gives `rest` |
| `Filters.StripNoSchemeSeparator` | easyapply/themes/filters.py:46-50 | a word run followed by a dot (a bare host name) is rejected |
| `Filters.NoProtocolHost` | easyapply/themes/filters.py:46-72 | a bare `host.rest` is rejected by both strip_url_protocol and get_github_username |
| `Filters.GetGithubUsername` | easyapply/themes/filters.py:67-72 | the protocol error passes through unchanged; other failures are `ValueError("Invalid GitHub URL: " + stripped)` |
| `Filters.GetGithubUsernameOfMatch` | easyapply/themes/filters.py:30-70 | when the stripped URL matches the GitHub pattern, the handle is the captured `[\w\d\-]+` group |
| `Filters.GetGithubUsernameSpec` | easyapply/themes/filters.py:30-72 | a handle is found if and only if there is a protocol and the rest matches the GitHub pattern |
| `Filters.GetGithubUsernameOfParts` | easyapply/themes/filters.py:67-70 | `scheme://github.com/<handle><tail>` gives `handle` when the tail is empty or starts with '/' |
| `Filters.StripHttpExample` | tests/test_filters.py:7 | `"http://google.com"` strips to `"google.com"` |
| `Filters.StripFileExample` | tests/test_filters.py:8 | `"file:///home/user/test"` strips to `"/home/user/test"` |
| `Filters.StripNoProtocolExample` | tests/test_filters.py:9-10 | `"google.com"` is rejected |
| `Filters.GithubNoProtocolExample` | tests/test_filters.py:20-27 | the three GitHub URLs without a protocol are rejected |
| `Filters.GithubRepoExample` | tests/test_filters.py:14-16 | a repository URL gives the owner's handle |
| `Filters.GithubProfileExample` | tests/test_filters.py:17 | a profile URL gives its handle |
| `Filters.GithubProfileSlashExample` | tests/test_filters.py:18 | a trailing slash still gives the handle |
| `Filters.UrlTestCases` | tests/test_filters.py:6-18 | the test file's URL cases that have a protocol |
| `Filters.HrefPhone` | easyapply/themes/filters.py:432-436 | the four successive replacements equal one removal of the set {' ', '-', '(', ')'}, after "tel:" |
| `Filters.HrefPhoneClean` | easyapply/themes/filters.py:432-436 | a number without separators is only prefixed with "tel:" |
| `Filters.HrefPhoneSeparated` | easyapply/themes/filters.py:432-436 | a separator between two parts vanishes: the link equals the link of the parts glued together |
| `Filters.HrefPhoneKeepsOthers` | easyapply/themes/filters.py:432-436 | every character other than the four separators occurs in the link as often as in the number |
| `Filters.HrefPhoneKeepsPlus` | easyapply/themes/filters.py:428-436 | `"+49 (30) 1234-5"` gives `"tel:+493012345"`: the plus sign stays, whatever the doc comment says |
| `Filters.HrefEmail` | easyapply/themes/filters.py:450 | "mailto:" followed by the address, untouched |
| `Filters.EmbedJs` | easyapply/themes/filters.py:319 | the code verbatim between the opening and closing script tags |
| `Filters.FirstBreak` | easyapply/themes/filters.py:481 | the leftmost position of "\n\n", or none when there is no break |
| `Filters.SplitParagraphs` | easyapply/themes/filters.py:481 | a non-empty list whose join with "\n\n" is the text, with no break inside any piece and no piece but the last ending in a newline |
| `Filters.SplitParagraphsUnique` | easyapply/themes/filters.py:481 | every list with those properties is the one `split` returns |
| `Filters.ClassRenamed` | easyapply/themes/filters.py:380-384 | no `class_` key remains; `class` holds `class_`'s value; other keys are unchanged; keys stay distinct; the new `class` entry comes last |
| `Filters.AttributeItems` | easyapply/themes/filters.py:391 | one `key="value"` item per attribute, in map order |
| `Filters.EmbedImage` | easyapply/themes/filters.py:368-393 | the extension defaults to "png"; conflict error first, then the mimetype error for `.ext`, otherwise the tag with the renamed attributes and the data URI |
| `Dates.YearField` | easyapply/themes/filters.py:90-97 | `%Y` accepts four digits, giving 0 to 9999 |
| `Dates.MonthField` | easyapply/themes/filters.py:90-94 | `%m` on two characters gives 1 to 12 |
| `Dates.DayField` | easyapply/themes/filters.py:90-91 | `%d` on two characters gives 1 to 31 |
| `Dates.MakeDate` | easyapply/themes/filters.py:90-97 | a result is a real calendar date; year 0 and days past the month's end are a ValueError |
| `Dates.ParseDate` | easyapply/themes/filters.py:90-99 | any length other than 10, 7 or 4 is `ValueError("Invalid date: ...")`; results are valid dates; a missing day or month is 1 |
| `Dates.YearFieldOfPad4` | easyapply/themes/filters.py:91 | a zero-padded year reads back as itself |
| `Dates.MonthFieldOfPad2` | easyapply/themes/filters.py:91 | a zero-padded month reads back as itself |
| `Dates.DayFieldOfPad2` | easyapply/themes/filters.py:91 | a zero-padded day reads back as itself |
| `Dates.ParseIsoDate` | easyapply/themes/filters.py:90-97 | every valid date written YYYY-MM-DD parses to itself; its 7- and 4-character prefixes parse to the first of the month and the year |
| `Dates.Pad4OfYearField` | easyapply/themes/filters.py:91 | a four-digit year field is the padding of its value |
| `Dates.Pad2OfMonthField` | easyapply/themes/filters.py:91 | a month field is the padding of its value |
| `Dates.Pad2OfDayField` | easyapply/themes/filters.py:91 | a day field without a leading space is the padding of its value |
| `Dates.IsoDateOfParsed` | easyapply/themes/filters.py:90-91 | conversely, a full date that parses (day not space-padded) is the ISO text of its result |
| `Dates.SpacePaddedDay` | easyapply/themes/filters.py:91 | `"2022-01- 5"` parses, because `%d` allows a leading space |
| `Dates.ParseDateTestCases` | tests/test_filters.py:30-36 | the three formats give 1 January 2022, and a date with a time is rejected |
| `Dates.InvalidCalendarDates` | easyapply/themes/filters.py:90-97 | 29 February is rejected in 2023 and accepted in 2024; year 0000 is rejected |
| `Dates.DaySuffix` | easyapply/themes/filters.py:135-137 | equals the English ordinal suffix of the day; "th" exactly for days 4 to 20 and 24 to 30 |
| `Dates.DaySuffixTestTable` | tests/test_filters.py:39-44 | agrees with the test's expectation table for every day of January 2022 |
| `SvgTree.Element.constructor` | easyapply/themes/filters.py:197 | a parsed element with its tag, attributes and children, forming a finite tree |
| `SvgTree.Element.Nodes` | easyapply/themes/filters.py:198 | the subtree in document order, the element itself first |
| `SvgTree.SetOnPaths` | easyapply/themes/filters.py:198-199 | every path element of the tree, the root included, gets the attribute assigned; every other element keeps its attributes |
| `SvgTree.SetFill` | easyapply/themes/filters.py:197-200 | every path has `fill` equal to the colour; its other attributes read as before; non-path elements are unchanged |
| `SvgTree.SetStroke` | easyapply/themes/filters.py:215-218 | the same for `stroke` |
| `SvgTree.SetFillTwice` | easyapply/themes/filters.py:197-200 | filling twice with one colour leaves the tree as filling once does |
| `SvgTree.AddAttributes` | easyapply/themes/filters.py:407-414 | conflict error with the root untouched; otherwise the root's attributes are updated with the renamed map: given keys take the given values, others keep theirs; the root's keys stay distinct |
| `FileSystem.ReadBack` | easyapply/themes/filters.py:244-245 | what `read_text` returns for a stored text: no carriage return is left, and the text never grows |
| `FileSystem.ReadBackIdentity` | easyapply/themes/globals.py:119 | a text without carriage returns reads back as written |
| `FileSystem.ReadBackIdempotent` | easyapply/themes/globals.py:101-102 | reading back a read-back text changes nothing more |
| `FileSystem.ReadBackLineEnd` | easyapply/themes/globals.py:101-102 | a line ending in "\r\n" or in a lone "\r" reads back ending in "\n" |
| `FileSystem.ReadBackAppend` | easyapply/themes/globals.py:146 | reading back a concatenation reads back the parts, when the first part does not end in "\r" |
| `FileSystem.ReadBackResult` | easyapply/themes/globals.py:118-119 | an error is passed on; a text is read back |
| `SvgCache.CacheFileInjective` | easyapply/themes/filters.py:241-243 | different digests name different cache files |
| `SvgCache.CachedTool` | easyapply/themes/filters.py:236-259 | an absent tool returns the input and touches nothing; only the input's cache file may change; an error changes nothing; a hit changes nothing and returns the stored text read back by `read_text`; a successful miss stores the result as it is |
| `SvgCache.CachedToolHitRunsNoTool` | easyapply/themes/filters.py:244-245 | on a hit the outcome does not depend on the tool, and the returned text has no carriage return |
| `SvgCache.CachedToolRepeat` | easyapply/themes/filters.py:241-259 | a second identical call changes no file and returns the first result read back; it repeats the first exactly when that result has no carriage return |
| `SvgCache.CachedToolTransparent` | easyapply/themes/filters.py:241-259 | with a coherent cache, the call returns what the tool returns on a miss and that result read back on a hit; the cache stays coherent when the texts sharing the input's digest give the same output |
| `SvgCache.ToolCachesDisjoint` | easyapply/themes/filters.py:242-284 | the svgo and scour caches never share a file |
| `SvgCache.CacheDirName` | easyapply/themes/globals.py:93-96 | the base name, plus five characters for svgo and six for scour |
| `SvgCache.CacheDirNames` | easyapply/themes/globals.py:93-96 | the four names, `_svgo` always before `_scour` |
| `SvgCache.CacheDirNameInjective` | easyapply/themes/globals.py:93-96 | each tool setup has its own cache directory |
| `SvgCache.Pipeline` | easyapply/themes/globals.py:104-146 | svgo first, then scour on svgo's output read back, each only when found, each output file read back by `read_text`; with neither tool the input is returned; once a tool has run the result has no carriage return |
| `SvgCache.OptimizeRun` | easyapply/themes/globals.py:89-150 | only the input's cache file may change; an error changes nothing; a hit changes nothing and returns the stored text read back; a successful miss stores the result as it is |
| `SvgCache.OptimizeHitRunsNoTool` | easyapply/themes/globals.py:99-102 | a hit runs neither tool, and the returned text has no carriage return |
| `SvgCache.OptimizeNoTools` | easyapply/themes/globals.py:93-150 | with neither tool, a miss stores and returns the input under `easyapply_svg_cache` |
| `SvgCache.OptimizeRepeat` | easyapply/themes/globals.py:99-150 | repeating a successful call changes no file and returns the first result read back; with a tool found, or a first result without a carriage return, it repeats the first exactly |
| `SvgCache.OptimizeTransparent` | easyapply/themes/globals.py:99-150 | with a coherent cache, the result is the pipeline's on a miss and the pipeline's read back on a hit; the cache stays coherent when the texts sharing the input's digest give the same output |
| `SvgCache.ReadBackResultOfTool` | easyapply/themes/globals.py:119 | a tool output without carriage returns reads back unchanged |
| `SvgCache.OptimizeMatchesFilterChain` | easyapply/themes/globals.py:104-146 | with coherent caches, each tool giving the same output on files as through stdin and stdout, and no tool output holding a carriage return: optimize_svg returns what the svgo filter then the scour filter of filters.py return when a tool is found, and the same text up to newline translation when none is |
| `SvgCache.Host.constructor` | easyapply/themes/globals.py:89-91 | a machine with a fixed tool setup and the given files |
| `SvgCache.Host.RunCached` | easyapply/themes/filters.py:236-259 | the imperative lookup (read back on a hit), run and store, with the new files and result as `CachedTool` gives them |
| `SvgCache.Host.Svgo` | easyapply/themes/filters.py:221-259 | the svgo filter on the machine, as `CachedTool` in the svgo cache directory |
| `SvgCache.Host.Scour` | easyapply/themes/filters.py:262-306 | the scour filter on the machine, as `CachedTool` in the scour cache directory |
| `SvgCache.Host.OptimizeSvg` | easyapply/themes/globals.py:89-150 | the imperative optimize_svg, reading back the hit and each tool's output file, with the new files and result as `OptimizeRun` gives them |
| `Globals.SplitScheme` | easyapply/themes/globals.py:30 | the scheme, when present, is followed by a colon in the cleaned URL; with no scheme nothing is consumed |
| `Globals.SplitSchemeOfParts` | easyapply/themes/globals.py:30 | a clean `scheme:rest` splits at the colon, with the scheme lower-cased |
| `Globals.SplitSchemeOfAbsolute` | easyapply/themes/globals.py:27-30 | an absolute path has no scheme |
| `Globals.UrlPath` | easyapply/themes/globals.py:39 | the path component contains no '#' or '?' |
| `Globals.Absolute` | easyapply/themes/globals.py:28 | an absolute path stays as it is; a relative one is joined to the directory; against an absolute directory the result is absolute |
| `Globals.Locate` | easyapply/themes/globals.py:27-41 | remote exactly for http and https; a `file:` URI exactly for `file`, read from its path component; otherwise the origin itself as a local path |
| `Globals.PathOriginIsLocal` | easyapply/themes/globals.py:27-41 | a `Path` origin is always read from the local disk, at its resolved path |
| `Globals.ReadFile` | easyapply/themes/globals.py:39-41 | the file's text read back by `read_text` (no carriage return left) when a file exists at the resolved path; every failed read is FileNotFoundError |
| `Globals.ReadTextFile` | easyapply/themes/globals.py:26-41 | a remote origin is fetched from the network; anything else is read from the path `Locate` gives |
| `Globals.LocateRemote` | easyapply/themes/globals.py:30-35 | http and https in any letter case are fetched from the network |
| `Globals.UrlPathOfParts` | easyapply/themes/globals.py:39 | after `//authority`, the path up to the query is the path component |
| `Globals.LocateFileUri` | easyapply/themes/globals.py:38-39 | `file://authority/path?query` is read from the path alone |
| `Globals.RemoteExamples` | easyapply/themes/globals.py:30-35 | https and upper-case HTTP URLs are both fetched from the network |
| `Globals.FileUriHostExample` | easyapply/themes/globals.py:38-39 | `file://localhost/tmp/app.js?v=2` reads `/tmp/app.js`: the host name and the query are dropped |
| `Globals.DriveLetterIsLocal` | easyapply/themes/globals.py:30-41 | a Windows drive letter is a one-letter scheme, read as a local path |
| `Globals.EmbedJs` | easyapply/themes/globals.py:44-47 | fails exactly when reading fails, with that error; otherwise the text read, between script tags |
| `Globals.Spaced` | easyapply/themes/globals.py:62-64 | a non-empty attribute text gets one leading space; an empty one stays empty |
| `Globals.EmbedImageBase64` | easyapply/themes/globals.py:50-66 | a read error first, then the mimetype error naming the path, otherwise the tag with the spaced attribute text |
| `Globals.ClassOverwritten` | easyapply/themes/globals.py:51-53 | with both keys given, `class_`'s value replaces `class`'s and one entry fewer remains |
| `Globals.ImageTagDoubleSpace` | easyapply/themes/globals.py:62-66 | the tag always begins `"<img  "`, unlike embed_image's, which has one space before non-empty attributes |
| `Globals.EmbedSvg` | easyapply/themes/globals.py:153-160 | a read error changes nothing; otherwise the files change as optimize_svg changes them, and the root's attributes are updated with the renamed map, other root attributes kept |
| `Themes.FindTheme` | easyapply/themes/__init__.py:86-95 | the current directory's theme whenever it exists; otherwise the parent's if it exists; otherwise none; a result always exists and is one of the two candidates |
| `Themes.FindThemeAbsolute` | easyapply/themes/__init__.py:86-93 | pathlib's `/` lets an absolute theme name replace both candidates: it is found exactly when it exists |
| `Themes.GetTemplate` | easyapply/themes/__init__.py:119 | the template file under the loader directory, or TemplateNotFound |
| `Themes.LoadTemplateRuntimeError` | easyapply/themes/__init__.py:118-120 | RuntimeError exactly when no theme is found |
| `Themes.LoadTemplateSearchesTemplatesDir` | easyapply/themes/__init__.py:119 | a loaded template comes from `<theme>/templates`, the current directory's theme first |
| `Themes.FilterTable` | easyapply/themes/__init__.py:47-63 | each registered name is bound to the filters.py function of that name, in registration order |
| `Themes.FilterNamesDistinct` | easyapply/themes/__init__.py:47-63 | no filter name is registered twice |
| `Themes.FilterNamesDefined` | easyapply/themes/__init__.py:47-63 | every registered name is a function filters.py defines |
| `Themes.FilterTableShape` | easyapply/themes/__init__.py:47-63 | exactly seventeen filters, each found under its own name |
| `Themes.RegisterNext` | easyapply/themes/__init__.py:47-63 | registering the next name extends the table registered so far |
| `Themes.GlobalsAttribute` | easyapply/themes/__init__.py:65-66 | an attribute of the globals module, or AttributeError when the module has no such name |
| `Themes.GlobalsLacksReadText` | easyapply/themes/__init__.py:65-66 | globals.py has `read_text_file` but neither `read_text` nor `read_bytes` |
| `Themes.Environment.constructor` | easyapply/themes/__init__.py:43-46 | an environment loading from the directory, with empty filter and global tables |
| `Themes.Environment.RegisterFilter` | easyapply/themes/__init__.py:47 | one filter assignment; the globals are untouched |
| `Themes.Environment.RegisterGlobal` | easyapply/themes/__init__.py:65 | one global assignment; a missing name raises before anything is stored |
| `Themes.NewEnvironment` | easyapply/themes/__init__.py:43-63 | a fresh environment whose filter table is the seventeen filters, registered by a loop |
| `Themes.NewEnvironmentAsWritten` | easyapply/themes/__init__.py:43-67 | the construction as written: AttributeError for `read_text`, then for `read_bytes`, when the globals module lacks them |
| `Themes.EnvCache.constructor` | easyapply/themes/__init__.py:9 | an empty memo table |
| `Themes.EnvCache.GetEnv` | easyapply/themes/__init__.py:9-67 | a seen directory gives the very same environment and builds nothing; a new one gets a fresh environment with the filter table, which is remembered |
| `Themes.EnvCache.GetEnvAsWritten` | easyapply/themes/__init__.py:9-67 | as written: a raising call memoises nothing, so with `read_text` missing every new directory fails |
| `Themes.EnvCache.LoadTemplate` | easyapply/themes/__init__.py:98-120 | the result is the template of the found theme's `templates` directory, or RuntimeError; with no theme the memo is unchanged; with one, only the entry of `<theme>/templates` may be added: kept if it was memoised, otherwise a fresh environment with the seventeen filters, every other entry kept |

## Left out

- Parsing and serialising XML are not modelled.
  - `SvgTree` works on the parsed `Element` tree.
  - `Globals.EmbedSvg` takes the parser as a function that maps a text to
    its root attribute map, and returns the updated map, not the
    serialised text.
- These are function parameters of the model, not implementations:
  - SHA-256;
  - running svgo and scour;
  - `mimetypes.guess_type`;
  - reading and base64-encoding a file;
  - `urlopen` with `decode`.

  Tool availability is a fixed boolean per tool, because `find_svgo` and
  `find_scour` are memoised per process.
- Temporary files are not modelled. `optimize_svg` writes the text to a
  temporary directory and runs each tool on files; the model applies the
  tool's file-mode function (`svgoOnFiles`, `scourOnFiles`) directly.
- SvgCache.OptimizeMatchesFilterChain assumes that each tool gives the
  same output when run on files (as `optimize_svg` runs it) as when run
  through stdin and stdout (as the filters run it), and that no tool
  output holds a carriage return. The model keeps the two modes as
  separate functions and makes their agreement a precondition. Without
  the second assumption the two differ: `optimize_svg` reads each tool's
  output file back with `read_text`, which turns "\r\n" and "\r" into
  "\n", while the filters return a fresh tool output as it is.
- Creating cache directories and logging are not modelled.
- Python's `\w` and `strptime`'s `\d` also match non-ASCII word characters
  and digits. The model accepts ASCII only.
- Several parts of `urlparse` are not modelled:
  - the netloc and its bracket checks, which raise ValueError for a
    malformed IPv6 host;
  - params and the query, beyond their effect on the path of a `file:`
    URI.
- Themes.FindTheme, Globals.Absolute and the other path joins do not
  normalise paths as pathlib does: `.` segments, empty segments, doubled
  or trailing slashes are kept as written. pathlib's rule that an absolute
  right operand replaces the left side is modelled (`FileSystem.Slash`).
- `Path.resolve` is modelled as joining a relative path to the current
  directory. The model does not normalise `..` and does not follow
  symbolic links.
- Decoding errors are not modelled: `read_text` reading text that is not
  valid UTF-8.
- Globals.ReadFile models every failed read as FileNotFoundError. The file
  map holds regular files only, so reading a directory (IsADirectoryError,
  e.g. the empty path of `file://host`, which pathlib reads as `.`) and a
  permission failure (PermissionError) are not told apart.
- Jinja2 is not modelled beyond the loader directory and the two tables:
  - how a template name such as `../x` is resolved;
  - the bytecode cache;
  - rendering.
- `format_date`, `bibtex`, `b64encode` and `rasterize` wrap strftime,
  pybtex, base64 and cairosvg. They appear only as names in the filter
  table.
- `render_bibfile` wraps pybtex. It appears only among the top-level
  names of the globals module (`Themes.GlobalsModuleNames`).
- `find_svgo` and `find_scour` are not modelled as functions. Their
  memoised result is the `svgoFound` and `scourFound` of `SvgCache.Tools`.
- SvgTree.SetOnPaths, SvgTree.SetFill, SvgTree.SetStroke and
  SvgTree.SetFillTwice state their postconditions only for elements
  allocated before the call. The parsed tree exists before the call, so
  this covers every element they touch.
- Themes.EnvCache.GetEnvAsWritten states what happens for a new directory
  only when `read_text` is missing, which is the case for this globals
  module (`Themes.GlobalsLacksReadText`).

## Findings

`get_env` registers two globals that do not exist, so every theme load
raises.

| source | as written | input that shows it | evidently intended | confidence | as-written member | corrected member |
|---|---|---|---|---|---|---|
| easyapply/themes/__init__.py:65-66 | `get_env` binds `globals.read_text` and `globals.read_bytes`, but globals.py defines only `read_text_file`. Building an environment therefore raises AttributeError. `functools.cache` stores nothing for a call that raises, so the memo table stays empty | any template directory, e.g. `load_template` of any theme that exists | an environment with the seventeen filters, built once per directory and memoised | not executed | `Themes.EnvCache.GetEnvAsWritten` (with `Themes.GlobalsLacksReadText`) | `Themes.EnvCache.GetEnv` |

Where the doc comment and the code disagree, the model follows the code:

- `href_phone` removes only spaces, hyphens and parentheses. It keeps `+`,
  letters and every other character (`Filters.HrefPhoneKeepsPlus`,
  `Filters.HrefPhoneKeepsOthers`).

The two image builders differ, and the model keeps both as written:

- `embed_image_base64` renames `class_` without the conflict check that
  `embed_image` and `add_attributes` make (`Globals.ClassOverwritten`).
- `embed_image_base64` always puts two spaces after `<img`;
  `embed_image` puts one before a non-empty attribute text
  (`Globals.ImageTagDoubleSpace`).

`load_template` uses the corrected `get_env`, as the rest of the model
does.
