/**
 * easyapply/themes/globals.py: reading a resource by origin, embedding
 * JavaScript, images and SVG documents.
 *
 * The file system is the file map of SvgCache.Host; the network is a
 * function from URL to the decoded response body or the error urlopen
 * raises; the current directory is a parameter.
 */
module Globals {
  import opened Results
  import opened Text
  import opened Dicts
  import Filters
  import opened FileSystem
  import opened SvgCache

  // ---------------------------------------------------------------------
  // The scheme of urllib.parse.urlsplit
  // ---------------------------------------------------------------------

  /** C0 controls and space, which urlsplit strips from the front. */
  predicate IsControlOrSpace(c: char) {
    c <= ' '
  }

  /** Tab, carriage return and line feed, which urlsplit removes everywhere. */
  const UnsafeUrlChars: set<char> := {'\t', '\r', '\n'}

  predicate IsSchemeChar(c: char) {
    IsAsciiLetter(c) || IsDigit(c) || c == '+' || c == '-' || c == '.'
  }

  predicate NotColon(c: char) {
    c != ':'
  }

  /** The text urlsplit parses. */
  function Cleaned(url: string): string {
    Without(url[PrefixRun(url, IsControlOrSpace)..], UnsafeUrlChars)
  }

  /**
   * urlsplit's scheme and the text after it: a scheme is the text before
   * the first colon when that is non-empty, starts with an ASCII letter
   * and holds only scheme characters; it is lower-cased. Otherwise the
   * scheme is empty and nothing is consumed.
   */
  function SplitScheme(url: string): (r: (string, string))
    ensures r.0 == "" ==> r.1 == Cleaned(url)
    ensures r.0 != "" ==> |r.0| + 1 + |r.1| == |Cleaned(url)| && Cleaned(url)[|r.0|] == ':'
  {
    var u := Cleaned(url);
    var i := PrefixRun(u, NotColon);
    if 0 < i < |u| && IsAsciiLetter(u[0]) && AllChars(u[..i], IsSchemeChar) then
      (AsciiLower(u[..i]), u[i + 1..])
    else
      ("", u)
  }

  /** A clean `scheme:rest` splits at the colon, the scheme lower-cased. */
  lemma SplitSchemeOfParts(scheme: string, rest: string)
    requires |scheme| > 0 && IsAsciiLetter(scheme[0]) && AllChars(scheme, IsSchemeChar)
    requires forall i :: 0 <= i < |rest| ==> rest[i] !in UnsafeUrlChars
    ensures SplitScheme(scheme + ":" + rest) == (AsciiLower(scheme), rest)
  {
    var url := scheme + ":" + rest;
    assert PrefixRun(url, IsControlOrSpace) == 0;
    assert url[0..] == url;
    WithoutNone(url, UnsafeUrlChars);
    assert url[..|scheme|] == scheme;
    PrefixRunIs(url, NotColon, |scheme|);
    assert url[|scheme| + 1..] == rest;
  }

  /** An absolute path has no scheme. */
  lemma SplitSchemeOfAbsolute(path: string)
    requires |path| > 0 && path[0] == '/'
    ensures SplitScheme(path).0 == ""
  {
    assert PrefixRun(path, IsControlOrSpace) == 0;
    assert path[0..] == path;
    assert Cleaned(path)[0] == '/' by {
      assert path == [path[0]] + path[1..];
    }
  }

  predicate NotAuthorityEnd(c: char) {
    c != '/' && c != '?' && c != '#'
  }

  predicate NotHash(c: char) {
    c != '#'
  }

  predicate NotQuestion(c: char) {
    c != '?'
  }

  /**
   * urlsplit's path component of the text after the scheme: past a
   * `//authority`, up to the first '#' and then the first '?'.
   */
  function UrlPath(rest: string): (path: string)
    ensures |path| <= |rest|
    ensures forall i :: 0 <= i < |path| ==> path[i] != '#' && path[i] != '?'
  {
    var afterAuthority := if |rest| >= 2 && rest[..2] == "//" then rest[2..][PrefixRun(rest[2..], NotAuthorityEnd)..] else rest;
    var beforeFragment := afterAuthority[..PrefixRun(afterAuthority, NotHash)];
    var path := beforeFragment[..PrefixRun(beforeFragment, NotQuestion)];
    assert forall i :: 0 <= i < |path| ==> path[i] == beforeFragment[i];
    path
  }

  // ---------------------------------------------------------------------
  // read_text_file
  // ---------------------------------------------------------------------

  /** The argument of read_text_file: a `Path` object or a string. */
  datatype Origin = PathOrigin(path: string) | TextOrigin(text: string)

  /** Where read_text_file takes the text from. */
  datatype Source = Remote(url: string) | FileUri(path: string) | LocalPath(path: string)

  /** A path made absolute against the current directory, as Path.resolve does (without normalising). */
  function Absolute(cwd: string, path: string): (r: string)
    ensures |cwd| > 0 && cwd[0] == '/' ==> |r| > 0 && r[0] == '/'
  {
    Slash(cwd, path)
  }

  /** The string read_text_file dispatches on: a Path is resolved first. */
  function OriginText(origin: Origin, cwd: string): string {
    match origin
    case PathOrigin(p) => Absolute(cwd, p)
    case TextOrigin(t) => t
  }

  function Locate(origin: Origin, cwd: string): (s: Source)
    ensures s.Remote? <==> SplitScheme(OriginText(origin, cwd)).0 in {"http", "https"}
    ensures s.FileUri? <==> SplitScheme(OriginText(origin, cwd)).0 == "file"
    ensures s.Remote? ==> s.url == OriginText(origin, cwd)
    ensures s.FileUri? ==> s.path == UrlPath(SplitScheme(OriginText(origin, cwd)).1)
    ensures s.LocalPath? ==> s.path == OriginText(origin, cwd)
  {
    var text := OriginText(origin, cwd);
    var (scheme, rest) := SplitScheme(text);
    if scheme == "http" || scheme == "https" then Remote(text)
    else if scheme == "file" then FileUri(UrlPath(rest))
    else LocalPath(text)
  }

  /** With an absolute current directory, a Path origin is always read from the local disk. */
  lemma PathOriginIsLocal(cwd: string, path: string)
    requires |cwd| > 0 && cwd[0] == '/'
    ensures Locate(PathOrigin(path), cwd) == LocalPath(Absolute(cwd, path))
  {
    SplitSchemeOfAbsolute(Absolute(cwd, path));
  }

  /**
   * `Path(path).read_text()`: relative paths are taken from the current
   * directory, and the text comes back with its line ends translated.
   */
  function ReadFile(files: Files, cwd: string, path: string): (r: Result<string>)
    ensures r.Ok? <==> Absolute(cwd, path) in files
    ensures r.Ok? ==> r.value == ReadBack(files[Absolute(cwd, path)]) && NoCarriageReturn(r.value)
    ensures r.Err? ==> r.error == FileNotFoundError(path)
  {
    if Absolute(cwd, path) in files then Ok(ReadBack(files[Absolute(cwd, path)])) else Err(FileNotFoundError(path))
  }

  function ReadTextFile(files: Files, cwd: string, fetch: string -> Result<string>, origin: Origin): (r: Result<string>)
    ensures Locate(origin, cwd).Remote? ==> r == fetch(OriginText(origin, cwd))
    ensures !Locate(origin, cwd).Remote? ==> r == ReadFile(files, cwd, Locate(origin, cwd).path)
  {
    match Locate(origin, cwd)
    case Remote(url) => fetch(url)
    case FileUri(path) => ReadFile(files, cwd, path)
    case LocalPath(path) => ReadFile(files, cwd, path)
  }

  predicate NoUnsafe(s: string) {
    forall i :: 0 <= i < |s| ==> s[i] !in UnsafeUrlChars
  }

  /** `http://...` and `https://...` in any letter case are fetched from the network. */
  lemma LocateRemote(scheme: string, rest: string, cwd: string)
    requires |scheme| > 0 && IsAsciiLetter(scheme[0]) && AllChars(scheme, IsSchemeChar)
    requires AsciiLower(scheme) in {"http", "https"} && NoUnsafe(rest)
    ensures Locate(TextOrigin(scheme + ":" + rest), cwd) == Remote(scheme + ":" + rest)
  {
    SplitSchemeOfParts(scheme, rest);
  }

  /** After `//authority`, a path without '#' or '?' followed by a query is the path component. */
  lemma UrlPathOfParts(authority: string, path: string, query: string)
    requires AllChars(authority, NotAuthorityEnd)
    requires |path| > 0 && path[0] == '/' && AllChars(path, NotHash) && AllChars(path, NotQuestion)
    requires (|query| > 0 ==> query[0] == '?') && AllChars(query, NotHash)
    ensures UrlPath("//" + authority + path + query) == path
  {
    var rest := "//" + authority + path + query;
    var afterSlashes := authority + path + query;
    assert rest[..2] == "//" && rest[2..] == afterSlashes;
    assert afterSlashes[..|authority|] == authority;
    PrefixRunIs(afterSlashes, NotAuthorityEnd, |authority|);
    var after := path + query;
    assert afterSlashes[|authority|..] == after;
    AllCharsAppend(path, query, NotHash);
    assert after[..|after|] == after;
    PrefixRunIs(after, NotHash, |after|);
    assert after[..|path|] == path;
    PrefixRunIs(after, NotQuestion, |path|);
  }

  /**
   * `file://authority/path?query` is read from the path alone: the
   * authority and the query are dropped.
   */
  lemma LocateFileUri(authority: string, path: string, query: string, cwd: string)
    requires AllChars(authority, NotAuthorityEnd)
    requires |path| > 0 && path[0] == '/' && AllChars(path, NotHash) && AllChars(path, NotQuestion)
    requires (|query| > 0 ==> query[0] == '?') && AllChars(query, NotHash)
    requires NoUnsafe("//" + authority + path + query)
    ensures Locate(TextOrigin("file://" + authority + path + query), cwd) == FileUri(path)
  {
    var rest := "//" + authority + path + query;
    SplitSchemeOfParts("file", rest);
    assert "file" + ":" + rest == "file://" + authority + path + query;
    assert AsciiLower("file") == "file";
    UrlPathOfParts(authority, path, query);
  }

  lemma HttpSchemesLowered()
    ensures AsciiLower("https") == "https"
    ensures AsciiLower("HTTP") == "http"
  {
  }

  /** Web URLs are fetched whatever the letter case of their scheme. */
  lemma RemoteExamples(lower: string, upper: string, rest: string, cwd: string)
    requires lower == "https" && upper == "HTTP" && rest == "//example.org/app.js"
    ensures Locate(TextOrigin(lower + ":" + rest), cwd).Remote?
    ensures Locate(TextOrigin(upper + ":" + rest), cwd).Remote?
  {
    HttpSchemesLowered();
    LocateRemote(lower, rest, cwd);
    LocateRemote(upper, rest, cwd);
  }

  /** A host name and a query in a `file:` URI are dropped. */
  lemma FileUriHostExample(cwd: string)
    ensures Locate(TextOrigin("file://" + "localhost" + "/tmp/app.js" + "?v=2"), cwd) == FileUri("/tmp/app.js")
  {
    LocateFileUri("localhost", "/tmp/app.js", "?v=2", cwd);
  }

  /** A Windows drive letter reads as a one-letter scheme, which is read as a local path. */
  lemma DriveLetterIsLocal(cwd: string)
    ensures Locate(TextOrigin("C:/themes/app.js"), cwd) == LocalPath("C:/themes/app.js")
  {
    SplitSchemeOfParts("C", "/themes/app.js");
    assert "C" + ":" + "/themes/app.js" == "C:/themes/app.js";
  }

  // ---------------------------------------------------------------------
  // embed_js, embed_image_base64, embed_svg
  // ---------------------------------------------------------------------

  /** embed_js: the text of the origin between script tags, or the error reading it raised. */
  function EmbedJs(files: Files, cwd: string, fetch: string -> Result<string>, origin: Origin): (r: Result<string>)
    ensures r.Err? <==> ReadTextFile(files, cwd, fetch, origin).Err?
    ensures r.Err? ==> r == ReadTextFile(files, cwd, fetch, origin)
    ensures r.Ok? ==> r.value == Filters.EmbedJs(ReadTextFile(files, cwd, fetch, origin).value)
  {
    match ReadTextFile(files, cwd, fetch, origin)
    case Err(e) => Err(e)
    case Ok(code) => Ok(Filters.EmbedJs(code))
  }

  /** A non-empty attribute text gets one more leading space. */
  function Spaced(attrs: string): (r: string)
    ensures attrs == "" ==> r == ""
    ensures attrs != "" ==> r == " " + attrs
  {
    if attrs != "" then " " + attrs else attrs
  }

  /**
   * embed_image_base64: `class_` overwrites `class` without a check;
   * the mimetype is guessed from the path, then the file is read and
   * base64-encoded (`readBase64`), and only then is a missing mimetype
   * reported.
   */
  method EmbedImageBase64(path: string, attributes: Dict, guessType: string -> Option<string>,
                          readBase64: string -> Result<string>) returns (r: Result<string>)
    requires KeysDistinct(attributes)
    ensures readBase64(path).Err? ==> r == Err(readBase64(path).error)
    ensures readBase64(path).Ok? && guessType(path).None? ==>
      r == Err(ValueError("Could not guess mimetype for " + path))
    ensures readBase64(path).Ok? && guessType(path).Some? ==>
      r == Ok(Filters.ImageTag(Spaced(Filters.AttributeText(Filters.ClassRenamed(attributes))),
                               guessType(path).value, readBase64(path).value))
  {
    var attrs := attributes;
    if Has(attrs, "class_") {
      attrs := Assign(attrs, "class", Get(attrs, "class_").value);
      attrs := Delete(attrs, "class_");
    }
    var mimetype := guessType(path);
    var encoded := readBase64(path);
    if encoded.Err? {
      return Err(encoded.error);
    }
    if mimetype.None? {
      return Err(ValueError("Could not guess mimetype for " + path));
    }
    var text := Filters.AttributeText(attrs);
    if text != "" {
      text := " " + text;
    }
    r := Ok("<img " + text + " src='data:" + mimetype.value + ";base64," + encoded.value + "'>");
  }

  /** When both are given, `class_`'s value replaces `class`'s and one entry fewer remains. */
  lemma ClassOverwritten(attributes: Dict)
    requires KeysDistinct(attributes) && Has(attributes, "class_") && Has(attributes, "class")
    ensures Get(Filters.ClassRenamed(attributes), "class") == Get(attributes, "class_")
    ensures |Filters.ClassRenamed(attributes)| == |attributes| - 1
  {
    var withClass := Assign(attributes, "class", Get(attributes, "class_").value);
    AssignKeysDistinct(attributes, "class", Get(attributes, "class_").value);
    AssignGet(attributes, "class", Get(attributes, "class_").value, "class_");
    DeleteCount(withClass, "class_");
  }

  /**
   * embed_image_base64's tag always begins `<img  `; Filters.EmbedImage's
   * non-empty attribute text follows a single space.
   */
  lemma ImageTagDoubleSpace(attrs: string, mimetype: string, data: string)
    ensures Filters.ImageTag(Spaced(attrs), mimetype, data)[..6] == "<img  "
    ensures attrs != "" ==> Filters.ImageTag(attrs, mimetype, data)[..5 + |attrs|] == "<img " + attrs
  {
    var t := Filters.ImageTag(Spaced(attrs), mimetype, data);
    if attrs == "" {
      assert t == "<img " + " src='data:" + mimetype + ";base64," + data + "'>";
    } else {
      assert t == "<img " + " " + attrs + " src='data:" + mimetype + ";base64," + data + "'>";
    }
  }

  /**
   * embed_svg: `class_` renamed without a check, the origin read and
   * optimised through the cache, then the root element's attributes
   * updated. `rootAttributes` is the attribute map of the root element
   * ElementTree parses from a text; the result is that map after the
   * update (serialisation is not modelled).
   */
  method EmbedSvg(host: Host, origin: Origin, attributes: Dict, cwd: string,
                  fetch: string -> Result<string>, rootAttributes: string -> Dict) returns (r: Result<Dict>)
    requires KeysDistinct(attributes)
    modifies host
    ensures ReadTextFile(old(host.files), cwd, fetch, origin).Err? ==>
      r == Err(ReadTextFile(old(host.files), cwd, fetch, origin).error) && host.files == old(host.files)
    ensures ReadTextFile(old(host.files), cwd, fetch, origin).Ok? ==>
      var optimized := OptimizeRun(old(host.files), host.tools, ReadTextFile(old(host.files), cwd, fetch, origin).value);
      host.files == optimized.files
      && (optimized.result.Err? ==> r == Err(optimized.result.error))
      && (optimized.result.Ok? ==> r == Ok(Update(rootAttributes(optimized.result.value), Filters.ClassRenamed(attributes))))
    ensures r.Ok? ==> exists text :: forall k ::
      Get(r.value, k) == if Has(Filters.ClassRenamed(attributes), k) then Get(Filters.ClassRenamed(attributes), k)
                         else Get(rootAttributes(text), k)
  {
    var attrs := attributes;
    if Has(attrs, "class_") {
      attrs := Assign(attrs, "class", Get(attrs, "class_").value);
      attrs := Delete(attrs, "class_");
    }
    assert attrs == Filters.ClassRenamed(attributes);
    var source := ReadTextFile(host.files, cwd, fetch, origin);
    if source.Err? {
      return Err(source.error);
    }
    var optimized := host.OptimizeSvg(source.value);
    if optimized.Err? {
      return Err(optimized.error);
    }
    var root := rootAttributes(optimized.value);
    forall k ensures Get(Update(root, attrs), k) == if Has(attrs, k) then Get(attrs, k) else Get(root, k) {
      UpdateGet(root, attrs, k);
    }
    r := Ok(Update(root, attrs));
  }
}
