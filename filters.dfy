/**
 * The string filters of easyapply/themes/filters.py: URL and GitHub-handle
 * parsing, contact links, script and image embedding, the `class_`
 * keyword convention, and paragraph splitting.
 */
module Filters {
  import opened Results
  import opened Text
  import opened Dicts

  // ---------------------------------------------------------------------
  // strip_url_protocol: the pattern ^\w+://(.+)
  // ---------------------------------------------------------------------

  /** The regular-expression class `.`: any character but a newline. */
  predicate NotNewline(c: char) {
    c != '\n'
  }

  /**
   * `^\w+://(.+)` matches `url` with `\w+` covering url[..k] and the group
   * covering url[k + 3..m]; `.+` is greedy, so it stops only at a newline
   * or at the end.
   */
  predicate UrlProtoMatch(url: string, k: nat, m: nat) {
    && 0 < k && k + 3 < m <= |url|
    && AllChars(url[..k], IsWordChar)
    && url[k..k + 3] == "://"
    && AllChars(url[k + 3..m], NotNewline)
    && (m < |url| ==> url[m] == '\n')
  }

  function StripUrlProtocol(url: string): (r: Result<string>)
    ensures r.Err? ==> r.error == ValueError("Invalid URL: " + url)
    ensures r.Ok? ==> |r.value| > 0 && AllChars(r.value, NotNewline)
  {
    var k := PrefixRun(url, IsWordChar);
    if 0 < k && k + 3 < |url| && url[k..k + 3] == "://" && url[k + 3] != '\n' then
      var rest := url[k + 3..];
      var n := PrefixRun(rest, NotNewline);
      Ok(rest[..n])
    else
      Err(ValueError("Invalid URL: " + url))
  }

  /** Whenever the pattern matches, the filter returns the matched group. */
  lemma StripUrlProtocolOfMatch(url: string, k: nat, m: nat)
    requires UrlProtoMatch(url, k, m)
    ensures StripUrlProtocol(url) == Ok(url[k + 3..m])
  {
    assert !IsWordChar(url[k]) by { assert url[k] == url[k..k + 3][0]; }
    PrefixRunIs(url, IsWordChar, k);
    var rest := url[k + 3..];
    assert rest[..m - k - 3] == url[k + 3..m];
    assert m - k - 3 < |rest| ==> rest[m - k - 3] == url[m];
    PrefixRunIs(rest, NotNewline, m - k - 3);
  }

  /** The filter succeeds exactly when the pattern matches, and then returns its group. */
  lemma StripUrlProtocolSpec(url: string)
    ensures StripUrlProtocol(url).Ok? <==> exists k: nat, m: nat :: UrlProtoMatch(url, k, m)
    ensures StripUrlProtocol(url).Ok? ==>
      exists k: nat, m: nat :: UrlProtoMatch(url, k, m) && StripUrlProtocol(url).value == url[k + 3..m]
  {
    var k := PrefixRun(url, IsWordChar);
    if StripUrlProtocol(url).Ok? {
      var rest := url[k + 3..];
      var n := PrefixRun(rest, NotNewline);
      assert url[k + 3..k + 3 + n] == rest[..n];
      assert UrlProtoMatch(url, k, k + 3 + n);
    }
    if exists k': nat, m': nat :: UrlProtoMatch(url, k', m') {
      var k': nat, m': nat :| UrlProtoMatch(url, k', m');
      StripUrlProtocolOfMatch(url, k', m');
    }
  }

  // ---------------------------------------------------------------------
  // get_github_username: ^github\.com/([\w\d\-]+)(?:$|/.*) after stripping
  // ---------------------------------------------------------------------

  /** The class `[\w\d\-]`. */
  predicate IsHandleChar(c: char) {
    IsWordChar(c) || c == '-'
  }

  /**
   * The GitHub pattern matches the stripped URL `s` with the handle
   * s[11..11 + j]: it follows "github.com/", and the end of the string or a
   * slash follows it.
   */
  predicate GithubMatch(s: string, j: nat) {
    && 11 + j <= |s|
    && s[..11] == "github.com/"
    && 0 < j
    && AllChars(s[11..11 + j], IsHandleChar)
    && (11 + j < |s| ==> s[11 + j] == '/')
  }

  function GetGithubUsername(url: string): (r: Result<string>)
    ensures StripUrlProtocol(url).Err? ==> r == Err(StripUrlProtocol(url).error)
    ensures StripUrlProtocol(url).Ok? && r.Err? ==>
      r.error == ValueError("Invalid GitHub URL: " + StripUrlProtocol(url).value)
  {
    match StripUrlProtocol(url)
    case Err(e) => Err(e)
    case Ok(s) =>
      if |s| >= 11 && s[..11] == "github.com/" then
        var j := PrefixRun(s[11..], IsHandleChar);
        if 0 < j && (11 + j == |s| || s[11 + j] == '/') then Ok(s[11..11 + j])
        else Err(ValueError("Invalid GitHub URL: " + s))
      else
        Err(ValueError("Invalid GitHub URL: " + s))
  }

  /** When the stripped URL matches the GitHub pattern, the handle is the captured group. */
  lemma GetGithubUsernameOfMatch(url: string, j: nat)
    requires StripUrlProtocol(url).Ok? && GithubMatch(StripUrlProtocol(url).value, j)
    ensures GetGithubUsername(url) == Ok(StripUrlProtocol(url).value[11..11 + j])
  {
    var s := StripUrlProtocol(url).value;
    assert s[11..][..j] == s[11..11 + j];
    PrefixRunIs(s[11..], IsHandleChar, j);
  }

  /** The handle is found exactly when a protocol is present and the rest matches the GitHub pattern. */
  lemma GetGithubUsernameSpec(url: string)
    ensures GetGithubUsername(url).Ok? <==>
      StripUrlProtocol(url).Ok? && exists j: nat :: GithubMatch(StripUrlProtocol(url).value, j)
  {
    if GetGithubUsername(url).Ok? {
      var s := StripUrlProtocol(url).value;
      var j := PrefixRun(s[11..], IsHandleChar);
      assert s[11..][..j] == s[11..11 + j];
      assert GithubMatch(s, j);
    }
    if StripUrlProtocol(url).Ok? && exists j: nat :: GithubMatch(StripUrlProtocol(url).value, j) {
      var j: nat :| GithubMatch(StripUrlProtocol(url).value, j);
      GetGithubUsernameOfMatch(url, j);
    }
  }

  /** A scheme, "://" and a one-line rest: the filter returns the rest. */
  lemma StripUrlProtocolOfParts(scheme: string, rest: string)
    requires |scheme| > 0 && AllChars(scheme, IsWordChar)
    requires |rest| > 0 && AllChars(rest, NotNewline)
    ensures StripUrlProtocol(scheme + "://" + rest) == Ok(rest)
  {
    var url := scheme + "://" + rest;
    var k := |scheme|;
    assert url[..k] == scheme;
    assert url[k..k + 3] == "://";
    assert url[k + 3..|url|] == rest;
    StripUrlProtocolOfMatch(url, k, |url|);
  }

  /** A GitHub profile URL gives its handle, whatever path follows a slash. */
  lemma GetGithubUsernameOfParts(scheme: string, handle: string, tail: string)
    requires |scheme| > 0 && AllChars(scheme, IsWordChar)
    requires |handle| > 0 && AllChars(handle, IsHandleChar)
    requires AllChars(tail, NotNewline) && (tail == [] || tail[0] == '/')
    ensures GetGithubUsername(scheme + "://" + ("github.com/" + handle + tail)) == Ok(handle)
  {
    var s := "github.com/" + handle + tail;
    StripUrlProtocolOfParts(scheme, s);
    assert s[..11] == "github.com/";
    assert s[11..11 + |handle|] == handle;
    GetGithubUsernameOfMatch(scheme + "://" + s, |handle|);
  }

  lemma StripHttpExample()
    ensures StripUrlProtocol("http://google.com") == Ok("google.com")
  {
    assert "http://google.com" == "http" + "://" + "google.com";
    StripUrlProtocolOfParts("http", "google.com");
  }

  lemma StripFileExample()
    ensures StripUrlProtocol("file:///home/user/test") == Ok("/home/user/test")
  {
    assert "file:///home/user/test" == "file" + "://" + "/home/user/test";
    StripUrlProtocolOfParts("file", "/home/user/test");
  }

  lemma StripNoProtocolExample()
    ensures StripUrlProtocol("google.com").Err?
  {
    PrefixRunIs("google.com", IsWordChar, 6);
    assert "google.com"[6] == '.';
  }

  /** A host name is followed by a dot, not by "://". */
  lemma StripNoSchemeSeparator(url: string, k: nat)
    requires 0 < k < |url| && AllChars(url[..k], IsWordChar) && url[k] == '.'
    ensures StripUrlProtocol(url).Err?
  {
    PrefixRunIs(url, IsWordChar, k);
  }

  /** A bare host name has no protocol, so neither filter accepts it. */
  lemma NoProtocolHost(host: string, rest: string)
    requires |host| > 0 && AllChars(host, IsWordChar)
    ensures StripUrlProtocol(host + "." + rest).Err?
    ensures GetGithubUsername(host + "." + rest).Err?
  {
    var url := host + "." + rest;
    assert url[..|host|] == host;
    StripNoSchemeSeparator(url, |host|);
  }

  /** Without a protocol there is no handle, as tests/test_filters.py expects. */
  lemma GithubNoProtocolExample()
    ensures GetGithubUsername("github" + "." + "com/torvalds/linux").Err?
    ensures GetGithubUsername("github" + "." + "com/f-koehler").Err?
    ensures GetGithubUsername("github" + "." + "com/f-koehler/").Err?
  {
    NoProtocolHost("github", "com/torvalds/linux");
    NoProtocolHost("github", "com/f-koehler");
    NoProtocolHost("github", "com/f-koehler/");
  }

  lemma GithubRepoExample()
    ensures GetGithubUsername("https://github.com/torvalds/linux") == Ok("torvalds")
  {
    assert "https://github.com/torvalds/linux" == "https" + "://" + ("github.com/" + "torvalds" + "/linux");
    GetGithubUsernameOfParts("https", "torvalds", "/linux");
  }

  lemma GithubProfileExample()
    ensures GetGithubUsername("https://github.com/f-koehler") == Ok("f-koehler")
  {
    assert "https://github.com/f-koehler" == "https" + "://" + ("github.com/" + "f-koehler" + "");
    GetGithubUsernameOfParts("https", "f-koehler", "");
  }

  lemma GithubProfileSlashExample()
    ensures GetGithubUsername("https://github.com/f-koehler/") == Ok("f-koehler")
  {
    assert "https://github.com/f-koehler/" == "https" + "://" + ("github.com/" + "f-koehler" + "/");
    GetGithubUsernameOfParts("https", "f-koehler", "/");
  }

  /** The URL cases of tests/test_filters.py with a protocol; GithubNoProtocolExample has the others. */
  lemma UrlTestCases()
    ensures StripUrlProtocol("http://google.com") == Ok("google.com")
    ensures StripUrlProtocol("file:///home/user/test") == Ok("/home/user/test")
    ensures StripUrlProtocol("google.com").Err?
    ensures GetGithubUsername("https://github.com/torvalds/linux") == Ok("torvalds")
    ensures GetGithubUsername("https://github.com/f-koehler") == Ok("f-koehler")
    ensures GetGithubUsername("https://github.com/f-koehler/") == Ok("f-koehler")
  {
    StripHttpExample();
    StripFileExample();
    StripNoProtocolExample();
    GithubRepoExample();
    GithubProfileExample();
    GithubProfileSlashExample();
  }

  // ---------------------------------------------------------------------
  // href_phone, href_email, embed_js
  // ---------------------------------------------------------------------

  /** The characters href_phone deletes. */
  const PhoneSeparators: set<char> := {' ', '-', '(', ')'}

  /**
   * "tel:" followed by the number after four successive `str.replace`
   * calls that delete spaces, hyphens and both parentheses; every other
   * character, digits or not, stays in order.
   */
  function HrefPhone(phone: string): (r: string)
    ensures r == "tel:" + Without(phone, PhoneSeparators)
  {
    WithoutTwice(phone, {' '}, {'-'});
    assert {' '} + {'-'} == {' ', '-'};
    WithoutTwice(phone, {' ', '-'}, {'('});
    assert {' ', '-'} + {'('} == {' ', '-', '('};
    WithoutTwice(phone, {' ', '-', '('}, {')'});
    assert {' ', '-', '('} + {')'} == PhoneSeparators;
    "tel:" + Without(Without(Without(Without(phone, {' '}), {'-'}), {'('}), {')'})
  }

  /** A number without separators is only prefixed. */
  lemma HrefPhoneClean(phone: string)
    requires forall i :: 0 <= i < |phone| ==> phone[i] !in PhoneSeparators
    ensures HrefPhone(phone) == "tel:" + phone
  {
    WithoutNone(phone, PhoneSeparators);
  }

  /** Separators between two parts vanish: the link is that of the parts glued together. */
  lemma HrefPhoneSeparated(a: string, sep: char, b: string)
    requires sep in PhoneSeparators
    ensures HrefPhone(a + [sep] + b) == HrefPhone(a + b)
  {
    WithoutAppend(a + [sep], b, PhoneSeparators);
    WithoutAppend(a, [sep], PhoneSeparators);
    WithoutAppend(a, b, PhoneSeparators);
  }

  /** A plus sign survives, although the doc comment speaks of removing every non-digit. */
  lemma HrefPhoneKeepsPlus(phone: string)
    requires phone == "+49 (30) 1234-5"
    ensures HrefPhone(phone) == "tel:+493012345"
  {
    var p1, p2, p3 := "+49 (", "30) ", "1234-5";
    assert phone == p1 + p2 + p3;
    WithoutAppend(p1 + p2, p3, PhoneSeparators);
    WithoutAppend(p1, p2, PhoneSeparators);
    PhonePieces();
  }

  /** Every character that is not a separator is kept, as often as it occurs. */
  lemma HrefPhoneKeepsOthers(phone: string, c: char)
    requires c !in PhoneSeparators
    ensures multiset(HrefPhone(phone)[4..])[c] == multiset(phone)[c]
  {
    assert HrefPhone(phone)[4..] == Without(phone, PhoneSeparators);
    WithoutKeepsCount(phone, PhoneSeparators, c);
  }

  lemma PhonePieces()
    ensures Without("+49 (", PhoneSeparators) == "+49"
    ensures Without("30) ", PhoneSeparators) == "30"
    ensures Without("1234-5", PhoneSeparators) == "12345"
  {
  }

  /** "mailto:" followed by the address, untouched. */
  function HrefEmail(email: string): (r: string)
    ensures |r| == 7 + |email| && r[..7] == "mailto:" && r[7..] == email
  {
    "mailto:" + email
  }

  const ScriptOpen := "<script type='text/javascript'>"
  const ScriptClose := "</script>"

  /** The code verbatim between an opening and a closing script tag. */
  function EmbedJs(code: string): (r: string)
    ensures |r| == |ScriptOpen| + |code| + |ScriptClose|
    ensures r[..|ScriptOpen|] == ScriptOpen && r[|r| - |ScriptClose|..] == ScriptClose
    ensures r[|ScriptOpen|..|r| - |ScriptClose|] == code
  {
    ScriptOpen + code + ScriptClose
  }

  // ---------------------------------------------------------------------
  // split_paragraphs: text.split("\n\n")
  // ---------------------------------------------------------------------

  /** A paragraph break (two newlines) starts at position i of t. */
  predicate BreakAt(t: string, i: int) {
    0 <= i && i + 1 < |t| && t[i] == '\n' && t[i + 1] == '\n'
  }

  predicate HasBreak(t: string) {
    exists i :: 0 <= i < |t| && BreakAt(t, i)
  }

  predicate EndsWithNewline(t: string) {
    |t| > 0 && t[|t| - 1] == '\n'
  }

  /** The position of the leftmost paragraph break, as str.split scans for it. */
  function FirstBreak(t: string): (r: Option<nat>)
    ensures r.Some? ==> BreakAt(t, r.value) && forall j :: 0 <= j < r.value ==> !BreakAt(t, j)
    ensures r.None? ==> !HasBreak(t)
  {
    if |t| < 2 then None
    else if t[0] == '\n' && t[1] == '\n' then Some(0)
    else
      var r := FirstBreak(t[1..]);
      assert forall j :: 0 < j ==> (BreakAt(t, j) <==> BreakAt(t[1..], j - 1));
      match r
      case None => None
      case Some(j) => Some(j + 1)
  }

  /**
   * A list of pieces is a split of `t` on "\n\n" when joining it back gives
   * `t`, no piece holds a break, and no piece but the last ends in a
   * newline (so each separator used is the leftmost one available).
   */
  predicate IsParagraphSplit(t: string, ps: seq<string>) {
    && |ps| >= 1
    && JoinWith(ps, "\n\n") == t
    && (forall i :: 0 <= i < |ps| ==> !HasBreak(ps[i]))
    && (forall i :: 0 <= i < |ps| - 1 ==> !EndsWithNewline(ps[i]))
  }

  function SplitParagraphs(text: string): (r: seq<string>)
    ensures IsParagraphSplit(text, r)
    decreases |text|
  {
    match FirstBreak(text)
    case None => [text]
    case Some(i) =>
      var head := text[..i];
      var rest := SplitParagraphs(text[i + 2..]);
      assert !HasBreak(head) by {
        assert forall j :: BreakAt(head, j) ==> BreakAt(text, j);
      }
      assert !EndsWithNewline(head) by {
        assert i > 0 ==> !BreakAt(text, i - 1);
      }
      assert text == head + "\n\n" + text[i + 2..];
      var r := [head] + rest;
      assert r[1..] == rest;
      r
  }

  /** The split is unique: every list with the properties above is the one str.split returns. */
  lemma {:induction false} SplitParagraphsUnique(t: string, ps: seq<string>)
    requires IsParagraphSplit(t, ps)
    ensures ps == SplitParagraphs(t)
    decreases |ps|
  {
    if |ps| == 1 {
      assert t == ps[0];
    } else {
      var p := ps[0];
      var rest := JoinWith(ps[1..], "\n\n");
      assert t == p + "\n\n" + rest;
      assert BreakAt(t, |p|);
      forall j | 0 <= j < |p| ensures !BreakAt(t, j) {
        if j + 1 < |p| {
          assert !BreakAt(p, j);
        } else {
          assert !EndsWithNewline(p);
        }
      }
      assert FirstBreak(t) == Some(|p|);
      assert t[|p| + 2..] == rest;
      assert t[..|p|] == p;
      assert IsParagraphSplit(rest, ps[1..]) by {
        forall i | 0 <= i < |ps[1..]| ensures !HasBreak(ps[1..][i]) {
          assert ps[1..][i] == ps[i + 1];
        }
        forall i | 0 <= i < |ps[1..]| - 1 ensures !EndsWithNewline(ps[1..][i]) {
          assert ps[1..][i] == ps[i + 1];
        }
      }
      SplitParagraphsUnique(rest, ps[1..]);
      assert ps == [p] + ps[1..];
    }
  }

  // ---------------------------------------------------------------------
  // The `class_` keyword convention of embed_image and add_attributes
  // ---------------------------------------------------------------------

  /**
   * The attribute map after `attributes["class"] = attributes["class_"]`
   * and `del attributes["class_"]` when a `class_` entry is present.
   */
  function ClassRenamed(attributes: Dict): (r: Dict)
    requires KeysDistinct(attributes)
    ensures KeysDistinct(r)
    ensures !Has(r, "class_")
    ensures !Has(attributes, "class_") ==> r == attributes
    ensures Has(attributes, "class_") ==> Get(r, "class") == Get(attributes, "class_")
    ensures forall k :: k != "class" && k != "class_" ==> Get(r, k) == Get(attributes, k)
    ensures Has(attributes, "class_") && !Has(attributes, "class") ==>
      |r| > 0 && r[..|r| - 1] == Delete(attributes, "class_") && r[|r| - 1] == ("class", Get(attributes, "class_").value)
  {
    if Has(attributes, "class_") then
      var v := Get(attributes, "class_").value;
      var withClass := Assign(attributes, "class", v);
      AssignKeysDistinct(attributes, "class", v);
      DeleteKeysDistinct(withClass, "class_");
      forall k ensures Get(Delete(withClass, "class_"), k) ==
        if k == "class_" then None else if k == "class" then Some(v) else Get(attributes, k)
      {
        DeleteGet(withClass, "class_", k);
        AssignGet(attributes, "class", v, k);
      }
      DeleteAppend(attributes, ("class", v), "class_");
      Delete(withClass, "class_")
    else
      assert !Has(attributes, "class_") ==> Get(attributes, "class_").None?;
      attributes
  }

  lemma {:induction false} DeleteAppend(d: Dict, e: (string, string), k: string)
    requires e.0 != k
    ensures Delete(d + [e], k) == Delete(d, k) + [e]
  {
    if d == [] {
      assert d + [e] == [e];
    } else {
      assert (d + [e])[1..] == d[1..] + [e];
      DeleteAppend(d[1..], e, k);
    }
  }

  /** One `key="value"` item per attribute, in map order. */
  function AttributeItems(attributes: Dict): (items: seq<string>)
    ensures |items| == |attributes|
    ensures forall i :: 0 <= i < |items| ==> items[i] == attributes[i].0 + "=\"" + attributes[i].1 + "\""
  {
    seq(|attributes|, i requires 0 <= i < |attributes| => attributes[i].0 + "=\"" + attributes[i].1 + "\"")
  }

  /** `" ".join(f'{key}="{attributes[key]}"' for key in attributes)` */
  function AttributeText(attributes: Dict): string {
    JoinWith(AttributeItems(attributes), " ")
  }

  /** An image tag whose source is the given data URI. */
  function ImageTag(attrs: string, mimetype: string, data: string): string {
    "<img " + attrs + " src='data:" + mimetype + ";base64," + data + "'>"
  }

  /**
   * embed_image: the `class_` check and rename, the mimetype of
   * "test." + extension, then the tag. `guessType` stands for
   * mimetypes.guess_type.
   */
  method EmbedImage(img: string, attributes: Dict, guessType: string -> Option<string>, extension: string := "png")
    returns (r: Result<string>)
    requires KeysDistinct(attributes)
    ensures Has(attributes, "class_") && Has(attributes, "class") ==>
      r == Err(ValueError("Cannot set both _class and class"))
    ensures !(Has(attributes, "class_") && Has(attributes, "class")) && guessType("test." + extension).None? ==>
      r == Err(ValueError("Could not guess mimetype for ." + extension))
    ensures !(Has(attributes, "class_") && Has(attributes, "class")) && guessType("test." + extension).Some? ==>
      r == Ok(ImageTag(AttributeText(ClassRenamed(attributes)), guessType("test." + extension).value, img))
  {
    var attrs := attributes;
    if Has(attrs, "class_") {
      if Has(attrs, "class") {
        return Err(ValueError("Cannot set both _class and class"));
      }
      attrs := Assign(attrs, "class", Get(attrs, "class_").value);
      attrs := Delete(attrs, "class_");
    }
    var mimetype := guessType("test." + extension);
    if mimetype.None? {
      return Err(ValueError("Could not guess mimetype for ." + extension));
    }
    var attributeText := AttributeText(attrs);
    r := Ok("<img " + attributeText + " src='data:" + mimetype.value + ";base64," + img + "'>");
  }
}
