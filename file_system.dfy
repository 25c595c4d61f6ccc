/**
 * The machine's file system as the theme library sees it: text files by
 * absolute path, pathlib's `/` operator, and the newline translation of
 * `Path.read_text`.
 */
module FileSystem {
  import opened Results

  /** The text files of the machine, by absolute path. */
  type Files = map<string, string>

  /** `Path(dir) / name` for a relative name: one separator between the parts. */
  function Join(dir: string, name: string): string {
    dir + "/" + name
  }

  /**
   * pathlib's `/` for any right operand: an absolute name replaces the
   * left side, a relative one is joined to it.
   */
  function Slash(dir: string, name: string): (r: string)
    ensures |name| > 0 && name[0] == '/' ==> r == name
    ensures !(|name| > 0 && name[0] == '/') ==> r == Join(dir, name)
  {
    if |name| > 0 && name[0] == '/' then name else Join(dir, name)
  }

  predicate NoCarriageReturn(s: string) {
    forall i :: 0 <= i < |s| ==> s[i] != '\r'
  }

  /**
   * What `Path.read_text()` returns for a file holding `s`: the file is
   * opened in text mode with universal newlines, so "\r\n" and a lone
   * "\r" both read as "\n". `write_text` stores a text as it is.
   */
  function ReadBack(s: string): (r: string)
    ensures NoCarriageReturn(r)
    ensures |r| <= |s|
  {
    if s == [] then []
    else
      var (line, rest) :=
        if s[0] == '\r' && |s| > 1 && s[1] == '\n' then ('\n', s[2..])
        else if s[0] == '\r' then ('\n', s[1..])
        else (s[0], s[1..]);
      var r := [line] + ReadBack(rest);
      assert forall i :: 0 < i < |r| ==> r[i] == ReadBack(rest)[i - 1];
      r
  }

  /** Text without a carriage return reads back as written. */
  lemma {:induction false} ReadBackIdentity(s: string)
    requires NoCarriageReturn(s)
    ensures ReadBack(s) == s
  {
    if s != [] {
      assert NoCarriageReturn(s[1..]) by {
        assert forall i :: 0 <= i < |s[1..]| ==> s[1..][i] == s[i + 1];
      }
      ReadBackIdentity(s[1..]);
    }
  }

  /** Reading back what was read back changes nothing more. */
  lemma ReadBackIdempotent(s: string)
    ensures ReadBack(ReadBack(s)) == ReadBack(s)
  {
    ReadBackIdentity(ReadBack(s));
  }

  /** A line ending in "\r\n" (Windows) or in "\r" (old Mac) reads back ending in "\n". */
  lemma ReadBackLineEnd(line: string)
    requires NoCarriageReturn(line)
    ensures ReadBack(line + "\r\n") == line + "\n"
    ensures ReadBack(line + "\r") == line + "\n"
  {
    ReadBackIdentity(line);
    ReadBackAppend(line, "\r\n");
    ReadBackAppend(line, "\r");
    assert ReadBack("\r\n") == "\n" by { assert "\r\n"[2..] == []; }
    assert ReadBack("\r") == "\n" by { assert "\r"[1..] == []; }
  }

  /** Reading a concatenation reads the parts, when the first does not end in "\r". */
  lemma {:induction false} ReadBackAppend(a: string, b: string)
    requires a == [] || a[|a| - 1] != '\r'
    ensures ReadBack(a + b) == ReadBack(a) + ReadBack(b)
  {
    if a != [] {
      if a[0] == '\r' && |a| > 1 && a[1] == '\n' {
        assert (a + b)[2..] == a[2..] + b;
        ReadBackAppend(a[2..], b);
      } else {
        assert (a + b)[1..] == a[1..] + b;
        ReadBackAppend(a[1..], b);
      }
    } else {
      assert a + b == b;
    }
  }

  /** `Path(path).read_text()` of a text result, the error passed on. */
  function ReadBackResult(r: Result<string>): (t: Result<string>)
    ensures r.Err? ==> t == r
    ensures r.Ok? ==> t == Ok(ReadBack(r.value))
  {
    match r
    case Err(e) => Err(e)
    case Ok(s) => Ok(ReadBack(s))
  }
}
