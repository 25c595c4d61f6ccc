/**
 * The content-addressed SVG optimiser caches: `svgo` and `scour` of
 * easyapply/themes/filters.py and `optimize_svg` of
 * easyapply/themes/globals.py.
 *
 * The machine is a map from file paths to text plus a fixed tool setup:
 * the temporary directory, the SHA-256 hex digest, and for each of svgo
 * and scour whether `shutil.which` found it (find_svgo and find_scour are
 * memoised, so this is fixed per process) and what running it on a text
 * gives. The hash and the tools are uninterpreted functions.
 */
module SvgCache {
  import opened Results
  import opened FileSystem

  datatype Tools = Tools(
    /** tempfile.gettempdir() */
    tempDir: string,
    /** hashlib.sha256(svg.encode()).hexdigest() */
    sha256: string -> string,
    svgoFound: bool,
    /** svgo with the text on stdin and the output on stdout (the svgo filter), or the error check_output raises */
    svgo: string -> Result<string>,
    /** what svgo writes to its output file (optimize_svg), before it is read back */
    svgoOnFiles: string -> Result<string>,
    scourFound: bool,
    /** scour through stdin and stdout (the scour filter) */
    scour: string -> Result<string>,
    /** what scour writes to its `-o` file (optimize_svg), before it is read back */
    scourOnFiles: string -> Result<string>)

  /** The files after a call, and what the call returned or raised. */
  datatype Outcome = Outcome(files: Files, result: Result<string>)

  /** `cache_dir / (digest + ".svg")` */
  function CacheFile(dir: string, digest: string): string {
    Join(dir, digest + ".svg")
  }

  /** Different digests name different files of one directory. */
  lemma CacheFileInjective(dir: string, d1: string, d2: string)
    requires CacheFile(dir, d1) == CacheFile(dir, d2)
    ensures d1 == d2
  {
    var n := |dir| + 1;
    assert |d1| == |d2|;
    assert CacheFile(dir, d1)[n..n + |d1|] == d1;
    assert CacheFile(dir, d2)[n..n + |d2|] == d2;
  }

  /**
   * Every entry of the cache directory holds what `run` gives on a text
   * with that digest: the cache is a memo of `run`.
   */
  ghost predicate Coherent(files: Files, dir: string, hash: string -> string, run: string -> Result<string>) {
    forall s :: CacheFile(dir, hash(s)) in files ==> run(s) == Ok(files[CacheFile(dir, hash(s))])
  }

  /**
   * Every text sharing the digest of `svg` gives what `svg` gives, so the
   * entry stored for `svg` is right for all of them. No collision-free
   * hash is needed: only the texts that actually collide with `svg` count.
   */
  ghost predicate DigestDetermines(hash: string -> string, run: string -> Result<string>, svg: string) {
    forall s :: hash(s) == hash(svg) ==> run(s) == run(svg)
  }

  /** Files other than `path` are as they were. */
  ghost predicate SameExcept(before: Files, after: Files, path: string) {
    forall p :: p != path ==> (p in after <==> p in before) && (p in before ==> after[p] == before[p])
  }

  // ---------------------------------------------------------------------
  // svgo and scour of filters.py
  // ---------------------------------------------------------------------

  /** `Path(tempfile.gettempdir()) / "easyapply-cache" / name` */
  function ToolCacheDir(tempDir: string, name: string): string {
    Join(Join(tempDir, "easyapply-cache"), name)
  }

  /**
   * One filter call: an absent tool gives the text back and touches
   * nothing; otherwise a cached entry is read back with `read_text`, and
   * on a miss the tool runs and its output is stored, as it is, under the
   * digest of the input and returned.
   */
  function CachedTool(files: Files, found: bool, dir: string, hash: string -> string,
                      run: string -> Result<string>, svg: string): (o: Outcome)
    ensures !found ==> o == Outcome(files, Ok(svg))
    ensures SameExcept(files, o.files, CacheFile(dir, hash(svg)))
    ensures o.result.Err? ==> o.files == files
    ensures found && CacheFile(dir, hash(svg)) in files ==>
      o == Outcome(files, Ok(ReadBack(files[CacheFile(dir, hash(svg))])))
    ensures found && CacheFile(dir, hash(svg)) !in files && o.result.Ok? ==>
      o.files == files[CacheFile(dir, hash(svg)) := o.result.value]
  {
    if !found then Outcome(files, Ok(svg))
    else
      var path := CacheFile(dir, hash(svg));
      if path in files then Outcome(files, Ok(ReadBack(files[path])))
      else
        match run(svg)
        case Err(e) => Outcome(files, Err(e))
        case Ok(optimized) => Outcome(files[path := optimized], Ok(optimized))
  }

  /** On a cache hit the tool is not run: any other tool gives the same outcome. */
  lemma CachedToolHitRunsNoTool(files: Files, dir: string, hash: string -> string,
                                run: string -> Result<string>, other: string -> Result<string>, svg: string)
    requires CacheFile(dir, hash(svg)) in files
    ensures CachedTool(files, true, dir, hash, run, svg) == CachedTool(files, true, dir, hash, other, svg)
    ensures CachedTool(files, true, dir, hash, run, svg).result.Ok?
    ensures NoCarriageReturn(CachedTool(files, true, dir, hash, run, svg).result.value)
  {
  }

  /**
   * A second identical call changes no file and returns the first result
   * as `read_text` gives it back; when that result holds no carriage
   * return, the second call repeats the first exactly.
   */
  lemma CachedToolRepeat(files: Files, found: bool, dir: string, hash: string -> string,
                         run: string -> Result<string>, svg: string)
    requires CachedTool(files, found, dir, hash, run, svg).result.Ok?
    ensures var first := CachedTool(files, found, dir, hash, run, svg);
      var second := CachedTool(first.files, found, dir, hash, run, svg);
      second.files == first.files
      && second.result == Ok(if found then ReadBack(first.result.value) else first.result.value)
      && (NoCarriageReturn(first.result.value) ==> second == first)
  {
    var first := CachedTool(files, found, dir, hash, run, svg);
    if NoCarriageReturn(first.result.value) {
      ReadBackIdentity(first.result.value);
    }
  }

  /**
   * With a coherent cache, the call returns what running the tool returns
   * on a miss, and that result read back on a hit; the cache stays
   * coherent when the texts sharing the input's digest agree.
   */
  lemma CachedToolTransparent(files: Files, dir: string, hash: string -> string,
                              run: string -> Result<string>, svg: string)
    requires Coherent(files, dir, hash, run)
    ensures CachedTool(files, true, dir, hash, run, svg).result ==
      if CacheFile(dir, hash(svg)) in files then ReadBackResult(run(svg)) else run(svg)
    ensures DigestDetermines(hash, run, svg) ==>
      Coherent(CachedTool(files, true, dir, hash, run, svg).files, dir, hash, run)
  {
    var path := CacheFile(dir, hash(svg));
    var o := CachedTool(files, true, dir, hash, run, svg);
    if path !in files && run(svg).Ok? && DigestDetermines(hash, run, svg) {
      forall s | CacheFile(dir, hash(s)) in o.files
        ensures run(s) == Ok(o.files[CacheFile(dir, hash(s))])
      {
        if CacheFile(dir, hash(s)) == path {
          CacheFileInjective(dir, hash(s), hash(svg));
        }
      }
    }
  }

  /** The svgo and scour cache directories hold different files. */
  lemma ToolCachesDisjoint(tempDir: string, d1: string, d2: string)
    ensures CacheFile(ToolCacheDir(tempDir, "svgo"), d1) != CacheFile(ToolCacheDir(tempDir, "scour"), d2)
  {
    var i := |tempDir| + 18;
    assert CacheFile(ToolCacheDir(tempDir, "svgo"), d1)[i] == 'v';
    assert CacheFile(ToolCacheDir(tempDir, "scour"), d2)[i] == 'c';
  }

  // ---------------------------------------------------------------------
  // optimize_svg of globals.py
  // ---------------------------------------------------------------------

  /** "easyapply_svg_cache", then "_svgo" if svgo was found, then "_scour" if scour was found. */
  function CacheDirName(svgoFound: bool, scourFound: bool): (name: string)
    ensures |name| == 19 + (if svgoFound then 5 else 0) + (if scourFound then 6 else 0)
  {
    "easyapply_svg_cache" + (if svgoFound then "_svgo" else "") + (if scourFound then "_scour" else "")
  }

  lemma CacheDirNames()
    ensures CacheDirName(false, false) == "easyapply_svg_cache"
    ensures CacheDirName(true, false) == "easyapply_svg_cache_svgo"
    ensures CacheDirName(false, true) == "easyapply_svg_cache_scour"
    ensures CacheDirName(true, true) == "easyapply_svg_cache_svgo_scour"
  {
  }

  /** Each tool setup has a directory of its own, so results of different pipelines never mix. */
  lemma CacheDirNameInjective(svgo1: bool, scour1: bool, svgo2: bool, scour2: bool)
    requires CacheDirName(svgo1, scour1) == CacheDirName(svgo2, scour2)
    ensures svgo1 == svgo2 && scour1 == scour2
  {
  }

  function OptimizeDir(tools: Tools): string {
    Join(tools.tempDir, CacheDirName(tools.svgoFound, tools.scourFound))
  }

  /**
   * svgo first, then scour on svgo's output, each only when found; each
   * tool writes its output file and the pipeline reads it back with
   * `read_text`, so a pipeline that ran a tool never yields a carriage
   * return.
   */
  function Pipeline(tools: Tools, svg: string): (r: Result<string>)
    ensures !tools.svgoFound && !tools.scourFound ==> r == Ok(svg)
    ensures tools.svgoFound && !tools.scourFound ==> r == ReadBackResult(tools.svgoOnFiles(svg))
    ensures !tools.svgoFound && tools.scourFound ==> r == ReadBackResult(tools.scourOnFiles(svg))
    ensures tools.svgoFound && tools.scourFound ==>
      r == (if tools.svgoOnFiles(svg).Err? then tools.svgoOnFiles(svg)
            else ReadBackResult(tools.scourOnFiles(ReadBack(tools.svgoOnFiles(svg).value))))
    ensures (tools.svgoFound || tools.scourFound) && r.Ok? ==> NoCarriageReturn(r.value)
  {
    var afterSvgo := if tools.svgoFound then ReadBackResult(tools.svgoOnFiles(svg)) else Ok(svg);
    if afterSvgo.Err? || !tools.scourFound then afterSvgo
    else ReadBackResult(tools.scourOnFiles(afterSvgo.value))
  }

  /**
   * One optimize_svg call: the cache is consulted first, whatever tools
   * are found, and a hit is read back with `read_text`; on a miss the
   * pipeline runs and its output is stored under the digest of the input
   * and returned.
   */
  function OptimizeRun(files: Files, tools: Tools, svg: string): (o: Outcome)
    ensures SameExcept(files, o.files, CacheFile(OptimizeDir(tools), tools.sha256(svg)))
    ensures o.result.Err? ==> o.files == files
    ensures CacheFile(OptimizeDir(tools), tools.sha256(svg)) in files ==>
      o == Outcome(files, Ok(ReadBack(files[CacheFile(OptimizeDir(tools), tools.sha256(svg))])))
    ensures CacheFile(OptimizeDir(tools), tools.sha256(svg)) !in files && o.result.Ok? ==>
      o.files == files[CacheFile(OptimizeDir(tools), tools.sha256(svg)) := o.result.value]
  {
    var path := CacheFile(OptimizeDir(tools), tools.sha256(svg));
    if path in files then Outcome(files, Ok(ReadBack(files[path])))
    else
      match Pipeline(tools, svg)
      case Err(e) => Outcome(files, Err(e))
      case Ok(optimized) => Outcome(files[path := optimized], Ok(optimized))
  }

  /** A cache hit runs neither tool: replacing both gives the same outcome. */
  lemma OptimizeHitRunsNoTool(files: Files, tools: Tools, svgo: string -> Result<string>,
                              scour: string -> Result<string>, svg: string)
    requires CacheFile(OptimizeDir(tools), tools.sha256(svg)) in files
    ensures OptimizeRun(files, tools, svg) == OptimizeRun(files, tools.(svgoOnFiles := svgo, scourOnFiles := scour), svg)
    ensures OptimizeRun(files, tools, svg).result.Ok?
    ensures NoCarriageReturn(OptimizeRun(files, tools, svg).result.value)
  {
  }

  /** With neither tool found, a miss stores the input itself and returns it. */
  lemma OptimizeNoTools(files: Files, tools: Tools, svg: string)
    requires !tools.svgoFound && !tools.scourFound
    requires CacheFile(OptimizeDir(tools), tools.sha256(svg)) !in files
    ensures OptimizeRun(files, tools, svg) ==
      Outcome(files[CacheFile(Join(tools.tempDir, "easyapply_svg_cache"), tools.sha256(svg)) := svg], Ok(svg))
  {
    CacheDirNames();
  }

  /**
   * A second identical call changes no file and returns the first result
   * read back; with a tool found, or a first result without a carriage
   * return, it repeats the first call exactly.
   */
  lemma OptimizeRepeat(files: Files, tools: Tools, svg: string)
    requires OptimizeRun(files, tools, svg).result.Ok?
    ensures var first := OptimizeRun(files, tools, svg);
      var second := OptimizeRun(first.files, tools, svg);
      second.files == first.files
      && second.result == Ok(ReadBack(first.result.value))
      && (tools.svgoFound || tools.scourFound || NoCarriageReturn(first.result.value) ==> second == first)
  {
    var first := OptimizeRun(files, tools, svg);
    if CacheFile(OptimizeDir(tools), tools.sha256(svg)) in files {
      ReadBackIdempotent(files[CacheFile(OptimizeDir(tools), tools.sha256(svg))]);
    }
    if tools.svgoFound || tools.scourFound || NoCarriageReturn(first.result.value) {
      ReadBackIdentity(first.result.value);
    }
  }

  /**
   * With a cache that memoises the pipeline, the call returns what the
   * pipeline returns on a miss, and that result read back on a hit; the
   * cache stays coherent when the texts sharing the input's digest agree.
   */
  lemma OptimizeTransparent(files: Files, tools: Tools, run: string -> Result<string>, svg: string)
    requires forall s :: run(s) == Pipeline(tools, s)
    requires Coherent(files, OptimizeDir(tools), tools.sha256, run)
    ensures OptimizeRun(files, tools, svg).result ==
      if CacheFile(OptimizeDir(tools), tools.sha256(svg)) in files then ReadBackResult(Pipeline(tools, svg))
      else Pipeline(tools, svg)
    ensures DigestDetermines(tools.sha256, run, svg) ==>
      Coherent(OptimizeRun(files, tools, svg).files, OptimizeDir(tools), tools.sha256, run)
  {
    var path := CacheFile(OptimizeDir(tools), tools.sha256(svg));
    var o := OptimizeRun(files, tools, svg);
    if path !in files && Pipeline(tools, svg).Ok? && DigestDetermines(tools.sha256, run, svg) {
      forall s | CacheFile(OptimizeDir(tools), tools.sha256(s)) in o.files
        ensures run(s) == Ok(o.files[CacheFile(OptimizeDir(tools), tools.sha256(s))])
      {
        if CacheFile(OptimizeDir(tools), tools.sha256(s)) == path {
          CacheFileInjective(OptimizeDir(tools), tools.sha256(s), tools.sha256(svg));
        }
      }
    }
  }

  /** Running a tool never yields a carriage return. */
  ghost predicate NoCarriageReturnOut(run: string -> Result<string>) {
    forall s :: run(s).Ok? ==> NoCarriageReturn(run(s).value)
  }

  /** A tool's output without carriage returns reads back as written. */
  lemma ReadBackResultOfTool(run: string -> Result<string>, s: string)
    requires NoCarriageReturnOut(run)
    ensures ReadBackResult(run(s)) == run(s)
  {
    if run(s).Ok? {
      ReadBackIdentity(run(s).value);
    }
  }

  /**
   * optimize_svg gives what the template chain `svg | svgo | scour` of
   * filters.py gives, when all three caches are coherent, each tool gives
   * the same output on files as through stdin and stdout, and no tool
   * output holds a carriage return. With a tool found the two agree
   * exactly; with none, they agree up to the newline translation of a
   * hit.
   */
  lemma OptimizeMatchesFilterChain(files: Files, tools: Tools, run: string -> Result<string>, svg: string)
    requires forall s :: tools.svgoOnFiles(s) == tools.svgo(s)
    requires forall s :: tools.scourOnFiles(s) == tools.scour(s)
    requires NoCarriageReturnOut(tools.svgo) && NoCarriageReturnOut(tools.scour)
    requires forall s :: run(s) == Pipeline(tools, s)
    requires Coherent(files, OptimizeDir(tools), tools.sha256, run)
    requires Coherent(files, ToolCacheDir(tools.tempDir, "svgo"), tools.sha256, tools.svgo)
    requires Coherent(files, ToolCacheDir(tools.tempDir, "scour"), tools.sha256, tools.scour)
    ensures var first := CachedTool(files, tools.svgoFound, ToolCacheDir(tools.tempDir, "svgo"), tools.sha256, tools.svgo, svg);
      var chain := if first.result.Err? then first.result
        else CachedTool(first.files, tools.scourFound, ToolCacheDir(tools.tempDir, "scour"), tools.sha256, tools.scour, first.result.value).result;
      var optimized := OptimizeRun(files, tools, svg).result;
      ReadBackResult(optimized) == ReadBackResult(chain)
      && (tools.svgoFound || tools.scourFound ==> optimized == chain)
  {
    var svgoDir, scourDir := ToolCacheDir(tools.tempDir, "svgo"), ToolCacheDir(tools.tempDir, "scour");
    var first := CachedTool(files, tools.svgoFound, svgoDir, tools.sha256, tools.svgo, svg);
    OptimizeTransparent(files, tools, run, svg);
    ReadBackResultOfTool(tools.svgo, svg);
    if tools.svgoFound {
      CachedToolTransparent(files, svgoDir, tools.sha256, tools.svgo, svg);
    }
    assert first.result == (if tools.svgoFound then tools.svgo(svg) else Ok(svg));
    if first.result.Ok? {
      ReadBackResultOfTool(tools.scour, first.result.value);
      if tools.scourFound {
        assert Coherent(first.files, scourDir, tools.sha256, tools.scour) by {
          forall s | CacheFile(scourDir, tools.sha256(s)) in first.files
            ensures tools.scour(s) == Ok(first.files[CacheFile(scourDir, tools.sha256(s))])
          {
            ToolCachesDisjoint(tools.tempDir, tools.sha256(svg), tools.sha256(s));
          }
        }
        CachedToolTransparent(first.files, scourDir, tools.sha256, tools.scour, first.result.value);
      }
    }
    if !tools.svgoFound && !tools.scourFound {
      ReadBackIdempotent(svg);
    } else if Pipeline(tools, svg).Ok? {
      ReadBackIdentity(Pipeline(tools, svg).value);
    }
  }

  // ---------------------------------------------------------------------
  // The machine
  // ---------------------------------------------------------------------

  class Host {
    const tools: Tools
    var files: Files

    constructor (tools: Tools, files: Files)
      ensures this.tools == tools && this.files == files
    {
      this.tools := tools;
      this.files := files;
    }

    /** The body shared by svgo and scour: look up and read back, else run and store. */
    method RunCached(found: bool, dir: string, run: string -> Result<string>, svg: string) returns (r: Result<string>)
      modifies this
      ensures Outcome(files, r) == CachedTool(old(files), found, dir, tools.sha256, run, svg)
    {
      if !found {
        return Ok(svg);
      }
      var digest := tools.sha256(svg);
      var cacheFile := CacheFile(dir, digest);
      if cacheFile in files {
        return Ok(ReadBack(files[cacheFile]));
      }
      var optimized := run(svg);
      if optimized.Err? {
        return optimized;
      }
      files := files[cacheFile := optimized.value];
      return optimized;
    }

    /** The svgo filter. */
    method Svgo(svg: string) returns (r: Result<string>)
      modifies this
      ensures Outcome(files, r) ==
        CachedTool(old(files), tools.svgoFound, ToolCacheDir(tools.tempDir, "svgo"), tools.sha256, tools.svgo, svg)
    {
      r := RunCached(tools.svgoFound, ToolCacheDir(tools.tempDir, "svgo"), tools.svgo, svg);
    }

    /** The scour filter. */
    method Scour(svg: string) returns (r: Result<string>)
      modifies this
      ensures Outcome(files, r) ==
        CachedTool(old(files), tools.scourFound, ToolCacheDir(tools.tempDir, "scour"), tools.sha256, tools.scour, svg)
    {
      r := RunCached(tools.scourFound, ToolCacheDir(tools.tempDir, "scour"), tools.scour, svg);
    }

    /** optimize_svg: the cache directory named after the tools, then lookup, pipeline and store. */
    method OptimizeSvg(svg: string) returns (r: Result<string>)
      modifies this
      ensures Outcome(files, r) == OptimizeRun(old(files), tools, svg)
    {
      var suffix := "";
      suffix := suffix + (if tools.svgoFound then "_svgo" else "");
      suffix := suffix + (if tools.scourFound then "_scour" else "");
      var cacheDir := Join(tools.tempDir, "easyapply_svg_cache" + suffix);
      assert cacheDir == OptimizeDir(tools);
      var cacheFile := CacheFile(cacheDir, tools.sha256(svg));
      if cacheFile in files {
        return Ok(ReadBack(files[cacheFile]));
      }
      var current := svg;
      if tools.svgoFound {
        var optimized := tools.svgoOnFiles(current);
        if optimized.Err? {
          return optimized;
        }
        current := ReadBack(optimized.value);
      }
      if tools.scourFound {
        var optimized := tools.scourOnFiles(current);
        if optimized.Err? {
          return optimized;
        }
        current := ReadBack(optimized.value);
      }
      files := files[cacheFile := current];
      return Ok(current);
    }
  }
}
