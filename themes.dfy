/**
 * easyapply/themes/__init__.py: finding a theme directory, the memoised
 * Jinja2 environment of a template directory and loading a template.
 *
 * The file system is the set of paths that exist; the current directory
 * and its parent are parameters. An environment keeps its loader
 * directory and its filter and global tables; the rest of Jinja2 is not
 * part of this model.
 */
module Themes {
  import opened Results
  import opened Dicts
  import opened FileSystem

  // ---------------------------------------------------------------------
  // find_theme and the template path of load_template
  // ---------------------------------------------------------------------

  /** `Path(dir) / "themes" / name`: an absolute name stands for itself. */
  function ThemeDir(dir: string, name: string): string {
    Slash(Join(dir, "themes"), name)
  }

  /**
   * The theme under the current directory if it exists, else the one
   * under its parent if that exists, else none.
   */
  function FindTheme(cwd: string, parent: string, existing: set<string>, name: string): (r: Option<string>)
    ensures r.Some? ==> r.value in existing && (r.value == ThemeDir(cwd, name) || r.value == ThemeDir(parent, name))
    ensures r.None? <==> ThemeDir(cwd, name) !in existing && ThemeDir(parent, name) !in existing
    ensures ThemeDir(cwd, name) in existing ==> r == Some(ThemeDir(cwd, name))
    ensures ThemeDir(cwd, name) !in existing && ThemeDir(parent, name) in existing ==> r == Some(ThemeDir(parent, name))
  {
    var templateDir := ThemeDir(cwd, name);
    if templateDir in existing then Some(templateDir)
    else
      var parentDir := ThemeDir(parent, name);
      if parentDir in existing then Some(parentDir)
      else None
  }

  /**
   * An absolute theme name replaces both candidates, so the theme is found
   * exactly when that directory exists, wherever the build runs.
   */
  lemma FindThemeAbsolute(cwd: string, parent: string, existing: set<string>, name: string)
    requires |name| > 0 && name[0] == '/'
    ensures FindTheme(cwd, parent, existing, name) == if name in existing then Some(name) else None
  {
  }

  /** A template as the loader finds it: the file it was read from. */
  datatype Template = Template(path: string)

  /** FileSystemLoader.get_source: the template file under the loader directory, or TemplateNotFound. */
  function GetTemplate(loaderDir: string, existing: set<string>, template: string): (r: Result<Template>)
    ensures r.Ok? <==> Join(loaderDir, template) in existing
    ensures r.Ok? ==> r.value == Template(Join(loaderDir, template))
    ensures r.Err? ==> r.error == TemplateNotFound(template)
  {
    if Join(loaderDir, template) in existing then Ok(Template(Join(loaderDir, template)))
    else Err(TemplateNotFound(template))
  }

  /** What load_template gives: the template of the theme's `templates` directory. */
  function TemplateOf(cwd: string, parent: string, existing: set<string>, name: string, template: string): Result<Template> {
    match FindTheme(cwd, parent, existing, name)
    case None => Err(RuntimeError("Theme " + name + " not found"))
    case Some(themeDir) => GetTemplate(Join(themeDir, "templates"), existing, template)
  }

  /** load_template raises RuntimeError exactly when no theme directory is found. */
  lemma LoadTemplateRuntimeError(cwd: string, parent: string, existing: set<string>, name: string, template: string)
    ensures TemplateOf(cwd, parent, existing, name, template) == Err(RuntimeError("Theme " + name + " not found"))
      <==> FindTheme(cwd, parent, existing, name).None?
  {
  }

  /** A loaded template always comes from `<theme>/templates`, the theme under the current directory first. */
  lemma LoadTemplateSearchesTemplatesDir(cwd: string, parent: string, existing: set<string>, name: string, template: string)
    requires TemplateOf(cwd, parent, existing, name, template).Ok?
    ensures var path := TemplateOf(cwd, parent, existing, name, template).value.path;
      path in existing
      && (path == Join(Join(ThemeDir(cwd, name), "templates"), template)
          || (ThemeDir(cwd, name) !in existing && path == Join(Join(ThemeDir(parent, name), "templates"), template)))
  {
  }

  // ---------------------------------------------------------------------
  // The environment and its tables
  // ---------------------------------------------------------------------

  /** The filters get_env registers, in order; each is the function of filters.py of the same name. */
  const FilterNames: seq<string> := [
    "strip_url_protocol", "parse_date", "format_date", "day_suffix", "set_fill", "set_stroke",
    "svgo", "scour", "add_attributes", "embed_js", "bibtex", "embed_image", "b64encode",
    "href_phone", "href_email", "rasterize", "split_paragraphs"]

  /** The top-level functions of filters.py. */
  const FiltersFunctions: set<string> := {
    "strip_url_protocol", "get_github_username", "parse_date", "format_date", "day_suffix",
    "find_scour", "find_svgo", "set_fill", "set_stroke", "svgo", "scour", "embed_js", "bibtex",
    "b64encode", "embed_image", "add_attributes", "href_phone", "href_email", "rasterize",
    "split_paragraphs"}

  /** The top-level names of globals.py: its imports, LOGGER and its functions. */
  const GlobalsModuleNames: set<string> := {
    "base64", "functools", "hashlib", "io", "logging", "mimetypes", "shutil", "subprocess",
    "tempfile", "urllib", "Path", "ElementTree", "pybtex", "LOGGER",
    "read_text_file", "embed_js", "embed_image_base64", "find_scour", "find_svgo",
    "optimize_svg", "embed_svg", "render_bibfile"}

  /** The filter table: each name bound to the filters.py function of that name. */
  function FilterTable(): (t: Dict)
    ensures |t| == |FilterNames|
    ensures forall i :: 0 <= i < |t| ==> t[i] == (FilterNames[i], "filters." + FilterNames[i])
  {
    seq(|FilterNames|, i requires 0 <= i < |FilterNames| => (FilterNames[i], "filters." + FilterNames[i]))
  }

  lemma FilterNamesDistinct()
    ensures forall i, j :: 0 <= i < j < |FilterNames| ==> FilterNames[i] != FilterNames[j]
  {
  }

  /** Every registered name is a function filters.py defines. */
  lemma FilterNamesDefined()
    ensures forall i :: 0 <= i < |FilterNames| ==> FilterNames[i] in FiltersFunctions
  {
  }

  /** Seventeen filters, no name twice, each bound to the function of its own name. */
  lemma FilterTableShape()
    ensures |FilterTable()| == 17
    ensures KeysDistinct(FilterTable())
    ensures forall i :: 0 <= i < 17 ==> Get(FilterTable(), FilterNames[i]) == Some("filters." + FilterNames[i])
  {
    FilterNamesDistinct();
    forall i | 0 <= i < 17 ensures Get(FilterTable(), FilterNames[i]) == Some("filters." + FilterNames[i]) {
      GetAt(FilterTable(), i);
    }
  }

  /** Registering the next name of the table extends the table registered so far. */
  lemma RegisterNext(k: nat)
    requires k < |FilterNames|
    ensures Assign(FilterTable()[..k], FilterNames[k], "filters." + FilterNames[k]) == FilterTable()[..k + 1]
  {
    FilterNamesDistinct();
    assert !Has(FilterTable()[..k], FilterNames[k]);
  }

  /** `getattr(globals, name)` */
  function GlobalsAttribute(namespace: set<string>, name: string): (r: Result<string>)
    ensures r.Ok? <==> name in namespace
    ensures r.Ok? ==> r.value == "globals." + name
    ensures r.Err? ==> r.error == AttributeError(name)
  {
    if name in namespace then Ok("globals." + name) else Err(AttributeError(name))
  }

  /** globals.py defines read_text_file, but neither read_text nor read_bytes. */
  lemma GlobalsLacksReadText()
    ensures GlobalsAttribute(GlobalsModuleNames, "read_text") == Err(AttributeError("read_text"))
    ensures GlobalsAttribute(GlobalsModuleNames, "read_bytes") == Err(AttributeError("read_bytes"))
    ensures GlobalsAttribute(GlobalsModuleNames, "read_text_file") == Ok("globals.read_text_file")
  {
    assert "globals." + "read_text_file" == "globals.read_text_file";
  }

  /** A jinja2.Environment with a FileSystemLoader. */
  class Environment {
    const loaderDir: string
    var filters: Dict
    var globals: Dict

    constructor (loaderDir: string)
      ensures this.loaderDir == loaderDir && filters == [] && globals == []
    {
      this.loaderDir := loaderDir;
      filters := [];
      globals := [];
    }

    /** `env.filters[name] = filters.<name>` */
    method RegisterFilter(name: string)
      modifies this
      ensures filters == Assign(old(filters), name, "filters." + name) && globals == old(globals)
    {
      filters := Assign(filters, name, "filters." + name);
    }

    /** `env.globals[name] = globals.<name>`: the lookup fails before anything is stored. */
    method RegisterGlobal(namespace: set<string>, name: string) returns (error: Option<Error>)
      modifies this
      ensures filters == old(filters)
      ensures name in namespace ==> error == None && globals == Assign(old(globals), name, "globals." + name)
      ensures name !in namespace ==> error == Some(AttributeError(name)) && globals == old(globals)
    {
      var value := GlobalsAttribute(namespace, name);
      if value.Err? {
        return Some(value.error);
      }
      globals := Assign(globals, name, value.value);
      return None;
    }
  }

  /** The construction in get_env up to the filter table, registered in the order of the table. */
  method NewEnvironment(directory: string) returns (env: Environment)
    ensures fresh(env) && env.loaderDir == directory
    ensures env.filters == FilterTable() && env.globals == []
  {
    env := new Environment(directory);
    for i := 0 to |FilterNames|
      invariant env.filters == FilterTable()[..i] && env.globals == []
    {
      env.RegisterFilter(FilterNames[i]);
      RegisterNext(i);
    }
    assert FilterTable()[..|FilterNames|] == FilterTable();
  }

  /**
   * get_env's construction as written: the filter table, then the globals
   * `read_text` and `read_bytes` looked up in the globals module, whose
   * top-level names are `namespace`.
   */
  method NewEnvironmentAsWritten(directory: string, namespace: set<string>) returns (r: Result<Environment>)
    ensures "read_text" !in namespace ==> r == Err(AttributeError("read_text"))
    ensures "read_text" in namespace && "read_bytes" !in namespace ==> r == Err(AttributeError("read_bytes"))
    ensures "read_text" in namespace && "read_bytes" in namespace ==>
      r.Ok? && fresh(r.value) && r.value.loaderDir == directory && r.value.filters == FilterTable()
      && r.value.globals == [("read_text", "globals.read_text"), ("read_bytes", "globals.read_bytes")]
  {
    var env := NewEnvironment(directory);
    var error := env.RegisterGlobal(namespace, "read_text");
    if error.Some? {
      return Err(error.value);
    }
    error := env.RegisterGlobal(namespace, "read_bytes");
    if error.Some? {
      return Err(error.value);
    }
    assert "globals." + "read_text" == "globals.read_text" && "globals." + "read_bytes" == "globals.read_bytes";
    return Ok(env);
  }

  // ---------------------------------------------------------------------
  // The functools.cache of get_env, and load_template
  // ---------------------------------------------------------------------

  /** The process-wide memo table of get_env, by directory. */
  class EnvCache {
    var memo: map<string, Environment>

    /** Every memoised environment loads from the directory it is stored under. */
    predicate Valid()
      reads this
    {
      forall d :: d in memo ==> memo[d].loaderDir == d
    }

    constructor ()
      ensures memo == map[] && Valid()
    {
      memo := map[];
    }

    /**
     * get_env with the filters registered and no globals: a directory
     * seen before gives the very same environment and builds nothing;
     * a new one gets a fresh environment, which is remembered.
     */
    method GetEnv(directory: string) returns (env: Environment)
      requires Valid()
      modifies this
      ensures Valid()
      ensures env.loaderDir == directory
      ensures directory in old(memo) ==> env == old(memo)[directory] && memo == old(memo)
      ensures directory !in old(memo) ==>
        fresh(env) && env.filters == FilterTable() && env.globals == [] && memo == old(memo)[directory := env]
    {
      if directory in memo {
        return memo[directory];
      }
      env := NewEnvironment(directory);
      memo := memo[directory := env];
    }

    /**
     * get_env as written: functools.cache stores nothing when the call
     * raises, so with `read_text` missing every call fails and the table
     * stays as it was.
     */
    method GetEnvAsWritten(directory: string, namespace: set<string>) returns (r: Result<Environment>)
      requires Valid()
      modifies this
      ensures Valid()
      ensures directory in old(memo) ==> r == Ok(old(memo)[directory]) && memo == old(memo)
      ensures directory !in old(memo) && "read_text" !in namespace ==>
        r == Err(AttributeError("read_text")) && memo == old(memo)
    {
      if directory in memo {
        return Ok(memo[directory]);
      }
      r := NewEnvironmentAsWritten(directory, namespace);
      if r.Ok? {
        memo := memo[directory := r.value];
      }
    }

    /** load_template: the theme, then the memoised environment of its templates directory. */
    method LoadTemplate(cwd: string, parent: string, existing: set<string>, name: string, template: string)
      returns (r: Result<Template>)
      requires Valid()
      modifies this
      ensures Valid()
      ensures r == TemplateOf(cwd, parent, existing, name, template)
      ensures FindTheme(cwd, parent, existing, name).None? ==> memo == old(memo)
      ensures FindTheme(cwd, parent, existing, name).Some? ==>
        var d := Join(FindTheme(cwd, parent, existing, name).value, "templates");
        d in memo && memo == old(memo)[d := memo[d]]
        && (d in old(memo) ==> memo == old(memo))
        && (d !in old(memo) ==> fresh(memo[d]) && memo[d].filters == FilterTable() && memo[d].globals == [])
    {
      var themeDir := FindTheme(cwd, parent, existing, name);
      if themeDir.None? {
        return Err(RuntimeError("Theme " + name + " not found"));
      }
      var env := GetEnv(Join(themeDir.value, "templates"));
      r := GetTemplate(env.loaderDir, existing, template);
    }
  }
}
