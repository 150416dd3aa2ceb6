/**
 * The bundler configuration generator (config/build.conf.js): from the
 * builder's configuration record, the build mode and the files found on disk
 * it derives the entry map, the output file name templates, the loader rules,
 * the plugin list and one HTML page target per locale and page.
 *
 * What the source reads from its surroundings is an input here: the build
 * mode (NODE_ENV), the directory scans, whether the static directory exists
 * and the loaded app config. Loaders and plugins are records carrying only the
 * option values the generator chooses.
 */
module BuildConf {
  import opened Wrappers
  import opened Paths
  import opened Settings
  import Log

  /** What the generator learns from its surroundings rather than from the configuration record. */
  datatype Host = Host(
    /** NODE_ENV is `development`. */
    debug: bool,
    /** The builder's own installation directory. */
    toolRoot: string,
    /** The files found under the entries directory, in scan order. */
    entries: seq<string>,
    /** The page templates found under the views directory, in scan order. */
    pages: seq<string>,
    /** The files found under the locales directory, in scan order. */
    localeFiles: seq<string>,
    staticDirExists: bool,
    /** The JSON text of the app config; None when it could not be loaded. */
    appConfig: Option<string>)

  // ---------------------------------------------------------------- entries

  /** One entry point: the dev client followed by the file in debug mode, the file alone otherwise. */
  datatype EntryValue = Chain(paths: seq<string>) | Single(path: string)

  /** The hot-reload client every debug entry starts with. */
  function DevClient(toolRoot: string): string {
    Join(Join(toolRoot, "tasks"), "dev-client")
  }

  function EntryFor(debug: bool, devClient: string, entryPath: string): EntryValue {
    if debug then Chain([devClient, entryPath]) else Single(entryPath)
  }

  /** The entry map the `reduce` over the entry files accumulates. */
  function EntryMap(entries: seq<string>, debug: bool, devClient: string): map<string, EntryValue>
    decreases |entries|
  {
    if entries == [] then map[]
    else
      var last := entries[|entries| - 1];
      EntryMap(entries[..|entries| - 1], debug, devClient)[ParseName(last) := EntryFor(debug, devClient, last)]
  }

  /** Every key of the entry map is the base name of an entry file and holds the entry built from that file. */
  lemma {:induction false} EntryMapFrom(entries: seq<string>, debug: bool, devClient: string)
    ensures var r := EntryMap(entries, debug, devClient);
      forall k :: k in r ==> exists i :: 0 <= i < |entries| && ParseName(entries[i]) == k
                                         && r[k] == EntryFor(debug, devClient, entries[i])
    decreases |entries|
  {
    if entries != [] {
      var n := |entries| - 1;
      var init := entries[..n];
      EntryMapFrom(init, debug, devClient);
      EntryMapSnoc(entries, debug, devClient);
      var r, m := EntryMap(entries, debug, devClient), EntryMap(init, debug, devClient);
      forall k | k in r
        ensures exists i :: 0 <= i < |entries| && ParseName(entries[i]) == k && r[k] == EntryFor(debug, devClient, entries[i])
      {
        if k == ParseName(entries[n]) {
          assert ParseName(entries[n]) == k && r[k] == EntryFor(debug, devClient, entries[n]);
        } else {
          assert k in m && r[k] == m[k];
          var i :| 0 <= i < |init| && ParseName(init[i]) == k && m[k] == EntryFor(debug, devClient, init[i]);
          assert init[i] == entries[i];
        }
      }
    }
  }

  /** The base names of the entry files. */
  function EntryNames(entries: seq<string>): set<string> {
    set e | e in entries :: ParseName(e)
  }

  /** No later entry file has the same base name as the one at `i`. */
  predicate LastOfItsName(entries: seq<string>, i: int) {
    0 <= i < |entries| && forall j :: i < j < |entries| ==> ParseName(entries[j]) != ParseName(entries[i])
  }

  /** The entry map has one key per distinct base name of the entry files. */
  lemma {:induction false} EntryMapKeys(entries: seq<string>, debug: bool, devClient: string)
    ensures EntryMap(entries, debug, devClient).Keys == EntryNames(entries)
    decreases |entries|
  {
    if entries != [] {
      var n := |entries| - 1;
      EntryMapKeys(entries[..n], debug, devClient);
      EntryMapSnoc(entries, debug, devClient);
      EntryNamesSnoc(entries);
    }
  }

  /** The base names of a list are those of all but its last file, plus the last file's. */
  lemma EntryNamesSnoc(entries: seq<string>)
    requires entries != []
    ensures var n := |entries| - 1; EntryNames(entries) == EntryNames(entries[..n]) + {ParseName(entries[n])}
  {
    var n := |entries| - 1;
    var init, last := entries[..n], entries[n];
    assert entries == init + [last];
    forall e | e in entries ensures e in init || e == last { }
  }

  /** The entry map takes the entry of the last file with a given base name. */
  lemma {:induction false} EntryMapAt(entries: seq<string>, debug: bool, devClient: string, i: nat)
    requires LastOfItsName(entries, i)
    ensures ParseName(entries[i]) in EntryMap(entries, debug, devClient)
    ensures EntryMap(entries, debug, devClient)[ParseName(entries[i])] == EntryFor(debug, devClient, entries[i])
    decreases |entries|
  {
    var n := |entries| - 1;
    EntryMapSnoc(entries, debug, devClient);
    if i < n {
      var init := entries[..n];
      LastOfItsNameInInit(entries, i);
      EntryMapAt(init, debug, devClient, i);
      UpdateKeeps(EntryMap(init, debug, devClient), ParseName(entries[n]), EntryFor(debug, devClient, entries[n]), ParseName(entries[i]));
    }
  }

  /** Adding a file at the end updates the map at that file's base name. */
  lemma EntryMapSnoc(entries: seq<string>, debug: bool, devClient: string)
    requires entries != []
    ensures var n := |entries| - 1;
      EntryMap(entries, debug, devClient) == EntryMap(entries[..n], debug, devClient)[ParseName(entries[n]) := EntryFor(debug, devClient, entries[n])]
  {
  }

  /** The entry map of the first i + 1 files is that of the first i, updated with file i. */
  lemma EntryMapPrefix(entries: seq<string>, i: nat, debug: bool, devClient: string)
    requires i < |entries|
    ensures EntryMap(entries[..i + 1], debug, devClient)
            == EntryMap(entries[..i], debug, devClient)[ParseName(entries[i]) := EntryFor(debug, devClient, entries[i])]
  {
    var prefix := entries[..i + 1];
    assert prefix[..i] == entries[..i] && prefix[i] == entries[i];
    EntryMapSnoc(prefix, debug, devClient);
  }

  /** A file that is last of its name stays so when the final file is dropped, and that file has another name. */
  lemma LastOfItsNameInInit(entries: seq<string>, i: nat)
    requires LastOfItsName(entries, i) && i < |entries| - 1
    ensures LastOfItsName(entries[..|entries| - 1], i)
    ensures ParseName(entries[|entries| - 1]) != ParseName(entries[i])
  {
    var init := entries[..|entries| - 1];
    forall j | i < j < |init| ensures ParseName(init[j]) != ParseName(init[i]) {
      assert init[j] == entries[j];
    }
  }

  /** Updating a map at one key leaves every other key's value alone. */
  lemma UpdateKeeps<K, V>(m: map<K, V>, k: K, v: V, other: K)
    requires other != k && other in m
    ensures other in m[k := v] && m[k := v][other] == m[other]
  {
  }

  /** Each key of the entry map maps to the entry built from the last file with that base name. */
  lemma EntryMapLastWins(entries: seq<string>, debug: bool, devClient: string)
    ensures forall i :: LastOfItsName(entries, i) ==>
              ParseName(entries[i]) in EntryMap(entries, debug, devClient) &&
              EntryMap(entries, debug, devClient)[ParseName(entries[i])] == EntryFor(debug, devClient, entries[i])
  {
    forall i | LastOfItsName(entries, i)
      ensures ParseName(entries[i]) in EntryMap(entries, debug, devClient)
      ensures EntryMap(entries, debug, devClient)[ParseName(entries[i])] == EntryFor(debug, devClient, entries[i])
    {
      EntryMapAt(entries, debug, devClient, i);
    }
  }

  /** The `reduce` of config/build.conf.js: one assignment into the accumulator per entry file. */
  method BuildEntries(entries: seq<string>, debug: bool, devClient: string) returns (output: map<string, EntryValue>)
    ensures output == EntryMap(entries, debug, devClient)
  {
    output := map[];
    var i := 0;
    while i < |entries|
      invariant 0 <= i <= |entries|
      invariant output == EntryMap(entries[..i], debug, devClient)
    {
      var entryPath := entries[i];
      var entry := ParseName(entryPath);
      var value := if debug then Chain([devClient, entryPath]) else Single(entryPath);
      assert value == EntryFor(debug, devClient, entries[i]);
      EntryMapPrefix(entries, i, debug, devClient);
      output := output[entry := value];
      i := i + 1;
    }
    assert entries[..|entries|] == entries;
  }

  // ---------------------------------------------------------------- loaders

  datatype LoaderOptions =
    | NoOptions
    | BabelOptions(presets: seq<string>)
    /** The name of the module handed over as the formatter. */
    | EslintOptions(formatter: string)
    | CssOptions(sourceMap: bool, minimize: bool)
    /** The names of the PostCSS plugins. */
    | PostcssOptions(plugins: seq<string>)
    | SassOptions(includePaths: seq<string>, outputStyle: string)
    | PugOptions(root: string)
    | FileOptions(name: string)
    | UrlOptions(limit: nat, name: string)

  datatype Loader = Loader(loader: string, options: LoaderOptions)

  /** A rule's `use`: a loader chain, or a chain handed to the stylesheet extractor with a fallback. */
  datatype Use = Loaders(chain: seq<Loader>) | Extracted(fallback: string, use: seq<Loader>)

  function Names(loaders: seq<Loader>): (r: seq<string>)
    ensures |r| == |loaders|
    ensures forall k :: 0 <= k < |loaders| ==> r[k] == loaders[k].loader
  {
    seq(|loaders|, k requires 0 <= k < |loaders| => loaders[k].loader)
  }

  function JavascriptLoaders(): seq<Loader> {
    [Loader("babel-loader", BabelOptions(["env"]))]
  }

  function EslintLoaders(): seq<Loader> {
    [Loader("eslint-loader", EslintOptions("eslint-friendly-formatter"))]
  }

  function TemplateLoaders(sourceDir: string): seq<Loader> {
    JavascriptLoaders() + [Loader("pug-loader", PugOptions(sourceDir))]
  }

  /** The asset file name template below `outputDir`. */
  function HashedName(outputDir: string): string {
    Join(outputDir, "[name].[hash:7].[ext]")
  }

  function FileLoaders(outputDir: string): seq<Loader> {
    [Loader("file-loader", FileOptions(HashedName(outputDir)))]
  }

  const UrlLimit: nat := 10000

  function UrlLoaders(outputDir: string): seq<Loader> {
    [Loader("url-loader", UrlOptions(UrlLimit, HashedName(outputDir)))]
  }

  datatype StyleOptions = StyleOptions(inline: bool, sourceMap: bool, minify: bool)

  /** The sass `outputStyle`: compressed when minifying, expanded otherwise, with `,sourceMap` when source maps are on. */
  function OutputStyle(minify: bool, sourceMap: bool): (r: string)
    ensures var style := if minify then "compressed" else "expanded";
      |style| <= |r| && r[..|style|] == style && r[|style|..] == (if sourceMap then ",sourceMap" else "")
  {
    (if minify then "compressed" else "expanded") + (if sourceMap then ",sourceMap" else "")
  }

  /** The css, postcss and sass loaders, in that order. */
  function StylesheetChain(options: StyleOptions, includeDir: string): (r: seq<Loader>)
    ensures Names(r) == ["css-loader", "postcss-loader", "sass-loader"]
    ensures r[0].options == CssOptions(options.sourceMap, options.minify)
    ensures r[2].options.SassOptions? && r[2].options.outputStyle == OutputStyle(options.minify, options.sourceMap)
  {
    [Loader("css-loader", CssOptions(options.sourceMap, options.minify)),
     Loader("postcss-loader", PostcssOptions(["autoprefixer"])),
     Loader("sass-loader", SassOptions([includeDir], OutputStyle(options.minify, options.sourceMap)))]
  }

  const StyleLoader: Loader := Loader("style-loader", NoOptions)

  /** What `stylesheetLoaders(options)` returns. */
  function StylesheetUse(options: StyleOptions, includeDir: string): (r: Use)
    ensures options.inline ==> r.Loaders? && Names(r.chain) == ["style-loader", "css-loader", "postcss-loader", "sass-loader"]
    ensures !options.inline ==> r.Extracted? && r.fallback == "style-loader"
                                && Names(r.use) == ["css-loader", "postcss-loader", "sass-loader"]
  {
    if options.inline then Loaders([StyleLoader] + StylesheetChain(options, includeDir))
    else Extracted("style-loader", StylesheetChain(options, includeDir))
  }

  /**
   * `stylesheetLoaders`: the css → postcss → sass chain, with the style
   * loader put in front when inlining, and handed to the extractor with the
   * style loader as fallback otherwise.
   */
  method StylesheetLoaders(options: StyleOptions, includeDir: string) returns (use: Use)
    ensures use == StylesheetUse(options, includeDir)
    ensures options.inline ==> use.Loaders? && Names(use.chain) == ["style-loader", "css-loader", "postcss-loader", "sass-loader"]
    ensures !options.inline ==> use.Extracted? && use.fallback == "style-loader"
                                && Names(use.use) == ["css-loader", "postcss-loader", "sass-loader"]
  {
    var loaders := [Loader("css-loader", CssOptions(options.sourceMap, options.minify)),
                    Loader("postcss-loader", PostcssOptions(["autoprefixer"])),
                    Loader("sass-loader", SassOptions([includeDir], OutputStyle(options.minify, options.sourceMap)))];
    if options.inline {
      loaders := [Loader("style-loader", NoOptions)] + loaders;
      use := Loaders(loaders);
    } else {
      use := Extracted("style-loader", loaders);
    }
  }

  // ---------------------------------------------------------------- rules

  /** A rule condition: a regular expression (by its source text) or a directory. */
  datatype Condition = Pattern(regex: string) | Under(dir: string)

  /** A module rule; an empty includes or excludes list stands for one the rule does not set. */
  datatype Rule = Rule(test: string, includes: seq<Condition>, excludes: seq<Condition>, enforce: Option<string>, use: Use)

  /** The regular expressions of the seven fixed rules, in order. */
  const FixedTests: seq<string> := [
    "\\.js$",
    "\\.pug$",
    "\\.(scss|sass)$",
    "\\.*",
    "\\.(jpe?g|png|gif|svg|ico)(\\?.*)?$",
    "\\.(mp4|webm|ogg|mp3|wav|flac|aac)(\\?.*)?$",
    "\\.(woff2?|eot|ttf|otf)(\\?.*)?$"]

  /** Fixed rule k: scripts, templates, stylesheets, manifest files, images, media, fonts. */
  function FixedRule(config: Config, sourceDir: string, debug: bool, k: nat): (r: Rule)
    requires k < 7
    ensures r.test == FixedTests[k] && r.enforce == None
  {
    var manifest := Join(sourceDir, config.input.manifestDir);
    var assets := config.output.assetsDir;
    if k == 0 then Rule(FixedTests[0], [], [Pattern("node_modules"), Under(manifest)], None, Loaders(JavascriptLoaders()))
    else if k == 1 then Rule(FixedTests[1], [], [Pattern("node_modules"), Under(manifest)], None, Loaders(TemplateLoaders(sourceDir)))
    else if k == 2 then
      Rule(FixedTests[2], [], [], None, StylesheetUse(StyleOptions(debug, debug, !debug), Join(sourceDir, config.input.assetsDir)))
    else if k == 3 then Rule(FixedTests[3], [Under(manifest)], [], None, Loaders(FileLoaders("")))
    else if k == 4 then Rule(FixedTests[4], [], [Under(manifest)], None, Loaders(UrlLoaders(Join(assets, "images"))))
    else if k == 5 then Rule(FixedTests[5], [], [Under(manifest)], None, Loaders(UrlLoaders(Join(assets, "media"))))
    else Rule(FixedTests[6], [], [Under(manifest)], None, Loaders(UrlLoaders(Join(assets, "fonts"))))
  }

  /** The seven rules every configuration has, in order. */
  function FixedRules(config: Config, sourceDir: string, debug: bool): (r: seq<Rule>)
    ensures |r| == 7
    ensures forall k :: 0 <= k < 7 ==> r[k] == FixedRule(config, sourceDir, debug, k)
    ensures forall k :: 0 <= k < 7 ==> r[k].test == FixedTests[k] && r[k].enforce == None
  {
    [FixedRule(config, sourceDir, debug, 0), FixedRule(config, sourceDir, debug, 1),
     FixedRule(config, sourceDir, debug, 2), FixedRule(config, sourceDir, debug, 3),
     FixedRule(config, sourceDir, debug, 4), FixedRule(config, sourceDir, debug, 5),
     FixedRule(config, sourceDir, debug, 6)]
  }

  /** The eslint rule, run before the others on the source directory minus the manifest directory. */
  function LintRule(config: Config, sourceDir: string): Rule {
    Rule("\\.js", [Under(sourceDir)], [Under(Join(sourceDir, config.input.manifestDir))], Some("pre"), Loaders(EslintLoaders()))
  }

  /** The rule list: the fixed rules, then the eslint rule when linting in debug mode. */
  function Rules(config: Config, sourceDir: string, debug: bool): (rules: seq<Rule>)
    ensures |rules| == 7 + (if debug && config.dev.linter then 1 else 0)
    ensures forall k :: 0 <= k < 7 ==> rules[k] == FixedRule(config, sourceDir, debug, k)
    ensures forall k :: 0 <= k < 7 ==> rules[k].test == FixedTests[k] && rules[k].enforce == None
    ensures |rules| == 8 ==> rules[7] == LintRule(config, sourceDir) && rules[7].enforce == Some("pre")
  {
    var fixed := FixedRules(config, sourceDir, debug);
    var lint := if debug && config.dev.linter then [LintRule(config, sourceDir)] else [];
    TwoParts(fixed, lint);
    fixed + lint
  }

  /** Both parts of a concatenation are where they were put. */
  lemma TwoParts<T>(a: seq<T>, b: seq<T>)
    ensures forall k :: 0 <= k < |a| ==> (a + b)[k] == a[k]
    ensures forall k :: 0 <= k < |b| ==> (a + b)[|a| + k] == b[k]
  {
  }

  /**
   * The eslint rule is present exactly when linting in debug mode; it checks
   * `.js` files under the source directory, outside the manifest directory,
   * before the other loaders, with the friendly formatter.
   */
  lemma LintRules(config: Config, sourceDir: string, debug: bool)
    ensures var rules := Rules(config, sourceDir, debug);
      && (|rules| == 8 <==> debug && config.dev.linter)
      && (|rules| == 8 ==>
            && rules[7].test == "\\.js"
            && rules[7].includes == [Under(sourceDir)]
            && rules[7].excludes == [Under(Join(sourceDir, config.input.manifestDir))]
            && rules[7].enforce == Some("pre")
            && rules[7].use == Loaders([Loader("eslint-loader", EslintOptions("eslint-friendly-formatter"))]))
  {
  }

  /** Scripts go through babel and templates through babel then pug; both skip `node_modules` and the manifest directory. */
  lemma ScriptRules(config: Config, sourceDir: string, debug: bool)
    ensures var rules, manifest := Rules(config, sourceDir, debug), Join(sourceDir, config.input.manifestDir);
      && rules[0].includes == [] && rules[0].excludes == [Pattern("node_modules"), Under(manifest)]
      && rules[0].use == Loaders([Loader("babel-loader", BabelOptions(["env"]))])
      && rules[1].includes == [] && rules[1].excludes == [Pattern("node_modules"), Under(manifest)]
      && rules[1].use == Loaders([Loader("babel-loader", BabelOptions(["env"])), Loader("pug-loader", PugOptions(sourceDir))])
  {
    var rules := Rules(config, sourceDir, debug);
    assert rules[0] == FixedRule(config, sourceDir, debug, 0) && rules[1] == FixedRule(config, sourceDir, debug, 1);
    ScriptRule(config, sourceDir, debug);
  }

  /** The script and template rules, taken one by one. */
  lemma ScriptRule(config: Config, sourceDir: string, debug: bool)
    ensures var r0, r1, manifest := FixedRule(config, sourceDir, debug, 0), FixedRule(config, sourceDir, debug, 1),
                                    Join(sourceDir, config.input.manifestDir);
      && r0.includes == [] && r0.excludes == [Pattern("node_modules"), Under(manifest)]
      && r0.use == Loaders([Loader("babel-loader", BabelOptions(["env"]))])
      && r1.includes == [] && r1.excludes == [Pattern("node_modules"), Under(manifest)]
      && r1.use == Loaders([Loader("babel-loader", BabelOptions(["env"])), Loader("pug-loader", PugOptions(sourceDir))])
  {
  }

  /**
   * The manifest directory is passed through: only the file rule takes it,
   * copying each file as `[name].[hash:7].[ext]`, and the url rules skip it;
   * the stylesheet rule restricts nothing.
   */
  lemma ManifestRules(config: Config, sourceDir: string, debug: bool)
    ensures var rules, manifest := Rules(config, sourceDir, debug), Join(sourceDir, config.input.manifestDir);
      && rules[2].includes == [] && rules[2].excludes == []
      && rules[3].includes == [Under(manifest)] && rules[3].excludes == []
      && rules[3].use == Loaders([Loader("file-loader", FileOptions("[name].[hash:7].[ext]"))])
      && rules[4].includes == [] && rules[4].excludes == [Under(manifest)]
      && rules[5].includes == [] && rules[5].excludes == [Under(manifest)]
      && rules[6].includes == [] && rules[6].excludes == [Under(manifest)]
  {
    var rules := Rules(config, sourceDir, debug);
    FileRule(config, sourceDir, debug);
    UrlExcludes(config, sourceDir, debug);
    assert rules[2] == FixedRule(config, sourceDir, debug, 2) && rules[3] == FixedRule(config, sourceDir, debug, 3);
  }

  /** The stylesheet rule restricts nothing; the file rule takes only the manifest directory. */
  lemma FileRule(config: Config, sourceDir: string, debug: bool)
    ensures var r2, r3 := FixedRule(config, sourceDir, debug, 2), FixedRule(config, sourceDir, debug, 3);
      && r2.includes == [] && r2.excludes == []
      && r3.includes == [Under(Join(sourceDir, config.input.manifestDir))] && r3.excludes == []
      && r3.use == Loaders([Loader("file-loader", FileOptions("[name].[hash:7].[ext]"))])
  {
  }

  /** The url rules skip the manifest directory. */
  lemma UrlExcludes(config: Config, sourceDir: string, debug: bool)
    ensures var rules, manifest := Rules(config, sourceDir, debug), Join(sourceDir, config.input.manifestDir);
      && rules[4].includes == [] && rules[4].excludes == [Under(manifest)]
      && rules[5].includes == [] && rules[5].excludes == [Under(manifest)]
      && rules[6].includes == [] && rules[6].excludes == [Under(manifest)]
  {
    var rules := Rules(config, sourceDir, debug);
    assert rules[4] == FixedRule(config, sourceDir, debug, 4) && rules[5] == FixedRule(config, sourceDir, debug, 5)
           && rules[6] == FixedRule(config, sourceDir, debug, 6);
    UrlRuleConditions(config, sourceDir, debug);
  }

  /** The image, media and font rules, taken one by one. */
  lemma UrlRuleConditions(config: Config, sourceDir: string, debug: bool)
    ensures var manifest := Join(sourceDir, config.input.manifestDir);
      && FixedRule(config, sourceDir, debug, 4).includes == [] && FixedRule(config, sourceDir, debug, 4).excludes == [Under(manifest)]
      && FixedRule(config, sourceDir, debug, 5).includes == [] && FixedRule(config, sourceDir, debug, 5).excludes == [Under(manifest)]
      && FixedRule(config, sourceDir, debug, 6).includes == [] && FixedRule(config, sourceDir, debug, 6).excludes == [Under(manifest)]
  {
  }

  /** The image, media and font rules use the url loader with a 10000 byte limit under `<assets>/<kind>`. */
  lemma UrlRules(config: Config, sourceDir: string, debug: bool)
    ensures var rules := Rules(config, sourceDir, debug);
      && rules[4].use == Loaders([Loader("url-loader", UrlOptions(10000, Join(Join(config.output.assetsDir, "images"), "[name].[hash:7].[ext]")))])
      && rules[5].use == Loaders([Loader("url-loader", UrlOptions(10000, Join(Join(config.output.assetsDir, "media"), "[name].[hash:7].[ext]")))])
      && rules[6].use == Loaders([Loader("url-loader", UrlOptions(10000, Join(Join(config.output.assetsDir, "fonts"), "[name].[hash:7].[ext]")))])
  {
  }

  /** The stylesheet rule is the third, with the options the build mode selects. */
  lemma StylesheetRule(config: Config, sourceDir: string, debug: bool)
    ensures Rules(config, sourceDir, debug)[2].test == "\\.(scss|sass)$"
    ensures Rules(config, sourceDir, debug)[2].use
            == StylesheetUse(StyleOptions(debug, debug, !debug), Join(sourceDir, config.input.assetsDir))
  {
    var fixed := FixedRules(config, sourceDir, debug);
    assert Rules(config, sourceDir, debug)[2] == fixed[2];
  }

  /** When inlining, the style loader comes first and the chain follows it unchanged. */
  lemma InlineStylesheets(options: StyleOptions, includeDir: string)
    requires options.inline
    ensures var use := StylesheetUse(options, includeDir);
      && use.Loaders? && Names(use.chain) == ["style-loader", "css-loader", "postcss-loader", "sass-loader"]
      && use.chain[1].options == CssOptions(options.sourceMap, options.minify)
      && use.chain[3].options.SassOptions? && use.chain[3].options.outputStyle == OutputStyle(options.minify, options.sourceMap)
  {
    var chain := StylesheetChain(options, includeDir);
    var all := [StyleLoader] + chain;
    assert Names(all) == ["style-loader"] + Names(chain);
    assert all[1] == chain[0] && all[3] == chain[2];
  }

  /** In debug mode styles are inlined by the style loader, with expanded, source-mapped sass output. */
  lemma DebugStylesheets(config: Config, sourceDir: string)
    ensures var use := Rules(config, sourceDir, true)[2].use;
      && use.Loaders? && Names(use.chain) == ["style-loader", "css-loader", "postcss-loader", "sass-loader"]
      && use.chain[1].options == CssOptions(true, false)
      && use.chain[3].options.SassOptions? && use.chain[3].options.outputStyle == "expanded,sourceMap"
  {
    StylesheetRule(config, sourceDir, true);
    InlineStylesheets(StyleOptions(true, true, false), Join(sourceDir, config.input.assetsDir));
    ExpandedWithSourceMap();
  }

  lemma ExpandedWithSourceMap()
    ensures OutputStyle(false, true) == "expanded,sourceMap"
  {
    var r := OutputStyle(false, true);
    assert r == "expanded" + ",sourceMap";
  }

  /** Otherwise styles are extracted, with the style loader as fallback and compressed sass output without source maps. */
  lemma ProductionStylesheets(config: Config, sourceDir: string)
    ensures var use := Rules(config, sourceDir, false)[2].use;
      && use.Extracted? && use.fallback == "style-loader"
      && Names(use.use) == ["css-loader", "postcss-loader", "sass-loader"]
      && use.use[0].options == CssOptions(false, true)
      && use.use[2].options.SassOptions? && use.use[2].options.outputStyle == "compressed"
  {
    StylesheetRule(config, sourceDir, false);
  }

  // ---------------------------------------------------------------- output

  datatype Output = Output(
    path: string,
    publicPath: string,
    filename: string,
    chunkFilename: string,
    sourceMapFilename: string)

  /** The output block: plain names in debug mode, hashed names under the assets directory otherwise. */
  function OutputFor(config: Config, buildDir: string, debug: bool): (r: Output)
    ensures r.path == buildDir
    ensures r.publicPath == if debug then config.dev.publicPath else config.build.publicPath
    ensures debug ==> r.filename == "[name].js" && r.chunkFilename == "[chunkhash].js" && r.sourceMapFilename == "[name].map"
    ensures !debug ==> && r.filename == Join(config.output.assetsDir, "[name].[chunkhash].js")
                       && r.chunkFilename == Join(config.output.assetsDir, "[id].[chunkhash].js")
                       && r.sourceMapFilename == Join(config.output.assetsDir, "[name].[hash].map")
  {
    var assets := config.output.assetsDir;
    Output(
      buildDir,
      if debug then config.dev.publicPath else config.build.publicPath,
      if debug then "[name].js" else Join(assets, "[name].[chunkhash].js"),
      if debug then "[chunkhash].js" else Join(assets, "[id].[chunkhash].js"),
      if debug then "[name].map" else Join(assets, "[name].[hash].map"))
  }

  /**
   * The three name templates never collide; in debug mode none of them has a
   * directory, otherwise each lies below the assets directory.
   */
  lemma OutputNames(config: Config, buildDir: string, debug: bool)
    ensures var r := OutputFor(config, buildDir, debug);
      && r.filename != r.chunkFilename && r.filename != r.sourceMapFilename && r.chunkFilename != r.sourceMapFilename
      && (debug ==> '/' !in r.filename && '/' !in r.chunkFilename && '/' !in r.sourceMapFilename)
      && (!debug && config.output.assetsDir != "" ==>
            var dir := config.output.assetsDir + "/";
            && r.filename[..|dir|] == dir && r.chunkFilename[..|dir|] == dir && r.sourceMapFilename[..|dir|] == dir)
  {
    var r := OutputFor(config, buildDir, debug);
    if debug {
      NoSlash("[name].js");
      NoSlash("[chunkhash].js");
      NoSlash("[name].map");
    } else {
      var assets := config.output.assetsDir;
      assert |r.filename| == |Join(assets, "[name].[chunkhash].js")|;
      if assets != "" {
        var dir := assets + "/";
        assert r.filename == dir + "[name].[chunkhash].js";
        assert r.chunkFilename == dir + "[id].[chunkhash].js";
        assert r.sourceMapFilename == dir + "[name].[hash].map";
      }
    }
  }

  /** A template name without a directory part: it has no `/` (checked character by character). */
  lemma NoSlash(name: string)
    requires forall k :: 0 <= k < |name| ==> name[k] != '/'
    ensures '/' !in name
  {
  }

  // ---------------------------------------------------------------- HTML targets

  datatype HtmlMinify = HtmlMinify(removeComments: bool, collapseWhitespace: bool, removeAttributeQuotes: bool)

  /** One emitted page: its file, template, chunks, and the locale its translation helpers switch to. */
  datatype HtmlTarget = HtmlTarget(
    filename: string,
    template: string,
    chunks: seq<string>,
    inject: bool,
    minify: HtmlMinify,
    locale: string)

  /** The directory a locale's pages go to, relative to the build directory. */
  function Subdir(language: string, defaultLocale: Option<string>): (r: string)
    ensures r == "" <==> defaultLocale == Some(language) || language == ""
    ensures r != "" ==> r == language
  {
    if defaultLocale == Some(language) then "" else language
  }

  /** A page's file relative to the build directory: the special names first, then `<page>/index.html`. */
  function PageFile(subdir: string, pageName: string, indexName: string): (r: string)
    ensures r == Join(subdir, PageRest(pageName, indexName))
  {
    if pageName == "404" then Join(subdir, "404.html")
    else if pageName == indexName then Join(subdir, "index.html")
    else
      JoinJoin(subdir, pageName, "index.html");
      Join(Join(subdir, pageName), "index.html")
  }

  /** A page's file below its locale's directory: `404.html`, `index.html` for the index page, `<page>/index.html` otherwise. */
  function PageRest(pageName: string, indexName: string): (r: string)
    ensures r != ""
  {
    if pageName == "404" then "404.html"
    else if pageName == indexName then "index.html"
    else Join(pageName, "index.html")
  }

  /** Joining to a non-empty last segment does not depend on the grouping. */
  lemma JoinJoin(a: string, b: string, c: string)
    requires c != ""
    ensures Join(Join(a, b), c) == Join(a, Join(b, c))
  {
    if a != "" && b != "" {
      Log.Assoc(a + "/" + b, "/", c);
      Log.Assoc(a, "/", b + "/" + c);
      Log.Assoc(a + "/", b, "/" + c);
      Log.Assoc(b, "/", c);
      Log.Assoc(a, "/", b);
    }
  }

  /** The chunks of a page: manifest and common, then the page's own entry if there is one of that name. */
  function PageChunks(pageName: string, entryNames: seq<string>): (r: seq<string>)
    ensures 2 <= |r| <= 3 && r[..2] == ["manifest", "common"]
    ensures |r| == 3 <==> pageName in entryNames
    ensures |r| == 3 ==> r[2] == pageName
  {
    ["manifest", "common"] + (if pageName in entryNames then [pageName] else [])
  }

  function TargetFor(config: Config, buildDir: string, indexName: string, entryNames: seq<string>,
                     language: string, page: string): (r: HtmlTarget)
    ensures |buildDir| <= |r.filename| && r.filename[..|buildDir|] == buildDir
    ensures r.template == page && r.locale == language && r.inject
  {
    var subdir := Subdir(language, config.defaultLocale);
    var pageName := ParseName(page);
    HtmlTarget(
      Join(buildDir, PageFile(subdir, pageName, indexName)),
      page,
      PageChunks(pageName, entryNames),
      true,
      HtmlMinify(true, true, true),
      language)
  }

  /** The targets of one language, in page order. */
  function LanguageTargets(config: Config, buildDir: string, indexName: string, entryNames: seq<string>,
                           language: string, pages: seq<string>): (r: seq<HtmlTarget>)
    ensures |r| == |pages|
    ensures forall j :: 0 <= j < |pages| ==> r[j] == TargetFor(config, buildDir, indexName, entryNames, language, pages[j])
  {
    seq(|pages|, j requires 0 <= j < |pages| => TargetFor(config, buildDir, indexName, entryNames, language, pages[j]))
  }

  /** `[].concat.apply([], rows)`: the rows one after the other. */
  function Flatten<T>(rows: seq<seq<T>>): seq<T>
    decreases |rows|
  {
    if rows == [] then [] else rows[0] + Flatten(rows[1..])
  }

  /** Flattening rows of equal length `n` gives |rows|·n elements. */
  lemma {:induction false} FlattenLength<T>(rows: seq<seq<T>>, n: nat)
    requires forall i :: 0 <= i < |rows| ==> |rows[i]| == n
    ensures |Flatten(rows)| == |rows| * n
    decreases |rows|
  {
    if rows != [] {
      FlattenLength(rows[1..], n);
      MulSucc(|rows| - 1, n);
    }
  }

  /** Flattening rows of equal length `n` puts element j of row i at position i·n + j. */
  lemma {:induction false} FlattenAt<T>(rows: seq<seq<T>>, n: nat, i: nat, j: nat)
    requires forall k :: 0 <= k < |rows| ==> |rows[k]| == n
    requires i < |rows| && j < n
    ensures i * n + j < |Flatten(rows)|
    ensures Flatten(rows)[i * n + j] == rows[i][j]
    decreases i
  {
    FlattenLength(rows, n);
    MulBound(i, |rows|, n, j);
    if i > 0 {
      var rest := rows[1..];
      FlattenAt(rest, n, i - 1, j);
      MulSucc(i - 1, n);
      assert rest[i - 1] == rows[i];
    }
  }

  lemma MulSucc(a: nat, n: nat)
    ensures (a + 1) * n == a * n + n
  {
  }

  lemma MulNat(a: nat, b: nat)
    ensures 0 <= a * b
  {
  }

  lemma {:induction false} MulBound(i: nat, m: nat, n: nat, j: nat)
    requires i < m && j < n
    ensures i * n + j < m * n
    decreases m
  {
    MulSucc(m - 1, n);
    if i < m - 1 {
      MulBound(i, m - 1, n, j);
    }
  }

  /** The rows of the HTML targets: one per language, each in page order. */
  function TargetRows(config: Config, buildDir: string, indexName: string, entryNames: seq<string>,
                      languages: seq<string>, pages: seq<string>): (r: seq<seq<HtmlTarget>>)
    ensures |r| == |languages|
    ensures forall i :: 0 <= i < |languages| ==> |r[i]| == |pages|
  {
    seq(|languages|, i requires 0 <= i < |languages| =>
      LanguageTargets(config, buildDir, indexName, entryNames, languages[i], pages))
  }

  /** `languages.map(pages.map(...))` flattened: language by language. */
  function Targets(config: Config, buildDir: string, indexName: string, entryNames: seq<string>,
                   languages: seq<string>, pages: seq<string>): seq<HtmlTarget>
  {
    Flatten(TargetRows(config, buildDir, indexName, entryNames, languages, pages))
  }

  /** There are exactly |languages| × |pages| targets. */
  lemma TargetsCount(config: Config, buildDir: string, indexName: string, entryNames: seq<string>,
                     languages: seq<string>, pages: seq<string>)
    ensures |Targets(config, buildDir, indexName, entryNames, languages, pages)| == |languages| * |pages|
  {
    var rows := TargetRows(config, buildDir, indexName, entryNames, languages, pages);
    assert forall k :: 0 <= k < |rows| ==> |rows[k]| == |pages|;
    FlattenLength(rows, |pages|);
  }

  /**
   * Targets are ordered by language first and page second: the target of
   * language i and page j is at position i·|pages| + j.
   */
  lemma TargetsAt(config: Config, buildDir: string, indexName: string, entryNames: seq<string>,
                  languages: seq<string>, pages: seq<string>, i: nat, j: nat)
    requires i < |languages| && j < |pages|
    ensures i * |pages| + j < |Targets(config, buildDir, indexName, entryNames, languages, pages)|
    ensures Targets(config, buildDir, indexName, entryNames, languages, pages)[i * |pages| + j]
              == TargetFor(config, buildDir, indexName, entryNames, languages[i], pages[j])
  {
    var rows := TargetRows(config, buildDir, indexName, entryNames, languages, pages);
    assert forall k :: 0 <= k < |rows| ==> |rows[k]| == |pages|;
    FlattenAt(rows, |pages|, i, j);
    var row := LanguageTargets(config, buildDir, indexName, entryNames, languages[i], pages);
    assert rows[i] == row;
  }

  /** A page of a locale other than the default one (and not nameless) is emitted under `<build>/<locale>/`. */
  lemma TargetUnderLocale(config: Config, buildDir: string, indexName: string, entryNames: seq<string>,
                          language: string, page: string)
    requires language != "" && config.defaultLocale != Some(language)
    ensures var f := TargetFor(config, buildDir, indexName, entryNames, language, page).filename;
      var dir := Join(buildDir, language);
      |dir| < |f| && f[..|dir|] == dir && f[|dir|] == '/'
  {
    PageInSubdir(language, ParseName(page), indexName);
    JoinAssoc(buildDir, language, PageRest(ParseName(page), indexName));
  }

  /** Below a non-empty subdirectory a page's file is that subdirectory, a slash, and a non-empty rest. */
  lemma PageInSubdir(subdir: string, pageName: string, indexName: string)
    requires subdir != ""
    ensures PageRest(pageName, indexName) != ""
    ensures PageFile(subdir, pageName, indexName) == subdir + "/" + PageRest(pageName, indexName)
  {
  }

  /** The default locale's pages are emitted straight under the build directory. */
  lemma TargetOfDefaultLocale(config: Config, buildDir: string, indexName: string, entryNames: seq<string>,
                              page: string)
    requires config.defaultLocale.Some?
    ensures var f := TargetFor(config, buildDir, indexName, entryNames, config.defaultLocale.value, page).filename;
      var name := ParseName(page);
      f == Join(buildDir, if name == "404" then "404.html"
                          else if name == indexName then "index.html"
                          else Join(name, "index.html"))
  {
  }

  /** `Join` of three non-empty parts does not depend on the grouping. */
  lemma JoinAssoc(a: string, b: string, c: string)
    requires b != "" && c != ""
    ensures Join(a, b + "/" + c) == Join(Join(a, b), c)
    ensures |Join(a, b)| < |Join(a, b + "/" + c)|
    ensures Join(a, b + "/" + c)[|Join(a, b)|] == '/'
  {
  }

  /**
   * A page's chunks are manifest and common, plus the page's own bundle
   * exactly when an entry file has the page's name.
   */
  lemma TargetChunks(config: Config, buildDir: string, indexName: string, entryNames: seq<string>,
                     language: string, page: string)
    ensures var t := TargetFor(config, buildDir, indexName, entryNames, language, page);
      && t.chunks[..2] == ["manifest", "common"]
      && (|t.chunks| == 3 <==> ParseName(page) in entryNames)
      && (|t.chunks| == 3 ==> t.chunks[2] == ParseName(page))
      && |t.chunks| <= 3
      && t.template == page && t.locale == language
  {
  }

  // ---------------------------------------------------------------- plugins

  /** A plugin, by the options the generator hands it. */
  datatype Plugin =
    /** The compile-time constants: `process.env.NODE_ENV` and `$config`, both as JSON text. */
    | Define(nodeEnv: string, appConfig: string)
    /** A shared chunk; `vendorDir` is the directory whose scripts go into it, if it selects by module. */
    | CommonsChunk(name: string, chunks: seq<string>, vendorDir: Option<string>)
    | Copy(from: string, to: string, ignore: seq<string>)
    | HotModuleReplacement
    | NoEmitOnErrors
    | ExtractText(filename: string)
    | OptimizeCss(safe: bool)
    | Uglify(warnings: bool)
    | Compression(asset: string, algorithm: string, test: string, threshold: nat, minRatio: real)
    | BundleAnalyzer
    | Html(target: HtmlTarget)

  /** The strings of `xs` joined by `sep`. */
  function JoinWith(sep: string, xs: seq<string>): string
  {
    if |xs| == 0 then ""
    else if |xs| == 1 then xs[0]
    else xs[0] + sep + JoinWith(sep, xs[1..])
  }

  /** The regular expression of the compressed assets: any of the extensions at the end of the name. */
  function GzipTest(extensions: seq<string>): (r: string)
    ensures |r| >= 5 && r[..3] == "\\.(" && r[|r| - 2..] == ")$"
    ensures r[3..|r| - 2] == JoinWith("|", extensions)
  {
    "\\.(" + JoinWith("|", extensions) + ")$"
  }

  /** `s.split("|")`: the alternatives of a regular expression group, between its `|` separators. */
  function Alternatives(s: string): (r: seq<string>)
    ensures |r| >= 1
    decreases |s|
  {
    var i := Log.IndexOf(s, '|');
    if i < 0 then [s] else [s[..i]] + Alternatives(s[i + 1..])
  }

  /** Round trip: strings without `|`, joined by it, split back into themselves. */
  lemma {:induction false} AlternativesOfJoin(xs: seq<string>)
    requires |xs| >= 1
    requires forall k :: 0 <= k < |xs| ==> '|' !in xs[k]
    ensures Alternatives(JoinWith("|", xs)) == xs
    decreases |xs|
  {
    if |xs| == 1 {
      OneAlternative(xs[0]);
    } else {
      var tail := xs[1..];
      forall k | 0 <= k < |tail| ensures '|' !in tail[k] {
        assert tail[k] == xs[k + 1];
      }
      AlternativesOfJoin(tail);
      AlternativesOfJoinStep(xs);
    }
  }

  /** The induction step of `AlternativesOfJoin`: the first string is split off first. */
  lemma AlternativesOfJoinStep(xs: seq<string>)
    requires |xs| >= 2 && '|' !in xs[0]
    requires Alternatives(JoinWith("|", xs[1..])) == xs[1..]
    ensures Alternatives(JoinWith("|", xs)) == xs
  {
    var s, head, rest := JoinWith("|", xs), xs[0], JoinWith("|", xs[1..]);
    JoinWithCons(xs);
    FirstSeparator(s, head, rest);
    AlternativesCons(s, |head|);
    Log.HeadTail(xs);
  }

  /** Joining two or more strings puts the separator right after the first. */
  lemma JoinWithCons(xs: seq<string>)
    requires |xs| >= 2
    ensures JoinWith("|", xs) == xs[0] + ("|" + JoinWith("|", xs[1..]))
  {
  }

  /** The first `|` of `head + "|" + rest`, when `head` has none, is the one between them. */
  lemma FirstSeparator(s: string, head: string, rest: string)
    requires s == head + ("|" + rest) && '|' !in head
    ensures Log.IndexOf(s, '|') == |head| && s[..|head|] == head && s[|head| + 1..] == rest
  {
    Log.IndexOfConcat(head, "|" + rest, '|');
    assert s[..|head|] == head;
    assert s[|head| + 1..] == rest;
  }

  /** A string with `|` at `i`, and none before, has the text before it as its first alternative. */
  lemma AlternativesCons(s: string, i: int)
    requires 0 <= i && i == Log.IndexOf(s, '|')
    ensures Alternatives(s) == [s[..i]] + Alternatives(s[i + 1..])
  {
  }

  /** A string without `|` is one alternative. */
  lemma OneAlternative(s: string)
    requires '|' !in s
    ensures Alternatives(s) == [s]
  {
    assert Log.IndexOf(s, '|') == -1;
  }

  /** The compression test lists exactly the configured extensions between its `|` separators. */
  lemma GzipExtensions(extensions: seq<string>)
    requires |extensions| >= 1
    requires forall k :: 0 <= k < |extensions| ==> '|' !in extensions[k]
    ensures var r := GzipTest(extensions); Alternatives(r[3..|r| - 2]) == extensions
  {
    AlternativesOfJoin(extensions);
  }

  /** A plugin that only some builds have: neither a page, nor the constants, nor a shared chunk. */
  predicate Optional(x: Plugin) {
    !x.Html? && !x.Define? && !x.CommonsChunk?
  }

  /** A plugin the build mode decides on: hot reload, error gating, stylesheet extraction or minification. */
  predicate ModeKind(x: Plugin) {
    x.HotModuleReplacement? || x.NoEmitOnErrors? || x.ExtractText? || x.OptimizeCss? || x.Uglify?
  }

  /** Where extracted stylesheets go: `<assets>/stylesheets/[name].[contenthash].css`. */
  function ExtractedStylesheet(assetsDir: string): string {
    Join(Join(assetsDir, "stylesheets"), "[name].[contenthash].css")
  }

  /** The plugins that depend on the build mode: hot reload in debug mode, extraction and minification otherwise. */
  function ModePlugins(config: Config, debug: bool): (r: seq<Plugin>)
    ensures |r| == if debug then 2 else 3
    ensures forall x :: x in r ==> Optional(x) && ModeKind(x)
    ensures (HotModuleReplacement in r <==> debug) && (NoEmitOnErrors in r <==> debug)
    ensures (OptimizeCss(true) in r <==> !debug) && (Uglify(false) in r <==> !debug)
    ensures debug ==> r == [HotModuleReplacement, NoEmitOnErrors]
    ensures !debug ==> r == [ExtractText(ExtractedStylesheet(config.output.assetsDir)),
                             OptimizeCss(true), Uglify(false)]
  {
    if debug then [HotModuleReplacement, NoEmitOnErrors]
    else [ExtractText(ExtractedStylesheet(config.output.assetsDir)),
          OptimizeCss(true),
          Uglify(false)]
  }

  function CompressionPlugin(config: Config): Plugin {
    Compression("[path].gz[query]", "gzip", GzipTest(config.build.gzipExtensions), 10240, 0.8)
  }

  function CopyPlugin(config: Config, buildDir: string, staticDir: string): Plugin {
    Copy(staticDir, Join(buildDir, config.output.staticDir), config.statics.ignore)
  }

  function HtmlPlugins(targets: seq<HtmlTarget>): (r: seq<Plugin>)
    ensures |r| == |targets|
    ensures forall k :: 0 <= k < |targets| ==> r[k] == Html(targets[k])
  {
    seq(|targets|, k requires 0 <= k < |targets| => Html(targets[k]))
  }

  /** The plugins every build starts with: the constants and the two shared chunks. */
  function BasePlugins(cwd: string, debug: bool, appConfig: string): seq<Plugin> {
    [Define(if debug then "\"development\"" else "\"production\"", appConfig),
     CommonsChunk("common", [], Some(Join(cwd, "node_modules"))),
     CommonsChunk("manifest", ["common"], None)]
  }

  /** The plugins between the shared chunks and the pages, each present or not by the options and the build mode. */
  function OptionalPlugins(config: Config, buildDir: string, staticDir: string, debug: bool,
                           staticDirExists: bool): (r: seq<Plugin>)
    ensures |r| == (if staticDirExists then 1 else 0) + (if debug then 2 else 3)
                   + (if !debug && config.build.gzip then 1 else 0) + (if !debug && config.build.analyzer then 1 else 0)
    ensures forall x :: x in r ==> Optional(x)
  {
    var copy: seq<Plugin> := if staticDirExists then [CopyPlugin(config, buildDir, staticDir)] else [];
    var mode := ModePlugins(config, debug);
    var gzip: seq<Plugin> := if !debug && config.build.gzip then [CompressionPlugin(config)] else [];
    var analyzer: seq<Plugin> := if !debug && config.build.analyzer then [BundleAnalyzer] else [];
    OptionalConcat(copy, mode, gzip, analyzer);
    copy + mode + gzip + analyzer
  }

  /** Lists of optional plugins concatenate to one. */
  lemma OptionalConcat(a: seq<Plugin>, b: seq<Plugin>, c: seq<Plugin>, d: seq<Plugin>)
    requires forall x :: x in a ==> Optional(x)
    requires forall x :: x in b ==> Optional(x)
    requires forall x :: x in c ==> Optional(x)
    requires forall x :: x in d ==> Optional(x)
    ensures forall x :: x in a + b + c + d ==> Optional(x)
  {
  }

  /** The plugin list, in the order the source concatenates it. */
  function Plugins(config: Config, cwd: string, buildDir: string, staticDir: string, debug: bool,
                   staticDirExists: bool, appConfig: string, targets: seq<HtmlTarget>): (p: seq<Plugin>)
    ensures |p| >= 3 + |targets|
    ensures p[0] == Define(if debug then "\"development\"" else "\"production\"", appConfig)
    ensures p[1] == CommonsChunk("common", [], Some(Join(cwd, "node_modules")))
    ensures p[2] == CommonsChunk("manifest", ["common"], None)
    ensures p[|p| - |targets|..] == HtmlPlugins(targets)
  {
    var base := BasePlugins(cwd, debug, appConfig);
    var mid := OptionalPlugins(config, buildDir, staticDir, debug, staticDirExists);
    var html := HtmlPlugins(targets);
    ThreeParts(base, mid, html);
    base + mid + html
  }

  /** The first and last parts of a three-part concatenation are where they were put. */
  lemma ThreeParts<T>(a: seq<T>, b: seq<T>, c: seq<T>)
    ensures forall k :: 0 <= k < |a| ==> (a + b + c)[k] == a[k]
    ensures (a + b + c)[|a| + |b|..] == c
  {
  }

  /** Only page plugins come from the targets. */
  lemma NotFromTargets(x: Plugin, targets: seq<HtmlTarget>)
    requires !x.Html?
    ensures x !in HtmlPlugins(targets)
  {
  }

  /** A plugin other than a page plugin or one of the first three is in the list exactly when the options put it there. */
  lemma InPlugins(x: Plugin, config: Config, cwd: string, buildDir: string, staticDir: string, debug: bool,
                  staticDirExists: bool, appConfig: string, targets: seq<HtmlTarget>)
    requires !x.Html? && !x.Define? && !x.CommonsChunk?
    ensures x in Plugins(config, cwd, buildDir, staticDir, debug, staticDirExists, appConfig, targets)
            <==> (staticDirExists && x == CopyPlugin(config, buildDir, staticDir))
                 || x in ModePlugins(config, debug)
                 || (!debug && config.build.gzip && x == CompressionPlugin(config))
                 || (!debug && config.build.analyzer && x == BundleAnalyzer)
  {
    var base := BasePlugins(cwd, debug, appConfig);
    var mid := OptionalPlugins(config, buildDir, staticDir, debug, staticDirExists);
    var html := HtmlPlugins(targets);
    assert Plugins(config, cwd, buildDir, staticDir, debug, staticDirExists, appConfig, targets) == base + mid + html;
    InConcat(x, base, mid, html);
    NotFromTargets(x, targets);
    NotInBase(x, cwd, debug, appConfig);
    InOptional(x, config, buildDir, staticDir, debug, staticDirExists);
  }

  /** The constants and the shared chunks are the only plugins of the base list. */
  lemma NotInBase(x: Plugin, cwd: string, debug: bool, appConfig: string)
    requires !x.Define? && !x.CommonsChunk?
    ensures x !in BasePlugins(cwd, debug, appConfig)
  {
    var base := BasePlugins(cwd, debug, appConfig);
    assert base[0].Define? && base[1].CommonsChunk? && base[2].CommonsChunk? && |base| == 3;
  }

  /** Which plugins the optional part holds. */
  lemma InOptional(x: Plugin, config: Config, buildDir: string, staticDir: string, debug: bool, staticDirExists: bool)
    ensures x in OptionalPlugins(config, buildDir, staticDir, debug, staticDirExists)
            <==> (staticDirExists && x == CopyPlugin(config, buildDir, staticDir))
                 || x in ModePlugins(config, debug)
                 || (!debug && config.build.gzip && x == CompressionPlugin(config))
                 || (!debug && config.build.analyzer && x == BundleAnalyzer)
  {
    var copy: seq<Plugin> := if staticDirExists then [CopyPlugin(config, buildDir, staticDir)] else [];
    var mode := ModePlugins(config, debug);
    var gzip: seq<Plugin> := if !debug && config.build.gzip then [CompressionPlugin(config)] else [];
    var analyzer: seq<Plugin> := if !debug && config.build.analyzer then [BundleAnalyzer] else [];
    assert OptionalPlugins(config, buildDir, staticDir, debug, staticDirExists) == copy + mode + gzip + analyzer;
    InConcat(x, copy, mode, gzip + analyzer);
    assert x in gzip + analyzer <==> x in gzip || x in analyzer;
  }

  /** Membership in three concatenated sequences. */
  lemma InConcat<T>(x: T, a: seq<T>, b: seq<T>, c: seq<T>)
    ensures x in a + b + c <==> x in a || x in b || x in c
  {
  }

  /** The static directory is copied into the build exactly when it exists. */
  lemma CopyIffStatic(config: Config, cwd: string, buildDir: string, staticDir: string, debug: bool,
                      staticDirExists: bool, appConfig: string, targets: seq<HtmlTarget>)
    ensures CopyPlugin(config, buildDir, staticDir)
              in Plugins(config, cwd, buildDir, staticDir, debug, staticDirExists, appConfig, targets)
            <==> staticDirExists
  {
    InPlugins(CopyPlugin(config, buildDir, staticDir), config, cwd, buildDir, staticDir, debug, staticDirExists, appConfig, targets);
  }

  /** Hot reload is on exactly in debug mode. */
  lemma HotReloadIff(config: Config, cwd: string, buildDir: string, staticDir: string, debug: bool,
                     staticDirExists: bool, appConfig: string, targets: seq<HtmlTarget>)
    ensures var p := Plugins(config, cwd, buildDir, staticDir, debug, staticDirExists, appConfig, targets);
      && (HotModuleReplacement in p <==> debug)
      && (NoEmitOnErrors in p <==> debug)
  {
    InPlugins(HotModuleReplacement, config, cwd, buildDir, staticDir, debug, staticDirExists, appConfig, targets);
    InPlugins(NoEmitOnErrors, config, cwd, buildDir, staticDir, debug, staticDirExists, appConfig, targets);
  }

  /** Scripts and styles are minified exactly outside debug mode. */
  lemma MinifyIff(config: Config, cwd: string, buildDir: string, staticDir: string, debug: bool,
                  staticDirExists: bool, appConfig: string, targets: seq<HtmlTarget>)
    ensures var p := Plugins(config, cwd, buildDir, staticDir, debug, staticDirExists, appConfig, targets);
      && (Uglify(false) in p <==> !debug)
      && (OptimizeCss(true) in p <==> !debug)
  {
    InPlugins(Uglify(false), config, cwd, buildDir, staticDir, debug, staticDirExists, appConfig, targets);
    InPlugins(OptimizeCss(true), config, cwd, buildDir, staticDir, debug, staticDirExists, appConfig, targets);
  }

  /** The only compression plugin the list can hold is the configured one, in production builds that ask for it. */
  lemma CompressionMember(x: Plugin, config: Config, cwd: string, buildDir: string, staticDir: string, debug: bool,
                          staticDirExists: bool, appConfig: string, targets: seq<HtmlTarget>)
    requires x.Compression?
    ensures x in Plugins(config, cwd, buildDir, staticDir, debug, staticDirExists, appConfig, targets)
            <==> !debug && config.build.gzip && x == CompressionPlugin(config)
  {
    InPlugins(x, config, cwd, buildDir, staticDir, debug, staticDirExists, appConfig, targets);
  }

  /** Compression runs only in production builds that ask for it. */
  lemma CompressionIff(config: Config, cwd: string, buildDir: string, staticDir: string, debug: bool,
                       staticDirExists: bool, appConfig: string, targets: seq<HtmlTarget>)
    ensures CompressionPlugin(config) in Plugins(config, cwd, buildDir, staticDir, debug, staticDirExists, appConfig, targets)
            <==> !debug && config.build.gzip
  {
    CompressionMember(CompressionPlugin(config), config, cwd, buildDir, staticDir, debug, staticDirExists, appConfig, targets);
  }

  /** The bundle analyzer runs only in production builds that ask for it. */
  lemma AnalyzerIff(config: Config, cwd: string, buildDir: string, staticDir: string, debug: bool,
                    staticDirExists: bool, appConfig: string, targets: seq<HtmlTarget>)
    ensures BundleAnalyzer in Plugins(config, cwd, buildDir, staticDir, debug, staticDirExists, appConfig, targets)
            <==> !debug && config.build.analyzer
  {
    InPlugins(BundleAnalyzer, config, cwd, buildDir, staticDir, debug, staticDirExists, appConfig, targets);
  }

  // ---------------------------------------------------------------- the configuration

  datatype Stats = Stats(colors: bool, modules: bool, reasons: bool, errorDetails: bool)

  datatype Resolve = Resolve(extensions: seq<string>, modules: seq<string>)

  /** The bundler configuration the generator returns. */
  datatype WebpackConfig = WebpackConfig(
    /** None stands for `false`: no source maps. */
    devtool: Option<string>,
    context: string,
    stats: Stats,
    entry: map<string, EntryValue>,
    output: Output,
    rules: seq<Rule>,
    resolve: Resolve,
    plugins: seq<Plugin>)

  /** `path.parse` of the missing view index file throws before the configuration is returned. */
  datatype GenError = MissingViewIndexFile

  /** The base names of some files, in order. */
  function BaseNames(files: seq<string>): (r: seq<string>)
    ensures |r| == |files|
    ensures forall k :: 0 <= k < |files| ==> r[k] == ParseName(files[k])
  {
    seq(|files|, k requires 0 <= k < |files| => ParseName(files[k]))
  }

  /** What the generator logs while it runs: a notice when there is no app config. */
  function Notices(host: Host): (r: seq<Log.Emission>)
    ensures |r| == (if host.appConfig.None? then 1 else 0)
    ensures forall k :: 0 <= k < |r| ==> r[k].stream == Log.Stdout
  {
    if host.appConfig.None? then [Log.Emission(Log.Stdout, Log.Format(Log.Text("No app config found"), false, None))]
    else []
  }

  /** The directories the generator derives from the working directory. */
  function SourceDir(config: Config, cwd: string): string { Join(cwd, config.input.baseDir) }
  function BuildDir(config: Config, cwd: string): string { Join(cwd, config.output.baseDir) }
  function StaticDir(config: Config, cwd: string): string { Join(cwd, config.statics.baseDir) }

  /** The page targets of every locale, or the error of a missing view index file when there is one to emit. */
  function PageTargets(config: Config, cwd: string, host: Host): (r: Result<seq<HtmlTarget>, GenError>)
    ensures r.Failure? <==> config.input.viewIndexFile.None? && host.localeFiles != [] && host.pages != []
  {
    var languages := BaseNames(host.localeFiles);
    if config.input.viewIndexFile.None? && languages != [] && host.pages != [] then Failure(MissingViewIndexFile)
    else
      var indexName := ParseName(config.input.viewIndexFile.GetOr(""));
      var entryNames := BaseNames(host.entries);
      Success(Targets(config, BuildDir(config, cwd), indexName, entryNames, languages, host.pages))
  }

  /** The exported function of config/build.conf.js. */
  function Generate(config: Config, cwd: string, host: Host): (r: Result<WebpackConfig, GenError>)
    ensures r.Failure? <==> config.input.viewIndexFile.None? && host.localeFiles != [] && host.pages != []
  {
    var sourceDir := SourceDir(config, cwd);
    var buildDir := BuildDir(config, cwd);
    match PageTargets(config, cwd, host)
    case Failure(e) => Failure(e)
    case Success(targets) =>
      Success(WebpackConfig(
        if host.debug then Some("cheap-eval-source-map") else None,
        sourceDir,
        Stats(true, true, true, true),
        EntryMap(host.entries, host.debug, DevClient(host.toolRoot)),
        OutputFor(config, buildDir, host.debug),
        Rules(config, sourceDir, host.debug),
        Resolve([".js", ".sass", ".scss", ".pug"],
                [sourceDir, Join(cwd, "node_modules"), Join(host.toolRoot, "node_modules")]),
        Plugins(config, cwd, buildDir, StaticDir(config, cwd), host.debug, host.staticDirExists,
                host.appConfig.GetOr("{}"), targets)))
  }

  /**
   * A generated configuration has source maps exactly in debug mode, one
   * entry per distinct entry base name, and the rules and output of the mode.
   */
  lemma GenerateShape(config: Config, cwd: string, host: Host)
    requires Generate(config, cwd, host).Success?
    ensures var c := Generate(config, cwd, host).value;
      && (c.devtool.Some? <==> host.debug)
      && c.context == SourceDir(config, cwd)
      && c.entry.Keys == EntryNames(host.entries)
      && c.output == OutputFor(config, BuildDir(config, cwd), host.debug)
      && c.rules == Rules(config, SourceDir(config, cwd), host.debug)
  {
    EntryMapKeys(host.entries, host.debug, DevClient(host.toolRoot));
  }

  /** A generated configuration has one page plugin per locale and page, after all other plugins. */
  lemma GeneratePagesLast(config: Config, cwd: string, host: Host)
    requires Generate(config, cwd, host).Success?
    ensures var p, t := Generate(config, cwd, host).value.plugins, PageTargets(config, cwd, host).value;
      |t| <= |p| && p[|p| - |t|..] == HtmlPlugins(t)
  {
  }

  /** One target per locale and page. */
  lemma PageTargetsCount(config: Config, cwd: string, host: Host)
    requires PageTargets(config, cwd, host).Success?
    ensures |PageTargets(config, cwd, host).value| == |host.localeFiles| * |host.pages|
  {
    var indexName := ParseName(config.input.viewIndexFile.GetOr(""));
    TargetsCount(config, BuildDir(config, cwd), indexName, BaseNames(host.entries), BaseNames(host.localeFiles), host.pages);
  }

  /**
   * The page targets go locale by locale in locale-file order and page by
   * page in page order: the target of locale file i and page j is the
   * (i·|pages| + j)-th.
   */
  lemma PageTargetAt(config: Config, cwd: string, host: Host, i: nat, j: nat)
    requires PageTargets(config, cwd, host).Success?
    requires i < |host.localeFiles| && j < |host.pages|
    ensures var t := PageTargets(config, cwd, host).value;
      && 0 <= i * |host.pages| && i * |host.pages| + j < |t|
      && t[i * |host.pages| + j]
         == TargetFor(config, BuildDir(config, cwd), ParseName(config.input.viewIndexFile.GetOr("")),
                      BaseNames(host.entries), ParseName(host.localeFiles[i]), host.pages[j])
  {
    var buildDir := BuildDir(config, cwd);
    var indexName := ParseName(config.input.viewIndexFile.GetOr(""));
    var languages, entryNames := BaseNames(host.localeFiles), BaseNames(host.entries);
    var t := PageTargets(config, cwd, host).value;
    var p := i * |host.pages| + j;
    assert 0 <= i * |host.pages| && p < |t|
           && t[p] == TargetFor(config, buildDir, indexName, entryNames, ParseName(host.localeFiles[i]), host.pages[j]) by {
      PageTargetsValue(config, cwd, host);
      MulNat(i, |host.pages|);
      TargetsAt(config, buildDir, indexName, entryNames, languages, host.pages, i, j);
      assert languages[i] == ParseName(host.localeFiles[i]);
    }
  }

  /** Past the index file check, the page targets are those of every locale file's base name. */
  lemma PageTargetsValue(config: Config, cwd: string, host: Host)
    requires PageTargets(config, cwd, host).Success?
    ensures PageTargets(config, cwd, host).value
            == Targets(config, BuildDir(config, cwd), ParseName(config.input.viewIndexFile.GetOr("")),
                       BaseNames(host.entries), BaseNames(host.localeFiles), host.pages)
  {
  }
}
