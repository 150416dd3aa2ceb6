# webpack-mpa-builder, modelled in Dafny

webpack-mpa-builder is a command line wrapper around webpack for multi-page,
multi-locale sites. This project models its deterministic core and proves
properties about it:

- **BuildConf** (`config/build.conf.js`): the generator that turns the builder's
  configuration record, the build mode and the files found on disk into a
  webpack configuration. It covers the entry map, the output file name
  templates, the loader rules, the plugin list, and one HTML page target per
  locale and page.
- **Log** (`utils/log.js`): the message formatter. It splits the message at
  `\r?\n`, puts the coloured prefix or the padding in front of each line,
  and applies the print filter `/[0-9A-z]+/` of `info`, `warn` and `error`.
- **Cli** (`index.js`): the module-level option variables and `resolveOptions`,
  which updates them. It also covers the configuration overrides, the
  supported-command check, the input-directory check, and the `switch` that
  runs the build tasks. `main` returns the plan of steps the process takes.
- **Lint** (`tasks/lint.js`): the eslint argument vector, built in place, and
  the order in which the lint task announces, spawns and reports success.
- **Paths**: `path.join` and `path.parse(..).name`, the two path helpers the
  generator relies on.
- **Settings**: the configuration record and its defaults
  (`config/build.defaults.conf.js`).
- **Wrappers**: `Option` and `Result`.

Whatever the source reads from its surroundings is a parameter:

- the build mode (`NODE_ENV`);
- the files the directory scans find;
- whether the static directory exists;
- the loaded app config and project config;
- whether a directory exists;
- whether the lint process succeeds;
- the package version.

Printing is modelled as the emission it produces. A call of the logger from
another module is recorded as a `Log.Call`.

Where the code does something other than its names, messages or documentation suggest, the model follows the code:

- `config.input.viewIndexFile` and `config.defaultLocale` are absent from the
  shipped defaults, so the model treats both as optional.
- `path.parse` of the missing index file throws a `TypeError` inside the target
  loop. The generator therefore fails exactly when there is at least one locale
  and one page to emit (`Generate`, `Cli.DefaultsCannotEmitPages`).
- `-c, --config` is stored by the argument parser under `config`, but
  `resolveOptions` reads `configFile`. The config file therefore always stays
  `config/build.conf` (`ConfigFlagIgnored`).
- The guard `typeof cmd !== undefined` compares a string with `undefined` and is
  always true, so `ResolveOptions` assigns the command unconditionally.
- In the mappings object the `404` key is written after the index-page key. When
  the index page is itself named `404`, the `404` mapping wins; `PageFile`
  checks `404` first.
- The character class `[A-z]` also covers `[ \ ] ^ _` and the backquote. Because
  the prefix starts with `[`, a prefixed message always passes the print filter
  (`PrefixedPasses`).
- The banner's misspelling "ouptut" is kept.

## Model

| member | source | states |
|---|---|---|
| Paths.Join | config/build.conf.js:38-41 | `path.join` of two segments: length is the sum plus one separator exactly when both are non-empty; starts with the first and ends with the second, with `/` between them when both are non-empty; an empty segment leaves the other unchanged |
| Paths.ParseNameOfFile | config/build.conf.js:151 | round trip: `path.parse(dir/stem.ext).name` is `stem` for any directory |
| Settings.Defaults | config/build.defaults.conf.js:8-42 | the defaults lack the view index file and the default locale; the build public path is never empty (PUBLIC_PATH or `/`); the build lints, the dev server does not, gzip and analyzer are off |
| Log.Paint | utils/log.js:19 | colouring keeps the text intact between the escapes and adds a line feed only if the text has one |
| Log.Padding | utils/log.js:11 | the padding is exactly as many spaces as the prefix is long |
| Log.SplitLines | utils/log.js:16 | `split(/\r?\n/)` yields at least one line and no line contains a line feed |
| Log.SplitLinesDropsCR | utils/log.js:16 | splitting at `\r?\n` is splitting at line feeds and dropping one carriage return before each separator |
| Log.RenderLines | utils/log.js:18-22 | the `forEach` loop appends lead, line and (except after the last line) a line feed: its result is the rendering of all lines |
| Log.RenderedIsJoin | utils/log.js:18-22 | rendering the first n lines gives the first n decorated lines joined by line feeds, with a trailing line feed unless all lines are done |
| Log.ParseMessage | utils/log.js:10-30 | `parseMessage` builds exactly the formatted message: decorated lines joined by line feeds for strings, one lead plus the string form otherwise |
| Log.LinesOfJoin | utils/log.js:21 | round trip: splitting line-feed-joined lines without line feeds gives the lines back |
| Log.LinesAppend | utils/log.js:21 | appending a line feed and a last line without line feeds adds exactly that line |
| Log.FormatLines | utils/log.js:15-22 | the message has one line per `\r?\n`-separated input line, each behind its lead, with no trailing line feed |
| Log.MessageLines | utils/log.js:19 | the first line is the prefix (blue by default) or, without prefix, the padding, then the first input line; every later line is padding then its input line |
| Log.HasWordCharSplit | utils/log.js:16 | splitting at `\r?\n` neither adds nor removes a character of `[0-9A-z]` |
| Log.NoPrefixFilter | utils/log.js:34 | without prefix the filter passes exactly when the data itself shows a character of `[0-9A-z]` |
| Log.PrefixedPasses | utils/log.js:34 | with the prefix the filter always passes |
| Log.Info | utils/log.js:32-35 | prints the message on standard output exactly when the filter passes; always when prefixed; without prefix iff the data has a `[0-9A-z]` character |
| Log.Succeed | utils/log.js:37-40 | always prints a line feed and the unprefixed message in green |
| Log.Fail | utils/log.js:42-45 | always prints a line feed and the unprefixed message in red |
| Log.Warn | utils/log.js:47-50 | formats with a yellow prefix and prints it in yellow on the error stream exactly when the filter passes |
| Log.Error | utils/log.js:52-55 | formats with a red prefix and prints it in red on the error stream exactly when the filter passes |
| BuildConf.EntryMapFrom | config/build.conf.js:150-154 | every key of the entry map is the base name of some entry file and holds the entry built from such a file |
| BuildConf.BuildEntries | config/build.conf.js:150-154 | the `reduce` loop, one assignment per entry file, builds exactly the entry map; its keys and last-wins rule follow from `EntryMapKeys` and `EntryMapLastWins` |
| BuildConf.EntryMapKeys | config/build.conf.js:150-154 | the entry map's keys are exactly the base names of the entry files |
| BuildConf.EntryMapAt | config/build.conf.js:150-154 | the file last of its base name supplies that key's entry: dev client then path in debug mode, the path alone otherwise |
| BuildConf.EntryMapLastWins | config/build.conf.js:150-154 | for duplicate base names the later file wins, for every key |
| BuildConf.OutputStyle | config/build.conf.js:91 | the style is `compressed` when minifying and `expanded` otherwise, followed by `,sourceMap` when source maps are on and by nothing otherwise |
| BuildConf.StylesheetUse | config/build.conf.js:74-108 | inlining gives the loader chain style, css, postcss, sass; otherwise css, postcss, sass go to the extractor with `style-loader` as fallback |
| BuildConf.StylesheetChain | config/build.conf.js:75-93 | the chain is css, postcss, sass in that order, with the css and sass options taken from the options |
| BuildConf.StylesheetLoaders | config/build.conf.js:74-108 | inlining puts `style-loader` in front of the chain; otherwise the chain is extracted with `style-loader` as fallback |
| BuildConf.InlineStylesheets | config/build.conf.js:95-101 | after the `unshift` the chain is style, css, postcss, sass, with the options moved along |
| BuildConf.FixedRules | config/build.conf.js:165-202 | seven rules with the fixed tests in the fixed order and no `enforce` |
| BuildConf.Rules | config/build.conf.js:165-209 | the seven fixed rules first, with their tests and no `enforce`; an eighth rule, the eslint `pre` rule, exactly when debug and `dev.linter` |
| BuildConf.LintRules | config/build.conf.js:203-209 | the eslint rule is present exactly when debug and `dev.linter`; it tests `\.js`, includes the source directory, excludes the manifest directory, is enforced `pre` and uses `eslint-loader` with the friendly formatter |
| BuildConf.ScriptRules | config/build.conf.js:165-178 | scripts use babel with the `env` preset, templates babel then `pug-loader` rooted at the source directory; both exclude `node_modules` and the manifest directory and include nothing |
| BuildConf.ManifestRules | config/build.conf.js:179-202 | the manifest directory is passed through: only the file rule includes it, copying files as `[name].[hash:7].[ext]` with `file-loader`; the image, media and font rules exclude it; the stylesheet rule has no include or exclude |
| BuildConf.UrlRules | config/build.conf.js:190-201 | image, media and font rules use the url loader with limit 10000 and name `<assets>/<kind>/[name].[hash:7].[ext]` |
| BuildConf.StylesheetRule | config/build.conf.js:179-185 | the third rule tests `.scss`/`.sass` and passes inline = sourceMap = debug and minify = not debug |
| BuildConf.DebugStylesheets | config/build.conf.js:179-185 | in debug mode styles are inlined: style, css, postcss, sass, with css source maps and `expanded,sourceMap` output |
| BuildConf.ProductionStylesheets | config/build.conf.js:179-185 | in production styles are extracted with `style-loader` fallback, minimized and `compressed` without source maps |
| BuildConf.OutputFor | config/build.conf.js:156-162 | the output path is the build directory and the public path is the mode's; debug uses `[name].js`, `[chunkhash].js` and `[name].map`; production uses `[name].[chunkhash].js`, `[id].[chunkhash].js` and `[name].[hash].map` under the assets directory |
| BuildConf.OutputNames | config/build.conf.js:156-162 | the script, chunk and source-map names are pairwise distinct; in debug mode none has a directory part; in production, when the assets directory is non-empty, all three start with `<assets>/` |
| BuildConf.Subdir | config/build.conf.js:281 | the locale's directory is empty exactly for the default locale (or a nameless locale) and is the locale's name otherwise |
| BuildConf.PageFile | config/build.conf.js:285-291 | the page's file is the locale directory joined with `404.html`, `index.html` or `<page>/index.html`, with the `404` key checked before the index page |
| BuildConf.PageChunks | config/build.conf.js:293 | chunks are `manifest` and `common`, plus the page name as a third chunk exactly when an entry has that base name |
| BuildConf.TargetFor | config/build.conf.js:280-309 | a page target's file lies under the build directory; its template is the page file, its locale the language, and it injects the chunks |
| BuildConf.LanguageTargets | config/build.conf.js:280-310 | one target per page of a locale, in page order |
| BuildConf.FlattenLength | config/build.conf.js:279 | flattening rows of equal length n gives rows times n elements |
| BuildConf.FlattenAt | config/build.conf.js:279 | flattening puts element j of row i at position i·n + j |
| BuildConf.TargetsCount | config/build.conf.js:279-311 | there are exactly |languages| × |pages| HTML targets |
| BuildConf.TargetsAt | config/build.conf.js:279-311 | the targets are ordered by language first, then by page |
| BuildConf.PageInSubdir | config/build.conf.js:285-291 | below a non-empty subdirectory a page file is `subdir/` followed by a non-empty rest |
| BuildConf.TargetUnderLocale | config/build.conf.js:281-291 | a page of a non-default, non-empty locale is emitted under `<build>/<locale>/` |
| BuildConf.TargetOfDefaultLocale | config/build.conf.js:281-291 | a page of the default locale is emitted straight under the build directory: `404.html`, `index.html` for the index page, `<page>/index.html` otherwise |
| BuildConf.TargetChunks | config/build.conf.js:283-293 | chunks are `manifest`, `common`, then the page name exactly when an entry file has that base name |
| BuildConf.GzipTest | config/build.conf.js:271 | the compression test is `\.(`, then the extensions joined by `\|`, then `)$` |
| BuildConf.Alternatives | config/build.conf.js:271 | splitting the group of the test at `\|` gives at least one alternative |
| BuildConf.AlternativesOfJoin | config/build.conf.js:271 | round trip: names without `\|`, joined by it, split back into the same names |
| BuildConf.GzipExtensions | config/build.conf.js:271 | the group of the compression test lists exactly the configured extensions, in order |
| BuildConf.ModePlugins | config/build.conf.js:249-266 | in debug mode exactly hot reload, then no-emit-on-errors, and neither outside it; outside it exactly extraction to `<assets>/stylesheets/[name].[contenthash].css`, then safe CSS optimisation, then uglification without warnings |
| BuildConf.OptionalPlugins | config/build.conf.js:242-278 | the optional part holds one plugin per option that is on, plus the mode's plugins, and none of them is a page, the constants or a shared chunk |
| BuildConf.HtmlPlugins | config/build.conf.js:290-309 | one page plugin per target, in target order |
| BuildConf.InPlugins | config/build.conf.js:242-278 | any plugin other than Define, the shared chunks and the pages is present exactly when its option puts it there |
| BuildConf.Plugins | config/build.conf.js:222-311 | the constants with the mode's `NODE_ENV`, the `common` chunk taking the modules under `<cwd>/node_modules`, and the `manifest` chunk over `common` come first; the page plugins come last, one per target |
| BuildConf.CopyIffStatic | config/build.conf.js:242-248 | the static directory is copied exactly when it exists |
| BuildConf.HotReloadIff | config/build.conf.js:249-251 | hot module replacement and no-emit-on-errors are present exactly in debug mode |
| BuildConf.MinifyIff | config/build.conf.js:252-266 | CSS optimisation and uglification are present exactly outside debug mode |
| BuildConf.CompressionMember | config/build.conf.js:267-275 | the only compression plugin the list can hold is the configured one, and only when not debug and gzip is on |
| BuildConf.CompressionIff | config/build.conf.js:267-275 | compression is present exactly when not debug and gzip is on |
| BuildConf.AnalyzerIff | config/build.conf.js:276-278 | the bundle analyzer is present exactly when not debug and the analyzer is on |
| BuildConf.Notices | config/build.conf.js:30-35 | the generator logs one line on standard output exactly when the app config cannot be loaded |
| BuildConf.PageTargets | config/build.conf.js:279-311 | building the page targets fails exactly when the view index file is unset and there is at least one locale and one page |
| BuildConf.Generate | config/build.conf.js:24-313 | generation fails exactly when the view index file is unset and there is at least one locale and one page |
| BuildConf.GenerateShape | config/build.conf.js:138-210 | source maps exactly in debug mode, context is the source directory, one entry per distinct entry base name, and the mode's output and rules |
| BuildConf.GeneratePagesLast | config/build.conf.js:222-311 | the page targets' plugins end the plugin list |
| BuildConf.PageTargetsCount | config/build.conf.js:279-311 | there is one page target per locale file and page |
| BuildConf.PageTargetAt | config/build.conf.js:279-311 | the generated target of locale file i and page j is at position i·|pages| + j |
| Lint.LintArgsShape | tasks/lint.js:17-23 | args start with `-f` and the formatter path; `--fix` comes next exactly when fixing; the input directory comes last; the length is 4 with fix, 3 without |
| Lint.LintEventsOrder | tasks/lint.js:15-26 | the announcement comes first and the spawn second; success is logged only after a successful spawn |
| Lint.LintTask | tasks/lint.js:12-27 | the lint task runs `eslint` with the argument vector it builds in place and succeeds exactly when the spawn does |
| Cli.CommandLineOptions | index.js:129-133 | the parser stores `-c` under `config` and never sets `configFile` |
| Cli.Cli.constructor | index.js:13-31 | the option variables start as: empty command, no directories, `config/build.conf`, no fix, no analyzer |
| Cli.Cli.ResolveOptions | index.js:34-41 | records the command and the options in the module-level variables |
| Cli.ResolvedFields | index.js:34-41 | the command and both flags are always overwritten; the directories and the config file only when given |
| Cli.ConfigFlagIgnored | index.js:38 | whatever `-c` says, the config file stays `config/build.conf` |
| Cli.Cli.Configure | index.js:45-63 | the loaded project config (or the defaults when loading threw) with the overrides applied; `hasConfig` exactly when loading succeeded |
| Cli.EffectiveOverrides | index.js:61-63 | directories are replaced only by non-empty overrides; `-a` can turn the analyzer on but never off; every other field of the input, output and build sections, and every other section, is the loaded (or default) one |
| Cli.DefaultsCannotEmitPages | index.js:45-63 | with the shipped defaults and any overrides, generation fails exactly when there is a locale and a page to emit |
| Cli.Cli.Run | index.js:44-118 | `main` produces exactly the plan of the recorded command and options |
| Cli.RunCommand | index.js:82-117 | the `switch` dispatches each supported command to its steps |
| Cli.RunBuild | index.js:86-104 | `build` sets production mode, runs the lint gate when enabled, then cleans and builds |
| Cli.PlanOfSupported | index.js:79-117 | past both checks the plan is the banner followed by the command's steps |
| Cli.UnsupportedCommandExits | index.js:66-71 | an unsupported command is reported and exits 1, whatever the input directory |
| Cli.MissingInputDirExits | index.js:74-77 | a missing input directory is reported and exits 1 with no task run |
| Cli.SupportedCommandsExactly | index.js:66 | the accepted commands are exactly `clean`, `build`, `dev`, `lint` and the empty command |
| Cli.BuildRunsCleanThenBuild | index.js:86-104 | without the lint gate, or with a passing lint: production mode, then clean, then build last, and no exit 1 |
| Cli.BuildStopsOnLintFailure | index.js:89-100 | a failing lint gate ends the plan with exit 1 and neither cleans nor builds |
| Cli.LintNeverExits | index.js:109-114 | the `lint` command swallows a lint failure: no exit step |
| Cli.HelpOnlyWithoutCommand | index.js:115-116 | only the empty command falls through to the help text |
| Cli.BannerNamesConfig | index.js:79 | the banner names the config file exactly when a project config was loaded |

## Left out

- Webpack and every loader and plugin internal is left out: bundling, hashing, hot reload, extraction and compression. Loaders and plugins are records that carry only the option values the generator chooses. The PostCSS plugin factory is recorded as the plugin names.
- The `minChunks` predicate of the `common` chunk is recorded only as the vendor directory it tests against.
- `i18n.configure` is left out, and so are the `__`/`__n` template helpers. They mutate global locale state; a target only records its locale.
- The directory scans (`glob.sync`), `fs.existsSync` and the `require` of the app and project configs are parameters. So are the version from `package.json` and `process.cwd()`.
- The package name in the prefix is a constant.
- The deep merge of the project config into the defaults is taken as given. `main` receives its result, or None when loading or merging threw.
- Configure: the shallow copy `Object.assign({}, config)` shares the nested objects with the defaults, so the overrides also alter the defaults object. Only the effective configuration is modelled.
- `process.exit`, `process.env.NODE_ENV` and `program.help()` are steps of the plan.
- The `clean`, `build` and `dev` tasks are steps of the plan. Their own failures and exits are not modelled.
- The lint process is the parameter `spawnSucceeds`.
- The argument parser itself is not modelled. An absent `-a` or `-f` reads as false.
- Colouring is modelled as one opening escape before the text and one closing escape after it. Terminals without colour support are not modelled.
- Log.Paint: three behaviours of the colouring library are not reproduced. A closing escape inside the text is not replaced by the outer colour's opening escape; this matters for the prefix inside a `warn` or `error` message (utils/log.js:49, 54) and for the cyan parts of the banner (index.js:79). An empty text still gets both escapes. Escapes are not closed and reopened around line breaks.
- BuildConf.EntryMap: the entry map is a map, so the order in which the `reduce` inserts its keys is not recorded.
- `path.join` and `path.resolve` are modelled as a join that drops empty segments. Normalisation of `.`, `..` and repeated separators is left out, and the working directory is taken to be absolute.
- Paths.ParseName: trailing separators are not stripped, since the scanned file names have none.
- Log: data that is neither a string nor a value with a string form is not distinguished further. Everything without `split` is a `Value`.
- Log: only the message of a logger call from another module is recorded. What such a call prints follows from `Log.Info`, `Log.Succeed` and `Log.Error`.
- tasks/dev.js, tasks/dev-client.js, tasks/build.js, tasks/clean.js and utils/spawn.js are not part of this model.
