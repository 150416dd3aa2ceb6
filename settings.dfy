/**
 * The builder's configuration record and its default value
 * (config/build.defaults.conf.js). A project may override any field; the
 * merge itself happens in index.js and is taken as given by the Cli module.
 */
module Settings {
  import opened Wrappers

  datatype InputPaths = InputPaths(
    baseDir: string,
    assetsDir: string,
    manifestDir: string,
    entriesDir: string,
    viewsDir: string,
    /** Not part of the defaults: only a project config can supply it. */
    viewIndexFile: Option<string>)

  datatype OutputPaths = OutputPaths(baseDir: string, assetsDir: string, staticDir: string)

  datatype ConfigPaths = ConfigPaths(baseDir: string, localesDir: string, appConfigFile: string)

  datatype StaticAssets = StaticAssets(baseDir: string, ignore: seq<string>)

  datatype BuildOptions = BuildOptions(
    publicPath: string,
    linter: bool,
    gzip: bool,
    gzipExtensions: seq<string>,
    analyzer: bool)

  datatype DevOptions = DevOptions(publicPath: string, linter: bool, port: nat)

  datatype Config = Config(
    input: InputPaths,
    output: OutputPaths,
    config: ConfigPaths,
    statics: StaticAssets,
    build: BuildOptions,
    dev: DevOptions,
    /** Not part of the defaults: only a project config can supply it. */
    defaultLocale: Option<string>)

  /**
   * The default configuration; `publicPathEnv` is the value of the
   * PUBLIC_PATH environment variable, "" when it is unset.
   */
  function Defaults(publicPathEnv: string): (c: Config)
    ensures c.input.viewIndexFile == None && c.defaultLocale == None
    ensures c.build.publicPath != ""
    ensures c.build.linter && !c.dev.linter && !c.build.gzip && !c.build.analyzer
  {
    Config(
      InputPaths("app", "assets", "manifest", "assets", "views", None),
      OutputPaths("public", "assets", ""),
      ConfigPaths("config", "locales", "app.conf"),
      StaticAssets("static", [".*"]),
      BuildOptions(if publicPathEnv != "" then publicPathEnv else "/", true, false, ["js", "css"], false),
      DevOptions("/", false, 8080),
      None)
  }
}
