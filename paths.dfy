/** Choosing where a download is saved, and the option defaults read when a
    download starts (index.js:11-44). Everything here is a pure function of the
    options, the item's suggested name and MIME type, and the helpers in `Env`. */
module Paths {

  /** The helpers the listener calls whose code is not part of this model, as
      the values they compute. Every property below holds for all of them. */
  datatype Env = Env(
    downloads: string,                    // app.getPath('downloads')
    join: (string, string) -> string,     // path.join(dir, name)
    extname: string -> string,            // path.extname(name); "" when there is none
    mimeExtensions: string -> seq<string>,// extName.mime(mime), each entry's `ext`
    unused: string -> string,             // unusedFilename.sync(path)
    onDisk: string -> bool,               // whether a path exists when the download starts
    fill: (string, string) -> string)     // pupa(template, {filename})

  /** The recognised fields of `opts`. A string field holds "" when the option is
      absent or empty: JavaScript treats both as false, and the code only ever
      tests these fields for truth. */
  datatype Options = Options(
    directory: string,
    filename: string,
    saveAs: bool,
    hasOnCancel: bool,          // typeof opts.onCancel === 'function'
    openFolderWhenDone: bool,
    errorMessage: string,
    canceledMessage: string,
    unregisterWhenDone: bool)

  /** `opts = {}`, the default of registerListener. */
  const NoOptions := Options("", "", false, false, false, "", "", false)

  const DefaultErrorMessage := "The download of {filename} was interrupted"
  const DefaultCanceledMessage := "The download of {filename} was canceled"

  /** The one placeholder the code fills in. */
  const Placeholder := "{filename}"

  /** Whether `Placeholder` occurs somewhere in `t`. */
  predicate HasPlaceholder(t: string) {
    exists i :: 0 <= i <= |t| && Placeholder <= t[i..]
  }

  /** JavaScript's `a || b` on two strings. */
  function Or(a: string, b: string): (r: string)
    ensures r == a || r == b
    ensures a != "" ==> r == a
    ensures r == "" <==> a == "" && b == ""
  {
    if a != "" then a else b
  }

  /** The directory the file goes to (index.js:30). */
  function Directory(opts: Options, env: Env): (dir: string)
    ensures opts.directory != "" ==> dir == opts.directory
    ensures opts.directory == "" ==> dir == env.downloads
  {
    Or(opts.directory, env.downloads)
  }

  /** The template of the "interrupted" message (index.js:42). It is never
      empty, and unless the caller supplied one it mentions the filename. */
  function ErrorTemplate(opts: Options): (t: string)
    ensures t != ""
    ensures opts.errorMessage != "" ==> t == opts.errorMessage
    ensures opts.errorMessage == "" ==> t == DefaultErrorMessage && HasPlaceholder(t)
  {
    DefaultTemplatesMentionFilename();
    Or(opts.errorMessage, DefaultErrorMessage)
  }

  /** The template of the "canceled" message (index.js:44). */
  function CanceledTemplate(opts: Options): (t: string)
    ensures t != ""
    ensures opts.canceledMessage != "" ==> t == opts.canceledMessage
    ensures opts.canceledMessage == "" ==> t == DefaultCanceledMessage && HasPlaceholder(t)
  {
    DefaultTemplatesMentionFilename();
    Or(opts.canceledMessage, DefaultCanceledMessage)
  }

  lemma DefaultTemplatesMentionFilename()
    ensures HasPlaceholder(DefaultErrorMessage)
    ensures HasPlaceholder(DefaultCanceledMessage)
  {
    assert Placeholder <= DefaultErrorMessage[16..];
    assert Placeholder <= DefaultCanceledMessage[16..];
  }

  /** getFilenameFromMime (index.js:11-19): the name gains an extension exactly
      when the MIME lookup yields exactly one, and then it gains that one. */
  function FilenameFromMime(name: string, mime: string, env: Env): (r: string)
    ensures name <= r
    ensures r == name <==> |env.mimeExtensions(mime)| != 1
    ensures |env.mimeExtensions(mime)| == 1 ==> r[|name|..] == "." + env.mimeExtensions(mime)[0]
  {
    var exts := env.mimeExtensions(mime);
    if |exts| != 1 then name else name + "." + exts[0]
  }

  /** The name used when no filename option is given (index.js:37): the
      suggested name when it has an extension, otherwise the MIME-derived one. */
  function ChosenName(filename: string, mime: string, env: Env): (r: string)
    ensures env.extname(filename) != "" ==> r == filename
    ensures env.extname(filename) == "" ==> r == FilenameFromMime(filename, mime, env)
    ensures filename <= r
    ensures r != filename ==>
              env.extname(filename) == "" && |env.mimeExtensions(mime)| == 1 &&
              r == filename + "." + env.mimeExtensions(mime)[0]
  {
    if env.extname(filename) != "" then filename else FilenameFromMime(filename, mime, env)
  }

  /** The path the file is saved to (index.js:30-40). An explicit filename is
      joined onto the directory as is, so whatever the item suggests plays no
      part and no collision check is made; otherwise the chosen name goes
      through the unused-filename helper. */
  function ResolveFilePath(opts: Options, filename: string, mime: string, env: Env): (path: string)
    ensures opts.filename != "" ==> path == env.join(Directory(opts, env), opts.filename)
    ensures opts.filename == "" ==>
              path == env.unused(env.join(Directory(opts, env), ChosenName(filename, mime, env)))
  {
    var dir := Directory(opts, env);
    if opts.filename != "" then env.join(dir, opts.filename)
    else env.unused(env.join(dir, ChosenName(filename, mime, env)))
  }

  /** What unusedFilename.sync promises: its result is not on disk, and a path
      that is not on disk is kept. */
  ghost predicate UnusedAvoidsCollisions(env: Env) {
    (forall p :: !env.onDisk(env.unused(p))) &&
    (forall p :: !env.onDisk(p) ==> env.unused(p) == p)
  }

  /** Without an explicit filename the download never lands on an existing
      file, and it lands exactly on directory/name when that is free. */
  lemma ResolvedPathIsFree(opts: Options, filename: string, mime: string, env: Env)
    requires UnusedAvoidsCollisions(env)
    requires opts.filename == ""
    ensures !env.onDisk(ResolveFilePath(opts, filename, mime, env))
    ensures var target := env.join(Directory(opts, env), ChosenName(filename, mime, env));
            !env.onDisk(target) ==> ResolveFilePath(opts, filename, mime, env) == target
  {
  }

  /** An explicit filename that already exists is used as it is: even when the
      unused-filename helper keeps its promise, the resolved path can be on disk. */
  lemma ExplicitFilenameMayOverwrite()
    ensures exists env: Env, opts: Options ::
              UnusedAvoidsCollisions(env) &&
              env.onDisk(ResolveFilePath(opts, "a", "", env))
  {
    var env := Env("dl", (d: string, n: string) => d + "/" + n, (n: string) => "",
                   (m: string) => [],
                   (p: string) => if p == "dl/report.pdf" then "dl/report (1).pdf" else p,
                   (p: string) => p == "dl/report.pdf", (t: string, f: string) => t);
    var opts := NoOptions.(filename := "report.pdf");
    assert UnusedAvoidsCollisions(env);
    assert ResolveFilePath(opts, "a", "", env) == "dl/report.pdf";
  }
}
