/** Configuration and request routing of `cargo docserve`: how the command-line
    options become a `Config`, where the site root redirects to, and which
    requests are answered by that redirect rather than by the static file server. */
module Docserve {

  datatype Option<T> = None | Some(value: T)

  datatype Result<T> = Ok(value: T) | Err(error: string)

  /** Unsigned integers of the widths the program uses. */
  newtype u8 = x: int | 0 <= x < 0x100
  newtype u16 = x: int | 0 <= x < 0x1_0000

  /** The part of `cargo metadata` output the program reads: the name of the
      root package if the workspace has one, the names of all packages in
      the order cargo lists them, and the two directories it uses. */
  datatype Metadata = Metadata(
    rootPackage: Option<string>,
    packages: seq<string>,
    targetDirectory: string,
    workspaceRoot: string)

  /** The parsed command line. */
  datatype Opt = Opt(
    port: u16,
    watch: bool,
    manifest: Option<string>,
    watchExtra: seq<string>,
    public: bool,
    cargoArgs: seq<string>)

  datatype Ipv4 = Ipv4(a: u8, b: u8, c: u8, d: u8)

  const UNSPECIFIED := Ipv4(0, 0, 0, 0)
  const LOCALHOST := Ipv4(127, 0, 0, 1)

  /** 127.0.0.0/8, the loopback block of section 3.2.1.3 of RFC 1122. */
  predicate IsLoopback(ip: Ipv4) {
    ip.a == 127
  }

  /** 0.0.0.0, "this host on this network", which a listener uses to accept on every interface. */
  predicate IsUnspecified(ip: Ipv4) {
    ip.a == 0 && ip.b == 0 && ip.c == 0 && ip.d == 0
  }

  datatype SocketAddr = SocketAddr(host: Ipv4, port: u16)

  datatype Config = Config(
    address: SocketAddr,
    watch: Option<seq<string>>,   // None: do not watch; Some(extra): watch these as well
    cargoArgs: seq<string>,
    manifest: Option<string>,
    metadata: Metadata,
    docDir: string)

  /** Builds the configuration from the options and the outcome of asking
      cargo for the project metadata (an external call, so it is an input). */
  method TryFromOpt(opt: Opt, metadata: Result<Metadata>) returns (r: Result<Config>)
    ensures metadata.Err? ==> r == Err(metadata.error)
    ensures metadata.Ok? ==> r.Ok?
    ensures r.Ok? ==> r.value.metadata == metadata.value && r.value.manifest == opt.manifest
    // listen on every interface only when asked to, on the requested port
    ensures r.Ok? ==> r.value.address.port == opt.port
    ensures r.Ok? ==> (IsUnspecified(r.value.address.host) <==> opt.public)
    ensures r.Ok? ==> (IsLoopback(r.value.address.host) <==> !opt.public)
    ensures r.Ok? ==> r.value.address.host == if opt.public then UNSPECIFIED else LOCALHOST
    // invoked as `cargo docserve`, the subcommand name reaches us as the first argument
    ensures r.Ok? && |opt.cargoArgs| > 0 && opt.cargoArgs[0] == "docserve" ==>
      opt.cargoArgs == ["docserve"] + r.value.cargoArgs
    ensures r.Ok? && !(|opt.cargoArgs| > 0 && opt.cargoArgs[0] == "docserve") ==>
      r.value.cargoArgs == opt.cargoArgs
    ensures r.Ok? ==> |r.value.docDir| == |metadata.value.targetDirectory| + 4
    ensures r.Ok? ==> r.value.docDir[..|metadata.value.targetDirectory|] == metadata.value.targetDirectory
    ensures r.Ok? ==> r.value.docDir[|metadata.value.targetDirectory|..] == "/doc"
    ensures r.Ok? ==> (r.value.watch.Some? <==> opt.watch)
    ensures r.Ok? && opt.watch ==> r.value.watch.value == opt.watchExtra
  {
    var host := if opt.public then UNSPECIFIED else LOCALHOST;
    var cargoArgs := opt.cargoArgs;
    if |cargoArgs| > 0 && cargoArgs[0] == "docserve" {
      cargoArgs := cargoArgs[1..];
    }
    if metadata.Err? {
      return Err(metadata.error);
    }
    var docDir := metadata.value.targetDirectory + "/doc";
    var watch := if opt.watch then Some(opt.watchExtra) else None;
    r := Ok(Config(SocketAddr(host, opt.port), watch, cargoArgs, opt.manifest, metadata.value, docDir));
  }

  /** `name` with every '-' replaced by '_' (crate names use '_' where package names may use '-'). */
  function ReplaceDashes(name: string): (r: string)
    ensures Underscored(r, name)
  {
    if name == [] then []
    else [if name[0] == '-' then '_' else name[0]] + ReplaceDashes(name[1..])
  }

  /** `seg` is `name` character by character, except that each '-' of `name` is a '_' in `seg`. */
  predicate Underscored(seg: string, name: string) {
    |seg| == |name| &&
    forall i :: 0 <= i < |name| ==> seg[i] == if name[i] == '-' then '_' else name[i]
  }

  const INDEX_SUFFIX := "/index.html"

  /** Reads back the package segment of a redirect target `/<segment>/index.html`. */
  function RedirectSegment(location: string): (r: Option<string>)
    ensures r.Some? ==> location == "/" + r.value + INDEX_SUFFIX
  {
    if |location| > |INDEX_SUFFIX| && location[0] == '/' && location[|location| - |INDEX_SUFFIX|..] == INDEX_SUFFIX
    then Some(location[1..|location| - |INDEX_SUFFIX|])
    else None
  }

  lemma RedirectSegmentOfTarget(segment: string)
    ensures RedirectSegment("/" + segment + INDEX_SUFFIX) == Some(segment)
  {
  }

  /** Where the browser is sent for "/": the index page of the root package, or
      of the first package when there is no root package. */
  function OpenAt(m: Metadata): (r: Result<string>)
    ensures r.Err? <==> m.rootPackage.None? && |m.packages| == 0
    ensures r.Ok? ==> RedirectSegment(r.value).Some?
    ensures r.Ok? ==> '-' !in RedirectSegment(r.value).value
    ensures m.rootPackage.Some? ==> r.Ok? && Underscored(RedirectSegment(r.value).value, m.rootPackage.value)
    ensures m.rootPackage.None? && |m.packages| > 0 ==>
      r.Ok? && Underscored(RedirectSegment(r.value).value, m.packages[0])
  {
    var name := if m.rootPackage.Some? then Some(m.rootPackage.value)
                else if |m.packages| > 0 then Some(m.packages[0])
                else None;
    match name
    case None => Err("could not find any packages")
    case Some(n) =>
      var segment := ReplaceDashes(n);
      RedirectSegmentOfTarget(segment);
      Ok("/" + segment + INDEX_SUFFIX)
  }

  datatype HttpMethod = GET | HEAD | POST | PUT | DELETE | OPTIONS | PATCH | CONNECT | TRACE | Extension(token: string)

  /** A request as the router sees it: its method (`verb`) and the path part of its URI. */
  datatype Request = Request(verb: HttpMethod, path: string)

  const MOVED_PERMANENTLY := 301

  /** `Redirect` is the response built by the handler itself; `Static` stands
      for whatever the static file server makes of the request under `docDir`. */
  datatype Response = Redirect(status: int, location: string) | Static(docDir: string, request: Request)

  /** Routes one request. The handler unwraps `OpenAt`, so a root GET needs a package to redirect to. */
  function Handle(config: Config, req: Request): (r: Response)
    requires req.verb == GET && req.path == "/" ==> OpenAt(config.metadata).Ok?
    ensures r.Redirect? <==> req.verb == GET && req.path == "/"
    ensures r.Redirect? ==> r.status == MOVED_PERMANENTLY && OpenAt(config.metadata) == Ok(r.location)
    ensures r.Static? ==> r.docDir == config.docDir && r.request == req
  {
    if req.verb == GET && req.path == "/" then
      Redirect(MOVED_PERMANENTLY, OpenAt(config.metadata).value)
    else
      Static(config.docDir, req)
  }
}
