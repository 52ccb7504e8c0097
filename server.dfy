/**
 * The request handler of kaniko's build server (cmd/server/main.go).
 *
 * One invocation of the handler reads the `debug` query value and the JSON
 * body of a request, and then drives three operations of an image builder it
 * cannot see (permission check, build, push) plus a change of the process
 * working directory. Everything the handler cannot see is an oracle here:
 * the decoder's verdict is part of the `Request`, and the success or failure
 * of every later step is part of an `Oracle`. What the handler does is then
 * fully observable as
 *   - the ordered trace of collaborator calls it makes,
 *   - the ordered list of (status, message) responses it writes,
 *   - the process-wide log level and working directory it leaves behind.
 */
module Server {

  datatype Option<+T> = None | Some(value: T)

  /** The (value, error) pair of a Go call: exactly one of the two is meaningful. */
  datatype Result<+T> = Ok(value: T) | Err(detail: string)

  // HTTP status codes the handler writes.
  const StatusOK: int := 200
  const StatusBadRequest: int := 400
  const StatusInternalServerError: int := 500

  // Fixed prefixes of the response messages; the collaborator's error detail follows each.
  const ParseFailed: string := "Could not parse JSON body: "
  const PermissionFailed: string := "Error checking push permissions: "
  const ChdirFailed: string := "Error changing to root dir: "
  const BuildFailed: string := "Error building image: "
  const PushFailed: string := "Error pushing image: "
  const SuccessMessage: string := "Success"

  /** The directory the push path moves the process to before building. */
  const RootDir: string := "/"
  /** The log level a `debug` request switches the process to. */
  const DebugLevel: string := "debug"

  predicate IsWrittenStatus(status: int) {
    status == StatusOK || status == StatusBadRequest || status == StatusInternalServerError
  }

  /** The decoded build options: only `noPush` steers the handler, the rest is handed on unread. */
  datatype Options = Options(noPush: bool, params: string)

  /** What decoding the body into a `*KanikoOptions` yields: options, a nil pointer (JSON `null`), or an error. */
  datatype Decoded = Parsed(opts: Options) | NullBody | Malformed(detail: string)

  /** A request as the handler sees it: the `debug` query value ("" when absent) and the decoder's verdict on the body. */
  datatype Request = Request(debug: string, body: Decoded)

  /** Opaque handle of a built image, passed from the build to the push. */
  type Image = nat

  /** What the unseen collaborators report when the handler calls them (None: no error). */
  datatype Oracle = Oracle(
    permission: Option<string>,  // CheckPushPermissions
    chdir: Option<string>,       // os.Chdir("/")
    build: Result<Image>,        // DoBuild
    push: Option<string>)        // DoPush

  /** The phases of the handler, in the order in which it can reach them. */
  datatype Step = Logging | Decoding | Permission | ChangeDir | Build | Push {
    function Index(): nat {
      match this
      case Logging => 0
      case Decoding => 1
      case Permission => 2
      case ChangeDir => 3
      case Build => 4
      case Push => 5
    }
  }

  /** One call the handler makes into code it cannot see. */
  datatype Call =
    | ConfigureLogging(level: string)
    | Decode
    | CheckPushPermissions(opts: Options)
    | Chdir(dir: string)
    | DoBuild(opts: Options, cwd: string)  // cwd: the working directory the build runs in
    | DoPush(image: Image, opts: Options)
  {
    function Step(): Step {
      match this
      case ConfigureLogging(_) => Logging
      case Decode => Decoding
      case CheckPushPermissions(_) => Permission
      case Chdir(_) => ChangeDir
      case DoBuild(_, _) => Build
      case DoPush(_, _) => Push
    }

    predicate IsBuilderOp() {
      CheckPushPermissions? || DoBuild? || DoPush?
    }
  }

  /** One `respond` call: a status header followed by a plain-text body. */
  datatype Response = Response(status: int, msg: string)

  /**
   * The handler dereferences the decoded pointer without a nil check, so a
   * JSON `null` body panics unless the debug short-circuit comes first.
   */
  predicate Admissible(req: Request) {
    req.debug != "" || !req.body.NullBody?
  }

  /** The request got past decoding, took the push path and passed the permission check. */
  predicate ReachesChdir(req: Request, env: Oracle) {
    && req.debug == ""
    && req.body.Parsed?
    && !req.body.opts.noPush
    && env.permission.None?
  }

  /** The handler's collaborator calls, in order, when it starts in working directory `cwd`. */
  function Calls(cwd: string, req: Request, env: Oracle): (t: seq<Call>)
    requires Admissible(req)
    // each phase runs at most once, and the phases run in their fixed order
    ensures forall i, j :: 0 <= i < j < |t| ==> t[i].Step().Index() < t[j].Step().Index()
    // the debug short-circuit comes before decoding and reaches no builder operation
    ensures (Decode in t) <==> req.debug == ""
    ensures req.debug != "" ==> forall c <- t :: !c.IsBuilderOp()
    // a build on the push path always runs in the root directory
    ensures forall c <- t :: c.DoBuild? && !c.opts.noPush ==> c.cwd == RootDir
    // a push only follows a build that produced the image it pushes
    ensures forall c <- t :: c.DoPush? ==> env.build == Ok(c.image)
  {
    if req.debug != "" then
      [ConfigureLogging(DebugLevel)]
    else if req.body.Malformed? then
      [Decode]
    else
      var opts := req.body.opts;
      if opts.noPush then
        [Decode, DoBuild(opts, cwd)]
      else if env.permission.Some? then
        [Decode, CheckPushPermissions(opts)]
      else if env.chdir.Some? then
        [Decode, CheckPushPermissions(opts), Chdir(RootDir)]
      else if env.build.Err? then
        [Decode, CheckPushPermissions(opts), Chdir(RootDir), DoBuild(opts, RootDir)]
      else
        [Decode, CheckPushPermissions(opts), Chdir(RootDir), DoBuild(opts, RootDir),
         DoPush(env.build.value, opts)]
  }

  /** The responses the handler writes, in order. */
  function Responses(req: Request, env: Oracle): (rs: seq<Response>)
    requires Admissible(req)
    ensures forall r <- rs :: IsWrittenStatus(r.status)
    ensures |rs| <= 2
    // two writes happen only on the no-push path, when a failed build is followed by "Success"
    ensures |rs| == 2 <==> req.debug == "" && req.body.Parsed? && req.body.opts.noPush && env.build.Err?
    ensures |rs| == 2 ==> rs[0].status == StatusInternalServerError && rs[1] == Response(StatusOK, SuccessMessage)
    // nothing is written for a debug request
    ensures req.debug != "" ==> rs == []
  {
    if req.debug != "" then
      []
    else if req.body.Malformed? then
      [Response(StatusBadRequest, ParseFailed + req.body.detail)]
    else
      var opts := req.body.opts;
      if opts.noPush then
        var failure := if env.build.Err? then [Response(StatusInternalServerError, BuildFailed + env.build.detail)] else [];
        failure + [Response(StatusOK, SuccessMessage)]
      else if env.permission.Some? then
        [Response(StatusBadRequest, PermissionFailed + env.permission.value)]
      else if env.chdir.Some? then
        [Response(StatusInternalServerError, ChdirFailed + env.chdir.value)]
      else if env.build.Err? then
        [Response(StatusInternalServerError, BuildFailed + env.build.detail)]
      else if env.push.Some? then
        [Response(StatusInternalServerError, PushFailed + env.push.value)]
      else
        []
  }

  /** Everything one handler invocation can observe or change. */
  datatype Proc = Proc(trace: seq<Call>, written: seq<Response>, logLevel: string, cwd: string)

  /** The state after one handler invocation on `req`, starting from `p`. */
  function Handle(p: Proc, req: Request, env: Oracle): Proc
    requires Admissible(req)
  {
    Proc(p.trace + Calls(p.cwd, req, env),
         p.written + Responses(req, env),
         if req.debug != "" then DebugLevel else p.logLevel,
         if ReachesChdir(req, env) && env.chdir.None? then RootDir else p.cwd)
  }

  /**
   * The process as one handler invocation sees it: the calls made so far, the
   * responses written so far, and the two pieces of process-wide state.
   */
  class Process {
    var trace: seq<Call>
    var written: seq<Response>
    var logLevel: string
    var cwd: string

    function Snapshot(): Proc
      reads this
    {
      Proc(trace, written, logLevel, cwd)
    }

    constructor (level: string, dir: string)
      ensures Snapshot() == Proc([], [], level, dir)
    {
      trace, written, logLevel, cwd := [], [], level, dir;
    }

    // Stand-ins for the collaborators: each records its call and reports what the oracle says.

    /** util.ConfigureLogging: sets the process-wide log level. */
    method ConfigureLogging(level: string)
      modifies this
      ensures Snapshot() == old(Snapshot()).(trace := old(trace) + [Call.ConfigureLogging(level)], logLevel := level)
    {
      trace := trace + [Call.ConfigureLogging(level)];
      logLevel := level;
    }

    /** json.Decoder.Decode: the verdict on the body is part of the request. */
    method Decode(body: Decoded) returns (d: Decoded)
      modifies this
      ensures d == body
      ensures Snapshot() == old(Snapshot()).(trace := old(trace) + [Call.Decode])
    {
      trace := trace + [Call.Decode];
      d := body;
    }

    /** executor.CheckPushPermissions. */
    method CheckPushPermissions(opts: Options, env: Oracle) returns (err: Option<string>)
      modifies this
      ensures err == env.permission
      ensures Snapshot() == old(Snapshot()).(trace := old(trace) + [Call.CheckPushPermissions(opts)])
    {
      trace := trace + [Call.CheckPushPermissions(opts)];
      err := env.permission;
    }

    /** os.Chdir: a failed change leaves the working directory where it was. */
    method Chdir(dir: string, env: Oracle) returns (err: Option<string>)
      modifies this
      ensures err == env.chdir
      ensures Snapshot() == old(Snapshot()).(trace := old(trace) + [Call.Chdir(dir)],
                                             cwd := if err.None? then dir else old(cwd))
    {
      trace := trace + [Call.Chdir(dir)];
      err := env.chdir;
      if err.None? {
        cwd := dir;
      }
    }

    /** executor.DoBuild: runs in the current working directory. */
    method DoBuild(opts: Options, env: Oracle) returns (image: Result<Image>)
      modifies this
      ensures image == env.build
      ensures Snapshot() == old(Snapshot()).(trace := old(trace) + [Call.DoBuild(opts, old(cwd))])
    {
      trace := trace + [Call.DoBuild(opts, cwd)];
      image := env.build;
    }

    /** executor.DoPush. */
    method DoPush(image: Image, opts: Options, env: Oracle) returns (err: Option<string>)
      modifies this
      ensures err == env.push
      ensures Snapshot() == old(Snapshot()).(trace := old(trace) + [Call.DoPush(image, opts)])
    {
      trace := trace + [Call.DoPush(image, opts)];
      err := env.push;
    }

    /** respond: writes one status and one message. */
    method Respond(status: int, msg: string)
      modifies this
      ensures Snapshot() == old(Snapshot()).(written := old(written) + [Response(status, msg)])
    {
      written := written + [Response(status, msg)];
    }

    /** executeCommand: one invocation of the handler. */
    method ExecuteCommand(req: Request, env: Oracle)
      requires Admissible(req)
      modifies this
      ensures Snapshot() == Handle(old(Snapshot()), req, env)
    {
      if req.debug != "" {
        ConfigureLogging(DebugLevel);
        return;
      }
      var decoded := Decode(req.body);
      if decoded.Malformed? {
        Respond(StatusBadRequest, ParseFailed + decoded.detail);
        return;
      }
      var opts := decoded.opts;
      if opts.noPush {
        var built := DoBuild(opts, env);
        if built.Err? {
          Respond(StatusInternalServerError, BuildFailed + built.detail);
        }
        // no return here: "Success" is written after a failed build too
        Respond(StatusOK, SuccessMessage);
        return;
      }
      var err := CheckPushPermissions(opts, env);
      if err.Some? {
        Respond(StatusBadRequest, PermissionFailed + err.value);
        return;
      }
      err := Chdir(RootDir, env);
      if err.Some? {
        Respond(StatusInternalServerError, ChdirFailed + err.value);
        return;
      }
      var image := DoBuild(opts, env);
      if image.Err? {
        Respond(StatusInternalServerError, BuildFailed + image.detail);
        return;
      }
      err := DoPush(image.value, opts, env);
      if err.Some? {
        Respond(StatusInternalServerError, PushFailed + err.value);
      }
    }
  }
}
