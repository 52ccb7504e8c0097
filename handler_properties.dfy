/**
 * What one invocation of the handler does, path by path: which collaborator
 * calls it makes, which responses it writes and what it does to the log level
 * and the working directory.
 */
module HandlerProperties {
  import opened Server

  /** A non-empty `debug` value raises the log level and ends the request: no decoding, no builder call, no response. */
  lemma DebugShortCircuit(p: Proc, req: Request, env: Oracle, body: Decoded, env': Oracle)
    requires req.debug != ""
    ensures Handle(p, req, env).trace == p.trace + [Call.ConfigureLogging(DebugLevel)]
    ensures Handle(p, req, env).written == p.written
    ensures Handle(p, req, env).logLevel == DebugLevel
    ensures Handle(p, req, env).cwd == p.cwd
    // whatever the body holds and whatever the builder would report
    ensures Handle(p, req.(body := body), env') == Handle(p, req, env)
  {
  }

  /** A body that does not decode gets one 400 response, and nothing else is called or changed. */
  lemma DecodeFailure(p: Proc, req: Request, env: Oracle)
    requires req.debug == "" && req.body.Malformed?
    ensures Handle(p, req, env).trace == p.trace + [Call.Decode]
    ensures Handle(p, req, env).written == p.written + [Response(StatusBadRequest, ParseFailed + req.body.detail)]
    ensures Handle(p, req, env).logLevel == p.logLevel
    ensures Handle(p, req, env).cwd == p.cwd
  {
  }

  /**
   * The no-push path calls only the build, in the directory the process is
   * already in, and always ends with 200 "Success"; a failed build adds a 500
   * response in front of it.
   */
  lemma NoPushPath(p: Proc, req: Request, env: Oracle)
    requires req.debug == "" && req.body.Parsed? && req.body.opts.noPush
    ensures Handle(p, req, env).trace == p.trace + [Call.Decode, Call.DoBuild(req.body.opts, p.cwd)]
    ensures Handle(p, req, env).cwd == p.cwd
    ensures Handle(p, req, env).logLevel == p.logLevel
    ensures Handle(p, req, env).written ==
      p.written
      + (if env.build.Err? then [Response(StatusInternalServerError, BuildFailed + env.build.detail)] else [])
      + [Response(StatusOK, SuccessMessage)]
  {
  }

  /**
   * On the push path every step runs only when all steps before it succeeded:
   * permission check, change to the root directory, build, push.
   */
  lemma PushPathOrder(p: Proc, req: Request, env: Oracle)
    requires req.debug == "" && req.body.Parsed? && !req.body.opts.noPush
    ensures var t := Calls(p.cwd, req, env);
      && |t| >= 2 && t[0] == Call.Decode && t[1] == Call.CheckPushPermissions(req.body.opts)
      && (Call.Chdir(RootDir) in t <==> env.permission.None?)
      && (Call.DoBuild(req.body.opts, RootDir) in t <==> env.permission.None? && env.chdir.None?)
      && ((exists c <- t :: c.DoPush?) <==> env.permission.None? && env.chdir.None? && env.build.Ok?)
  {
    var t := Calls(p.cwd, req, env);
    if env.permission.None? && env.chdir.None? && env.build.Ok? {
      assert t[4].DoPush?;
    }
  }

  /** A failed permission check gets one 400 response and leaves the working directory alone. */
  lemma PermissionFailure(p: Proc, req: Request, env: Oracle)
    requires req.debug == "" && req.body.Parsed? && !req.body.opts.noPush
    requires env.permission.Some?
    ensures Handle(p, req, env).trace == p.trace + [Call.Decode, Call.CheckPushPermissions(req.body.opts)]
    ensures Handle(p, req, env).written == p.written + [Response(StatusBadRequest, PermissionFailed + env.permission.value)]
    ensures Handle(p, req, env).cwd == p.cwd
  {
  }

  /** A failed change of directory gets one 500 response and no build follows. */
  lemma ChdirFailure(p: Proc, req: Request, env: Oracle)
    requires req.debug == "" && req.body.Parsed? && !req.body.opts.noPush
    requires env.permission.None? && env.chdir.Some?
    ensures Handle(p, req, env).trace ==
      p.trace + [Call.Decode, Call.CheckPushPermissions(req.body.opts), Call.Chdir(RootDir)]
    ensures Handle(p, req, env).written == p.written + [Response(StatusInternalServerError, ChdirFailed + env.chdir.value)]
    ensures Handle(p, req, env).cwd == p.cwd
  {
  }

  /** A failed build on the push path gets one 500 response and no push follows. */
  lemma PushPathBuildFailure(p: Proc, req: Request, env: Oracle)
    requires req.debug == "" && req.body.Parsed? && !req.body.opts.noPush
    requires env.permission.None? && env.chdir.None? && env.build.Err?
    ensures Handle(p, req, env).trace ==
      p.trace + [Call.Decode, Call.CheckPushPermissions(req.body.opts), Call.Chdir(RootDir),
                 Call.DoBuild(req.body.opts, RootDir)]
    ensures Handle(p, req, env).written == p.written + [Response(StatusInternalServerError, BuildFailed + env.build.detail)]
    ensures Handle(p, req, env).cwd == RootDir
  {
  }

  /**
   * Once permission check, directory change and build succeeded, the push is
   * made with the built image; a failed push gets one 500 response, a
   * successful one gets no response at all.
   */
  lemma PushOutcome(p: Proc, req: Request, env: Oracle)
    requires req.debug == "" && req.body.Parsed? && !req.body.opts.noPush
    requires env.permission.None? && env.chdir.None? && env.build.Ok?
    ensures Handle(p, req, env).trace ==
      p.trace + [Call.Decode, Call.CheckPushPermissions(req.body.opts), Call.Chdir(RootDir),
                 Call.DoBuild(req.body.opts, RootDir), Call.DoPush(env.build.value, req.body.opts)]
    ensures Handle(p, req, env).written ==
      p.written + if env.push.Some? then [Response(StatusInternalServerError, PushFailed + env.push.value)] else []
    ensures Handle(p, req, env).cwd == RootDir
    ensures Handle(p, req, env).logLevel == p.logLevel
  {
  }

  /**
   * The working directory changes only to the root directory, and only on the
   * push path once the permission check has passed.
   */
  lemma WorkingDirectory(p: Proc, req: Request, env: Oracle)
    requires Admissible(req)
    ensures Handle(p, req, env).cwd != p.cwd ==> ReachesChdir(req, env) && Handle(p, req, env).cwd == RootDir
  {
  }

  /**
   * Handling the same request twice, with the collaborators answering the same
   * way, makes the same calls and writes the same responses again, and leaves
   * the process state as the first handling left it.
   */
  lemma Repeatable(p: Proc, req: Request, env: Oracle)
    requires Admissible(req)
    ensures var q := Handle(p, req, env);
      && Calls(q.cwd, req, env) == Calls(p.cwd, req, env)
      && Handle(q, req, env).trace == q.trace + Calls(p.cwd, req, env)
      && Handle(q, req, env).written == q.written + Responses(req, env)
      && Handle(q, req, env).logLevel == q.logLevel
      && Handle(q, req, env).cwd == q.cwd
  {
  }
}
